/** Dispatching an event again after an attempt that wrote only some of its rows. The first attempt
    has also subscribed users, and the second one sees them as subscribers. */
module NotifRetry {
  import opened Prelude
  import opened NotifRouting
  import opened NotifDispatch
  import opened NotifInbox

  predicate SameInbox(a: Tables, b: Tables) {
    a.threaded == b.threaded && a.threadless == b.threadless
  }

  /** No row stems from the event yet. */
  predicate Fresh(t: Tables, e: Event) {
    forall key | key in t.threaded :: t.threaded[key].source != e.id
  }

  /** The tables after an attempt that wrote the rows of `done` and whose subscription inserts
      succeeded for `first`. */
  function Broken(t: Tables, e: Event, a: Answers, first: User -> bool, done: set<User>): Tables {
    Attempt(t, e, a.(subscribeOk := first), done)
  }

  function Clean(t: Tables, e: Event, a: Answers): Tables {
    Attempt(t, e, a, Notified(e, WorldOf(t, e, a)))
  }

  // ----- whom the first attempt surprises

  /** Subscribed by the first attempt. */
  predicate Joins(t: Tables, e: Event, a: Answers, first: User -> bool, u: User) {
    && e.thread.Some? && u in RecipientSet(e, WorldOf(t, e, a)) && first(u)
    && AutoReason(RelationsOf(e, WorldOf(t, e, a), u)).Some? && (u, e.thread.value) !in t.subscriptions
  }

  /** Some relation that comes before a thread subscription routes the event to the user. */
  predicate RoutedEarlier(e: Event, a: Answers, u: User) {
    || (u in e.mentions && Routable(e.kind, RelMention))
    || (a.author == Some(u) && Routable(e.kind, RelAuthor))
    || (u in a.assignees && Routable(e.kind, RelAssignee))
  }

  /** The second attempt may write to the user: not the actor, sees the repository and does not ignore it. */
  predicate Reachable(e: Event, a: Answers, u: User) {
    u != e.actor && (e.repo != 0 ==> a.sees(u) == Some(true) && a.ignores(u) == Some(false))
  }

  /** The new subscription is what routes the event to the user the second time. */
  predicate Surprised(t: Tables, e: Event, a: Answers, first: User -> bool, u: User) {
    && Joins(t, e, a, first, u) && a.subscribersOk && Routable(e.kind, RelSubscribedThread)
    && !RoutedEarlier(e, a, u) && Reachable(e, a, u)
  }

  // ----- what the second attempt sees

  lemma {:induction false} PickedOver(kind: EventKind, first: seq<Relation>, rest: seq<Relation>)
    ensures Picked(kind, first + rest) ==
      if Picked(kind, first).notifyInbox then Picked(kind, first) else Picked(kind, rest)
  {
    if first == [] {
      assert first + rest == rest;
    } else {
      assert (first + rest)[1..] == first[1..] + rest;
      PickedOver(kind, first[1..], rest);
    }
  }

  function Early(e: Event, w: World, u: User): seq<Relation> {
    Slot(u in e.mentions, RelMention)
    + Slot(e.thread.Some? && w.author == Some(u), RelAuthor)
    + Slot(e.thread.Some? && u in w.assignees, RelAssignee)
  }

  function Late(e: Event, w: World, u: User): seq<Relation> {
    Slot(e.repo != 0 && u in w.watchers, RelWatchingAll) + Slot(Owns(e, w, u), RelRepoOwner) + Slot(Reviews(e, u), RelReviewer)
  }

  lemma InThree(e: Event, w: World, u: User)
    ensures RelationsOf(e, w, u) ==
      Early(e, w, u) + (Slot(e.thread.Some? && u in w.subscribers, RelSubscribedThread) + Late(e, w, u))
  {
    hide Slot;
  }

  /** The action is that of the earlier relations, or else of the subscription, or else of the rest. */
  lemma ActionInThree(e: Event, w: World, u: User)
    ensures var early := Picked(e.kind, Early(e, w, u));
      ActionFor(e, w, u) ==
      if early.notifyInbox then early
      else if e.thread.Some? && u in w.subscribers && Routable(e.kind, RelSubscribedThread)
      then Routing(e.kind, RelSubscribedThread)
      else Picked(e.kind, Late(e, w, u))
  {
    InThree(e, w, u);
    var slot := Slot(e.thread.Some? && u in w.subscribers, RelSubscribedThread);
    PickedOver(e.kind, Early(e, w, u), slot + Late(e, w, u));
    PickedOver(e.kind, slot, Late(e, w, u));
    hide RelationsOf, Early, Late, Routing;
  }

  lemma EarlyRoutes(t: Tables, e: Event, a: Answers, u: User)
    requires e.thread.Some?
    ensures Picked(e.kind, Early(e, WorldOf(t, e, a), u)).notifyInbox <==> RoutedEarlier(e, a, u)
  {
    var w := WorldOf(t, e, a);
    var m, n, k := Slot(u in e.mentions, RelMention), Slot(w.author == Some(u), RelAuthor), Slot(u in w.assignees, RelAssignee);
    hide Routing;
    PickedOver(e.kind, m + n, k);
    PickedOver(e.kind, m, n);
  }

  /** Where a subscription routes, the relations after it route only as a watch, without override. */
  lemma LateIsWatching(e: Event, w: World, u: User)
    requires Routable(e.kind, RelSubscribedThread)
    ensures var late := Picked(e.kind, Late(e, w, u));
      late.notifyInbox ==> late.reason == ReasonWatching && !late.overrideIgnore
  {
    MatrixByRelation(e.kind, RelSubscribedThread);
    MatrixByRelation(e.kind, RelWatchingAll);
    MatrixByRelation(e.kind, RelRepoOwner);
    MatrixByRelation(e.kind, RelReviewer);
    hide Routing;
    var x, y, z := Slot(e.repo != 0 && u in w.watchers, RelWatchingAll), Slot(Owns(e, w, u), RelRepoOwner), Slot(Reviews(e, u), RelReviewer);
    PickedOver(e.kind, x + y, z);
    PickedOver(e.kind, x, y);
  }

  /** The second attempt's subscribers are the first one's and those it subscribed. */
  lemma SecondSubscribers(t: Tables, e: Event, a: Answers, first: User -> bool, done: set<User>, u: User)
    requires e.thread.Some?
    ensures var w, w2 := WorldOf(t, e, a), WorldOf(Broken(t, e, a, first, done), e, a);
      && (u in w2.subscribers <==> u in w.subscribers || (a.subscribersOk && Joins(t, e, a, first, u)))
      && (Joins(t, e, a, first, u) ==> u !in w.subscribers)
  {
    hide RelationsOf, AutoReason;
    var thread := e.thread.value;
    var a1 := a.(subscribeOk := first);
    var w1 := WorldOf(t, e, a1);
    SameReading(t, e, a, first);
    hide RecipientSet;
    var subs := Broken(t, e, a, first, done).subscriptions;
    assert subs == Subscribed(t, e, w1, RecipientSet(e, w1)).subscriptions;
    assert (u, thread) in t.subscriptions ==> (u, thread) in subs && subs[(u, thread)] == t.subscriptions[(u, thread)];
    assert (u, thread) in subs && (u, thread) !in t.subscriptions ==> subs[(u, thread)].subscribed;
    assert (u, thread) in subs <==> (u, thread) in t.subscriptions || Joins(t, e, a, first, u);
  }

  /** Whether subscription inserts succeed changes nothing that is read. */
  lemma SameReading(t: Tables, e: Event, a: Answers, first: User -> bool)
    ensures var w, w1 := WorldOf(t, e, a), WorldOf(t, e, a.(subscribeOk := first));
      && (forall u :: RelationsOf(e, w1, u) == RelationsOf(e, w, u))
      && RecipientSet(e, w1) == RecipientSet(e, w)
  {
    var w, w1 := WorldOf(t, e, a), WorldOf(t, e, a.(subscribeOk := first));
    forall u ensures RelationsOf(e, w1, u) == RelationsOf(e, w, u) {}
    hide RelationsOf;
    assert Candidates(e, w1) == Candidates(e, w);
  }

  lemma SecondAction(t: Tables, e: Event, a: Answers, first: User -> bool, done: set<User>, u: User)
    requires e.thread.Some?
    ensures var w, w2 := WorldOf(t, e, a), WorldOf(Broken(t, e, a, first, done), e, a);
      ActionFor(e, w2, u) ==
      if Joins(t, e, a, first, u) && a.subscribersOk && Routable(e.kind, RelSubscribedThread) && !RoutedEarlier(e, a, u)
      then Routing(e.kind, RelSubscribedThread) else ActionFor(e, w, u)
  {
    var t1 := Broken(t, e, a, first, done);
    var w, w2 := WorldOf(t, e, a), WorldOf(t1, e, a);
    assert Early(e, w2, u) == Early(e, w, u) && Late(e, w2, u) == Late(e, w, u);
    hide RelationsOf, Early, Late, Routing, Broken, Picked, ActionFor;
    SecondSubscribers(t, e, a, first, done, u);
    ActionInThree(e, w, u);
    ActionInThree(e, w2, u);
    EarlyRoutes(t, e, a, u);
  }

  /** Only the surprised are treated differently the second time, and they get another row. */
  lemma SecondNotice(t: Tables, e: Event, a: Answers, first: User -> bool, done: set<User>, u: User)
    requires e.thread.Some?
    ensures var w, w2 := WorldOf(t, e, a), WorldOf(Broken(t, e, a, first, done), e, a);
      && (IsNotified(e, w2, u) <==> Surprised(t, e, a, first, u) || IsNotified(e, w, u))
      && (Surprised(t, e, a, first, u) ==>
            ActionFor(e, w2, u).reason == ReasonSubscribed && ActionFor(e, w, u).reason != ReasonSubscribed)
      && (!Surprised(t, e, a, first, u) && IsNotified(e, w, u) ==> ActionFor(e, w2, u) == ActionFor(e, w, u))
  {
    hide RelationsOf, Routing, Broken, Picked, ActionFor, Joins, RoutedEarlier;
    SecondAction(t, e, a, first, done, u);
    MatrixByRelation(e.kind, RelSubscribedThread);
    if Joins(t, e, a, first, u) && Routable(e.kind, RelSubscribedThread) && !RoutedEarlier(e, a, u) {
      JoinerBefore(t, e, a, first, u);
    }
  }

  /** Before the subscription, such a user was notified as a watcher or not at all. */
  lemma JoinerBefore(t: Tables, e: Event, a: Answers, first: User -> bool, u: User)
    requires Joins(t, e, a, first, u) && Routable(e.kind, RelSubscribedThread) && !RoutedEarlier(e, a, u)
    ensures var was := ActionFor(e, WorldOf(t, e, a), u);
      was.reason != ReasonSubscribed && !was.overrideIgnore
  {
    var w := WorldOf(t, e, a);
    SecondSubscribers(t, e, a, first, {}, u);
    hide RelationsOf, Routing, Broken, Picked, ActionFor, Joins, Early, Late;
    LateIsWatching(e, w, u);
    EarlyRoutes(t, e, a, u);
    ActionInThree(e, w, u);
    NoActionNoReason(e, w, u);
  }

  lemma NoActionNoReason(e: Event, w: World, u: User)
    ensures !ActionFor(e, w, u).notifyInbox ==> ActionFor(e, w, u) == SKIP
  {
    hide RelationsOf;
  }

  // ----- the inbox after the retry

  function Retried(t: Tables, e: Event, a: Answers, first: User -> bool, done: set<User>): Tables {
    Clean(Broken(t, e, a, first, done), e, a)
  }

  /** The row a delivery leaves for a user under the event's thread. */
  lemma RowAt(t: Tables, e: Event, w: World, users: set<User>, u: User, thread: Thread)
    requires e.thread == Some(thread)
    ensures var d, key := Delivered(t, e, w, users).threaded, (u, thread);
      && (key in d <==> key in t.threaded || u in users)
      && (u in users ==>
            d[key] == NewRow(e, ActionFor(e, w, u).reason).(repo := if key in t.threaded then t.threaded[key].repo else e.repo))
      && (key in t.threaded && u !in users ==> d[key] == t.threaded[key])
  {
    hide ActionFor;
    assert (u, thread) in KeysFor(thread, users) <==> u in users;
  }

  /** Other threads, rows without a thread and the subscriptions are not delivered to. */
  lemma RowElsewhere(t: Tables, e: Event, w: World, users: set<User>, key: (User, Thread))
    requires e.thread.Some? && key.1 != e.thread.value
    ensures var d := Delivered(t, e, w, users).threaded;
      (key in d <==> key in t.threaded) && (key in d ==> d[key] == t.threaded[key])
  {
    hide ActionFor;
  }

  lemma SurpriseShows(t: Tables, e: Event, a: Answers, first: User -> bool, done: set<User>, u: User)
    requires e.thread.Some? && Fresh(t, e)
    ensures Surprised(t, e, a, first, u) ==> !SameInbox(Retried(t, e, a, first, done), Clean(t, e, a))
  {
    var t1 := Broken(t, e, a, first, done);
    var w, w2 := WorldOf(t, e, a), WorldOf(t1, e, a);
    hide Surprised, IsNotified, Notified, ActionFor, Delivered, Subscribed, Broken, RecipientSet, WorldOf;
    SecondNotice(t, e, a, first, done, u);
    NotifiedMeans(e, w, u);
    NotifiedMeans(e, w2, u);
    SubscribedKeepsRows(t, e, w);
    SubscribedKeepsRows(t1, e, w2);
    RowAt(Subscribed(t, e, w, RecipientSet(e, w)), e, w, Notified(e, w), u, e.thread.value);
    RowAt(Subscribed(t1, e, w2, RecipientSet(e, w2)), e, w2, Notified(e, w2), u, e.thread.value);
  }

  lemma SubscribedKeepsRows(t: Tables, e: Event, w: World)
    ensures var s := Subscribed(t, e, w, RecipientSet(e, w)); s.threaded == t.threaded && s.threadless == t.threadless
  {
    hide RelationsOf, AutoReason, RecipientSet;
  }

  /** Without a surprise the second attempt notifies the same users for the same reasons. */
  lemma SameNotices(t: Tables, e: Event, a: Answers, first: User -> bool, done: set<User>)
    requires e.thread.Some? && forall u :: !Surprised(t, e, a, first, u)
    ensures var w, w2 := WorldOf(t, e, a), WorldOf(Broken(t, e, a, first, done), e, a);
      Notified(e, w2) == Notified(e, w)
      && forall u | u in Notified(e, w) :: ActionFor(e, w2, u).reason == ActionFor(e, w, u).reason
  {
    hide Surprised, IsNotified, Notified, ActionFor, Broken, WorldOf;
    var w, w2 := WorldOf(t, e, a), WorldOf(Broken(t, e, a, first, done), e, a);
    forall u
      ensures u in Notified(e, w2) <==> u in Notified(e, w)
      ensures u in Notified(e, w) ==> ActionFor(e, w2, u).reason == ActionFor(e, w, u).reason
    {
      SecondNotice(t, e, a, first, done, u);
      NotifiedMeans(e, w, u);
      NotifiedMeans(e, w2, u);
    }
    SameMembers(Notified(e, w2), Notified(e, w));
  }

  lemma SameRow(t: Tables, e: Event, a: Answers, first: User -> bool, done: set<User>, key: (User, Thread))
    requires e.thread.Some? && done <= Notified(e, WorldOf(t, e, a)) && forall u :: !Surprised(t, e, a, first, u)
    ensures var once, twice := Clean(t, e, a).threaded, Retried(t, e, a, first, done).threaded;
      (key in twice <==> key in once) && (key in once ==> twice[key] == once[key])
  {
    var t1 := Broken(t, e, a, first, done);
    var w, w1, w2 := WorldOf(t, e, a), WorldOf(t, e, a.(subscribeOk := first)), WorldOf(t1, e, a);
    SameNotices(t, e, a, first, done);
    SubscribedKeepsRows(t, e, w);
    SubscribedKeepsRows(t, e, w1);
    SubscribedKeepsRows(t1, e, w2);
    SameActions(t, e, a, first);
    hide Surprised, IsNotified, Notified, ActionFor, Delivered, Subscribed, RecipientSet, WorldOf, RelationsOf;
    var n := Notified(e, w);
    var s, s1, s2 := Subscribed(t, e, w, RecipientSet(e, w)), Subscribed(t, e, w1, RecipientSet(e, w1)),
                     Subscribed(t1, e, w2, RecipientSet(e, w2));
    if key.1 == e.thread.value {
      RowAt(s, e, w, n, key.0, key.1);
      RowAt(s1, e, w1, done, key.0, key.1);
      RowAt(s2, e, w2, n, key.0, key.1);
    } else {
      RowElsewhere(s, e, w, n, key);
      RowElsewhere(s1, e, w1, done, key);
      RowElsewhere(s2, e, w2, n, key);
    }
  }

  lemma AttemptKeepsThreadless(t: Tables, e: Event, a: Answers, done: set<User>)
    requires e.thread.Some?
    ensures Attempt(t, e, a, done).threadless == t.threadless
  {
    var w := WorldOf(t, e, a);
    hide Delivered, Subscribed, RecipientSet, WorldOf;
    SubscribedKeepsRows(t, e, w);
    ThreadlessUntouched(Subscribed(t, e, w, RecipientSet(e, w)), e, w, done);
  }

  lemma NoSurpriseNoTrace(t: Tables, e: Event, a: Answers, first: User -> bool, done: set<User>)
    requires e.thread.Some? && done <= Notified(e, WorldOf(t, e, a)) && forall u :: !Surprised(t, e, a, first, u)
    ensures SameInbox(Retried(t, e, a, first, done), Clean(t, e, a))
  {
    hide Surprised, Notified, Attempt, WorldOf;
    var once, twice := Clean(t, e, a).threaded, Retried(t, e, a, first, done).threaded;
    forall key ensures (key in twice <==> key in once) && (key in once ==> twice[key] == once[key]) {
      SameRow(t, e, a, first, done, key);
    }
    assert once == twice;
    var t1 := Broken(t, e, a, first, done);
    AttemptKeepsThreadless(t, e, a.(subscribeOk := first), done);
    AttemptKeepsThreadless(t, e, a, Notified(e, WorldOf(t, e, a)));
    AttemptKeepsThreadless(t1, e, a, Notified(e, WorldOf(t1, e, a)));
  }

  lemma ThreadlessUntouched(t: Tables, e: Event, w: World, users: set<User>)
    requires e.thread.Some?
    ensures Delivered(t, e, w, users).threadless == t.threadless
  {
    hide ActionFor;
  }

  /** Without a thread nothing coalesces: what the first attempt wrote is written again. */
  lemma ThreadlessDoubles(t: Tables, e: Event, a: Answers, first: User -> bool, done: set<User>)
    requires e.thread.None? && done <= Notified(e, WorldOf(t, e, a))
    ensures SameInbox(Retried(t, e, a, first, done), Clean(t, e, a)) <==> done == {}
  {
    var w, a1 := WorldOf(t, e, a), a.(subscribeOk := first);
    var w1, n := WorldOf(t, e, a1), Notified(e, w);
    assert WorldOf(Broken(t, e, a, first, done), e, a) == w;
    AttemptThreadless(t, e, a, n);
    AttemptThreadless(t, e, a1, done);
    AttemptThreadless(Broken(t, e, a, first, done), e, a, n);
    SameActions(t, e, a, first);
    hide ActionFor, NewRow, Notified, Attempt, WorldOf;
    assert RowsFor(e, w1, done) == RowsFor(e, w, done);
    if done == {} {
      assert RowsFor(e, w, done) == {};
    } else {
      var u := SomeMember(done);
      var row := (u, NewRow(e, ActionFor(e, w, u).reason));
      assert row in RowsFor(e, w, done);
      assert Retried(t, e, a, first, done).threadless[row] == Clean(t, e, a).threadless[row] + 1;
    }
  }

  lemma AttemptThreadless(t: Tables, e: Event, a: Answers, done: set<User>)
    requires e.thread.None?
    ensures var after := Attempt(t, e, a, done);
      && after.threadless == t.threadless + multiset(RowsFor(e, WorldOf(t, e, a), done))
      && after.threaded == t.threaded && after.subscriptions == t.subscriptions
  {
    hide RowsFor, RecipientSet;
  }

  lemma SameActions(t: Tables, e: Event, a: Answers, first: User -> bool)
    ensures forall u :: ActionFor(e, WorldOf(t, e, a.(subscribeOk := first)), u) == ActionFor(e, WorldOf(t, e, a), u)
  {
    SameReading(t, e, a, first);
    hide RelationsOf;
  }

  /** A retry after a partly written dispatch leaves the inbox one clean dispatch would have left,
      if and only if, with a thread, the first attempt subscribed nobody to whom only that new
      subscription routes the event, and without one, it had written nothing. */
  lemma RetryIsCleanIff(t: Tables, e: Event, a: Answers, first: User -> bool, done: set<User>)
    requires Fresh(t, e) && done <= Notified(e, WorldOf(t, e, a))
    ensures SameInbox(Retried(t, e, a, first, done), Clean(t, e, a)) <==>
      if e.thread.Some? then forall u :: !Surprised(t, e, a, first, u) else done == {}
  {
    hide Surprised, SameInbox, Retried, Clean, Notified, WorldOf;
    if e.thread.None? {
      ThreadlessDoubles(t, e, a, first, done);
    } else if u :| Surprised(t, e, a, first, u) {
      SurpriseShows(t, e, a, first, done, u);
    } else {
      NoSurpriseNoTrace(t, e, a, first, done);
    }
  }

  /** A review of a thread with an assignee who is not subscribed yet: the first attempt subscribes
      the assignee, whom the kind does not notify, and the retry notifies the new subscriber. */
  lemma RetryCanAddRow(thread: Thread, assignee: User, actor: User)
    requires assignee != actor
    ensures var t := Tables(map[], multiset{}, map[]);
      var e := Event(1, ReviewSubmitted, actor, 0, Some(thread), [], 0);
      var yes := (u: User) => true;
      var a := Answers(None, [assignee], true, [], None, u => Some(true), u => Some(false), yes, yes);
      && assignee !in Notified(e, WorldOf(t, e, a))
      && assignee in Notified(e, WorldOf(Broken(t, e, a, yes, {}), e, a))
      && !SameInbox(Retried(t, e, a, yes, {}), Clean(t, e, a))
  {
    var t := Tables(map[], multiset{}, map[]);
    var e := Event(1, ReviewSubmitted, actor, 0, Some(thread), [], 0);
    var yes := (u: User) => true;
    var a := Answers(None, [assignee], true, [], None, u => Some(true), u => Some(false), yes, yes);
    var w := WorldOf(t, e, a);
    assert RelationsOf(e, w, assignee) == [RelAssignee];
    assert ActionFor(e, w, assignee) == SKIP;
    AutoReasonMeans(e, w, assignee);
    RelatedAreCandidates(e, w, assignee);
    assert Surprised(t, e, a, yes, assignee);
    SecondNotice(t, e, a, yes, {}, assignee);
    NotifiedMeans(e, w, assignee);
    NotifiedMeans(e, WorldOf(Broken(t, e, a, yes, {}), e, a), assignee);
    SurpriseShows(t, e, a, yes, {}, assignee);
  }
}
