/** The inbox tables under fan-out: a dispatch walks the recipients in an arbitrary order, and what
    it writes does not depend on it. */
module NotifInbox {
  import opened Prelude
  import opened NotifRouting
  import opened NotifDispatch

  /** Everyone a slot could name. */
  function Candidates(e: Event, w: World): set<User> {
    (set u | u in e.mentions) + (set u | u in One(w.author)) + (set u | u in w.assignees)
    + w.subscribers + (set u | u in w.watchers) + (set u | u in One(w.owner)) + {e.reviewer}
  }

  function RecipientSet(e: Event, w: World): set<User> {
    set u | u in Candidates(e, w) && RelationsOf(e, w, u) != [] && (e.actor == 0 || u != e.actor)
  }

  function Notified(e: Event, w: World): set<User> {
    set u | u in RecipientSet(e, w) && IsNotified(e, w, u)
  }

  lemma RelatedAreCandidates(e: Event, w: World, u: User)
    requires RelationsOf(e, w, u) != []
    ensures u in Candidates(e, w)
  {
  }

  /** Nobody who should be notified is missing from the finite set of recipients. */
  lemma NotifiedMeans(e: Event, w: World, u: User)
    ensures u in Notified(e, w) <==> IsNotified(e, w, u)
  {
    hide RelationsOf, Candidates;
    if IsNotified(e, w, u) {
      assert RelationsOf(e, w, u) != [];
      RelatedAreCandidates(e, w, u);
    }
  }

  lemma RecipientsAre(e: Event, w: World, m: Recipients)
    requires AreRecipients(e, w, m)
    ensures m.Keys == RecipientSet(e, w)
  {
    hide RelationsOf, Candidates;
    forall u | u in m ensures u in Candidates(e, w) {
      RelatedAreCandidates(e, w, u);
    }
  }

  lemma NotifiedAreRecipients(e: Event, w: World)
    ensures Notified(e, w) <= RecipientSet(e, w)
  {
    hide RecipientSet, IsNotified;
  }

  lemma RelationsAt(e: Event, w: World, m: Recipients, u: User)
    requires AreRecipients(e, w, m) && u in m
    ensures m[u] == RelationsOf(e, w, u)
  {
    hide RelationsOf;
  }

  // ----- writing one more row

  lemma DeliverOneThreaded(t: Tables, e: Event, w: World, users: set<User>, u: User)
    requires u !in users && e.thread.Some?
    ensures Delivered(t, e, w, users + {u}) == UpsertRow(Delivered(t, e, w, users), e, u, ActionFor(e, w, u).reason)
  {
    hide ActionFor, NewRow;
    var thread := e.thread.value;
    assert KeysFor(thread, users + {u}) == KeysFor(thread, users) + {(u, thread)};
    assert (u, thread) !in KeysFor(thread, users);
    var l := Delivered(t, e, w, users + {u}).threaded;
    var r := UpsertRow(Delivered(t, e, w, users), e, u, ActionFor(e, w, u).reason).threaded;
    assert l.Keys == r.Keys;
    assert forall key | key in l :: l[key] == r[key];
    assert l == r;
  }

  lemma DeliverOneThreadless(t: Tables, e: Event, w: World, users: set<User>, u: User)
    requires u !in users && e.thread.None?
    ensures Delivered(t, e, w, users + {u}) == UpsertRow(Delivered(t, e, w, users), e, u, ActionFor(e, w, u).reason)
  {
    hide ActionFor, NewRow;
    var row := (u, NewRow(e, ActionFor(e, w, u).reason));
    assert RowsFor(e, w, users + {u}) == RowsFor(e, w, users) + {row};
    assert row !in RowsFor(e, w, users);
    assert multiset(RowsFor(e, w, users) + {row}) == multiset(RowsFor(e, w, users)) + multiset{row};
  }

  lemma DeliverOne(t: Tables, e: Event, w: World, users: set<User>, u: User)
    requires u !in users
    ensures Delivered(t, e, w, users + {u}) == UpsertRow(Delivered(t, e, w, users), e, u, ActionFor(e, w, u).reason)
  {
    hide Delivered, UpsertRow, ActionFor;
    if e.thread.Some? {
      DeliverOneThreaded(t, e, w, users, u);
    } else {
      DeliverOneThreadless(t, e, w, users, u);
    }
  }

  lemma DeliverNone(t: Tables, e: Event, w: World)
    ensures Delivered(t, e, w, {}) == t
  {
    hide ActionFor;
    if e.thread.Some? {
      assert KeysFor(e.thread.value, {}) == {};
      assert Delivered(t, e, w, {}).threaded == t.threaded;
    } else {
      assert RowsFor(e, w, {}) == {};
    }
  }

  lemma SubscribeNone(t: Tables, e: Event, w: World)
    ensures Subscribed(t, e, w, {}) == t
  {
    hide RelationsOf, AutoReason;
    if e.thread.Some? {
      assert Subscribed(t, e, w, {}).subscriptions == t.subscriptions;
    }
  }

  /** Who joins when one more user is looked at. */
  lemma OneMoreJoins(t: Tables, e: Event, w: World, users: set<User>, u: User, thread: Thread)
    requires u !in users
    ensures Joining(t, e, w, users + {u}, thread) ==
      Joining(t, e, w, users, thread) + (if Subscribes(e, w, t, thread, u) then {(u, thread)} else {})
    ensures (u, thread) !in Joining(t, e, w, users, thread)
  {
    hide Subscribes;
  }

  lemma SubscribeOne(t: Tables, e: Event, w: World, users: set<User>, u: User)
    requires u !in users && e.thread.Some?
    ensures var reason := AutoReason(RelationsOf(e, w, u));
      Subscribed(t, e, w, users + {u}) ==
      if reason.Some? && w.subscribeOk(u) then
        SubscribeIfAbsent(Subscribed(t, e, w, users), (u, e.thread.value), reason.value)
      else Subscribed(t, e, w, users)
  {
    hide RelationsOf, AutoReason;
    var thread := e.thread.value;
    OneMoreJoins(t, e, w, users, u, thread);
    var l := Subscribed(t, e, w, users + {u}).subscriptions;
    var r := Subscribed(t, e, w, users).subscriptions;
    if Subscribes(e, w, t, thread, u) {
      assert l == r[(u, thread) := Subscription(true, AutoReason(RelationsOf(e, w, u)).value)];
    } else {
      assert l == r;
    }
  }

  lemma NoThreadNoSubscriptions(t: Tables, e: Event, w: World, users: set<User>)
    requires e.thread.None?
    ensures Subscribed(t, e, w, users) == t
  {
  }

  /** The tables after a dispatch that wrote the rows of some users. */
  function Attempt(t: Tables, e: Event, a: Answers, done: set<User>): Tables {
    var w := WorldOf(t, e, a);
    Delivered(Subscribed(t, e, w, RecipientSet(e, w)), e, w, done)
  }

  // ----- the tables

  class Inbox {
    var threaded: map<(User, Thread), Row>
    var threadless: multiset<(User, Row)>
    var subscriptions: map<(User, Thread), Subscription>

    ghost function View(): Tables
      reads this
    {
      Tables(threaded, threadless, subscriptions)
    }

    constructor ()
      ensures View() == Tables(map[], multiset{}, map[])
    {
      threaded, threadless, subscriptions := map[], multiset{}, map[];
    }

    method Upsert(e: Event, u: User, reason: Reason)
      modifies this
      ensures View() == UpsertRow(old(View()), e, u, reason)
    {
      var row := NewRow(e, reason);
      if e.thread.None? {
        threadless := threadless + multiset{(u, row)};
      } else {
        var key := (u, e.thread.value);
        if key in threaded {
          row := row.(repo := threaded[key].repo);
        }
        threaded := threaded[key := row];
      }
    }

    method Subscribe(key: (User, Thread), reason: SubscribeReason)
      modifies this
      ensures View() == SubscribeIfAbsent(old(View()), key, reason)
    {
      if key !in subscriptions {
        subscriptions := subscriptions[key := Subscription(true, reason)];
      }
    }

    /** Existing rows, explicit choices among them, are kept. */
    method ApplyAutoSubscriptions(e: Event, w: World, recipients: Recipients)
      requires AreRecipients(e, w, recipients) && e.thread.Some?
      modifies this
      ensures View() == Subscribed(old(View()), e, w, recipients.Keys)
    {
      hide Subscribed, RelationsOf, AutoReason, SubscribeIfAbsent, AreRecipients;
      SubscribeNone(View(), e, w);
      var todo, seen := recipients.Keys, {};
      while todo != {}
        invariant todo !! seen && todo + seen == recipients.Keys
        invariant View() == Subscribed(old(View()), e, w, seen)
        decreases |todo|
      {
        var u := Pick(todo);
        RelationsAt(e, w, recipients, u);
        var reason := PickAutoReason(recipients[u]);
        SubscribeOne(old(View()), e, w, seen, u);
        if reason.Some? && w.subscribeOk(u) {
          Subscribe((u, e.thread.value), reason.value);
        }
        todo, seen := todo - {u}, seen + {u};
      }
    }

    /** What is written for one recipient, or why nothing is. */
    method DispatchTo(e: Event, w: World, u: User, relations: seq<Relation>) returns (ok: bool, written: bool)
      requires relations == RelationsOf(e, w, u)
      modifies this
      ensures ok ==> written == IsNotified(e, w, u)
      ensures !ok ==> !written
      ensures View() == if written then UpsertRow(old(View()), e, u, ActionFor(e, w, u).reason) else old(View())
    {
      hide RelationsOf, Picked, UpsertRow;
      if u == e.actor { return true, false; }
      if e.repo != 0 {
        var visible := w.sees(u);
        if visible.None? { return false, false; }
        if !visible.value { return true, false; }
      }
      var action := PickAction(e.kind, relations);
      if !action.notifyInbox { return true, false; }
      if !action.overrideIgnore && e.repo != 0 {
        var ignored := w.ignores(u);
        if ignored.None? { return false, false; }
        if ignored.value { return true, false; }
      }
      if !w.upsertOk(u) { return false, false; }
      Upsert(e, u, action.reason);
      return true, true;
    }

    /** Walk the recipients in any order, up to the first error. */
    method DispatchAll(e: Event, w: World, recipients: Recipients) returns (ok: bool, ghost done: set<User>)
      requires AreRecipients(e, w, recipients)
      modifies this
      ensures View() == Delivered(old(View()), e, w, done)
      ensures done <= Notified(e, w) && (ok ==> done == Notified(e, w))
    {
      hide Delivered, RelationsOf, UpsertRow, Notified, RecipientSet, ActionFor, IsNotified, AreRecipients;
      RecipientsAre(e, w, recipients);
      NotifiedAreRecipients(e, w);
      ghost var all := Notified(e, w);
      var todo := recipients.Keys;
      done := {};
      DeliverNone(View(), e, w);
      ok := true;
      while todo != {} && ok
        invariant todo <= recipients.Keys && todo !! done && done <= all
        invariant View() == Delivered(old(View()), e, w, done)
        invariant ok ==> all <= done + todo
        decreases |todo|
      {
        var u := Pick(todo);
        todo := todo - {u};
        RelationsAt(e, w, recipients, u);
        NotifiedMeans(e, w, u);
        var written;
        ok, written := DispatchTo(e, w, u, recipients[u]);
        if written {
          DeliverOne(old(View()), e, w, done, u);
          done := done + {u};
        }
      }
    }

    /** The subscribers are read from the table the dispatch also writes. A successful dispatch
        writes the row of every notified user and no other, for every order of the walk; a failed
        one has written some of them. */
    method DispatchEvent(e: Event, a: Answers) returns (ok: bool, ghost done: set<User>)
      modifies this
      ensures View() == Attempt(old(View()), e, a, done)
      ensures done <= Notified(e, WorldOf(old(View()), e, a))
      ensures ok ==> done == Notified(e, WorldOf(old(View()), e, a))
    {
      hide Delivered, Subscribed, RelationsOf, Notified, RecipientSet, WorldOf;
      var w := WorldOf(Tables(threaded, threadless, subscriptions), e, a);
      var recipients := ComputeRecipients(e, w);
      RecipientsAre(e, w, recipients);
      if e.thread.Some? {
        ApplyAutoSubscriptions(e, w, recipients);
      } else {
        NoThreadNoSubscriptions(View(), e, w, recipients.Keys);
      }
      ok, done := DispatchAll(e, w, recipients);
    }
  }

  // ----- what a dispatch promises its readers

  /** For a kind with a mention route, a mentioned user who is not the actor and can see the
      repository gets the row, as a mention, whatever its watch level. */
  lemma MentionAlwaysReaches(e: Event, w: World, u: User)
    requires Routable(e.kind, RelMention) && u in e.mentions && u != e.actor
    requires e.repo != 0 ==> w.sees(u) == Some(true)
    ensures u in Notified(e, w) && ActionFor(e, w, u).reason == ReasonMention
  {
    OverrideMeans(e.kind, RelMention);
    assert RelationsOf(e, w, u)[0] == RelMention;
    NotifiedMeans(e, w, u);
  }

  /** Conversely, an ignore-level watch lets through only mentions and review requests. */
  lemma IgnoreMutesTheRest(e: Event, w: World, u: User)
    requires e.repo != 0 && w.ignores(u) == Some(true)
    ensures u in Notified(e, w) ==> (u in e.mentions && Routable(e.kind, RelMention)) || Reviews(e, u)
  {
    if u in Notified(e, w) {
      var rels := RelationsOf(e, w, u);
      assert IsFirstRoutable(e.kind, rels, ActionFor(e, w, u));
      var i :| 0 <= i < |rels| && Routable(e.kind, rels[i]) && ActionFor(e, w, u) == Routing(e.kind, rels[i]);
      OverrideMeans(e.kind, rels[i]);
      assert rels[i] in rels;
      RelationHolds(e, w, u, rels[i]);
    }
  }

  lemma RelationHolds(e: Event, w: World, u: User, rel: Relation)
    ensures rel in RelationsOf(e, w, u) ==>
      (rel == RelMention ==> u in e.mentions) && (rel == RelReviewer ==> Reviews(e, u))
  {
    var most := FirstSlots(e, w, u, 6);
    AllSlots(e, w, u);
    assert FirstSlots(e, w, u, 7) == most + Slot(InSlot(e, w, 6, u), RelReviewer);
    FirstSlotsHold(e, w, u, 6, 6);
    hide RelationsOf;
    MentionOnlyFirst(e, w, u, 7);
  }

  lemma {:induction false} MentionOnlyFirst(e: Event, w: World, u: User, k: nat)
    ensures RelMention in FirstSlots(e, w, u, k) ==> u in e.mentions
  {
    if k > 0 {
      MentionOnlyFirst(e, w, u, k - 1);
    }
  }
}
