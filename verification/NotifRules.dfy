/** Who is notified of an event and as what, told from the event and the answers instead of the slots. */
module NotifRules {
  import opened Prelude
  import opened NotifRouting
  import opened NotifDispatch
  import opened NotifInbox

  /** How a user relates to an event. */
  predicate Related(e: Event, w: World, u: User, rel: Relation) {
    match rel
    case RelMention => u in e.mentions
    case RelAuthor => e.thread.Some? && w.author == Some(u)
    case RelAssignee => e.thread.Some? && u in w.assignees
    case RelSubscribedThread => e.thread.Some? && u in w.subscribers
    case RelWatchingAll => e.repo != 0 && u in w.watchers
    case RelRepoOwner => e.repo != 0 && IsLifecycleEvent(e.kind) && w.owner == Some(u)
    case RelReviewer => e.kind.ReviewRequested? && e.reviewer != 0 && u == e.reviewer
    case RelCommenter | RelWatchingParticipating => false
  }

  lemma RelationIff(e: Event, w: World, u: User, rel: Relation)
    ensures rel in RelationsOf(e, w, u) <==> Related(e, w, u, rel)
  {
    AllSlots(e, w, u);
    RelationHasSlot(e, w, u, SLOT_COUNT, rel);
    if Order(rel) < SLOT_COUNT {
      SlotOf(e, w, u, rel);
      if InSlot(e, w, Order(rel), u) {
        SlotIsIn(e, w, u, Order(rel), SLOT_COUNT);
      }
    }
    hide RelationsOf, FirstSlots, InSlot;
  }

  lemma {:induction false} RelationHasSlot(e: Event, w: World, u: User, k: nat, rel: Relation)
    requires k <= SLOT_COUNT
    ensures rel in FirstSlots(e, w, u, k) ==> Order(rel) < k && InSlot(e, w, Order(rel), u)
  {
    hide InSlot;
    if k > 0 {
      RelationHasSlot(e, w, u, k - 1, rel);
    }
  }

  /** Mention, author, assignee, subscriber, watcher, owner, reviewer. */
  function Order(rel: Relation): nat {
    match rel
    case RelMention => 0
    case RelAuthor => 1
    case RelAssignee => 2
    case RelSubscribedThread => 3
    case RelWatchingAll => 4
    case RelRepoOwner => 5
    case RelReviewer => 6
    case RelCommenter | RelWatchingParticipating => 7
  }

  /** The relation that decides: the first in this order that the user has and that the kind reaches. */
  ghost predicate Decides(e: Event, w: World, u: User, rel: Relation) {
    && Related(e, w, u, rel) && Reaches(rel, e.kind)
    && forall other: Relation | Order(other) < Order(rel) :: !(Related(e, w, u, other) && Reaches(other, e.kind))
  }

  lemma RoutableIff(kind: EventKind, rel: Relation)
    ensures Routable(kind, rel) <==> Reaches(rel, kind)
    ensures Routable(kind, rel) ==>
      Routing(kind, rel).reason == ReasonFor(rel) && (Routing(kind, rel).overrideIgnore <==> rel.RelMention? || rel.RelReviewer?)
  {
    MatrixByRelation(kind, rel);
    hide Routing;
  }

  lemma FirstRoutableIs(e: Event, w: World, u: User)
    ensures var action := ActionFor(e, w, u);
      && (action.notifyInbox <==> exists rel :: Related(e, w, u, rel) && Reaches(rel, e.kind))
      && (action.notifyInbox ==> exists rel :: Decides(e, w, u, rel) && action == Routing(e.kind, rel))
  {
    var rels, action := RelationsOf(e, w, u), ActionFor(e, w, u);
    hide Picked, RelationsOf;
    assert IsFirstRoutable(e.kind, rels, action);
    forall rel ensures rel in rels <==> Related(e, w, u, rel) {
      RelationIff(e, w, u, rel);
    }
    forall rel ensures Routable(e.kind, rel) <==> Reaches(rel, e.kind) {
      RoutableIff(e.kind, rel);
    }
    hide Routing, Reaches, Related;
    if i :| 0 <= i < |rels| && FirstAt(e.kind, rels, i) && action == Routing(e.kind, rels[i]) {
      assert rels[i] in rels;
      FirstDecides(e, w, u, i);
    } else {
      assert action == SKIP;
    }
  }

  ghost predicate FirstAt(kind: EventKind, rels: seq<Relation>, i: nat)
    requires i < |rels|
  {
    Routable(kind, rels[i]) && forall j | 0 <= j < i :: !Routable(kind, rels[j])
  }

  lemma {:induction false} SlotsArePrefix(e: Event, w: World, u: User, k: nat, n: nat)
    requires k <= n
    ensures FirstSlots(e, w, u, k) <= FirstSlots(e, w, u, n)
  {
    if k < n {
      SlotsArePrefix(e, w, u, k, n - 1);
    }
  }

  lemma {:induction false} SlotIsIn(e: Event, w: World, u: User, m: nat, k: nat)
    requires m < k && InSlot(e, w, m, u)
    ensures SlotRelation(m) in FirstSlots(e, w, u, k)
  {
    if m < k - 1 {
      SlotIsIn(e, w, u, m, k - 1);
    }
  }

  /** Relations stand in slot order. */
  lemma EarlierSlot(e: Event, w: World, u: User, m: nat, k: nat, i: nat) returns (j: nat)
    requires m < k < SLOT_COUNT && InSlot(e, w, m, u)
    requires i < |RelationsOf(e, w, u)| && RelationsOf(e, w, u)[i] == SlotRelation(k)
    ensures j < i && RelationsOf(e, w, u)[j] == SlotRelation(m)
  {
    AllSlots(e, w, u);
    SlotsArePrefix(e, w, u, k, SLOT_COUNT);
    FirstSlotsHold(e, w, u, k, k);
    SlotIsIn(e, w, u, m, k);
    hide RelationsOf, FirstSlots, InSlot, SlotRelation;
    var before := FirstSlots(e, w, u, k);
    j :| 0 <= j < |before| && before[j] == SlotRelation(m);
    assert forall x | 0 <= x < |before| :: before[x] in before;
  }

  lemma SlotOf(e: Event, w: World, u: User, rel: Relation)
    requires Order(rel) < SLOT_COUNT
    ensures SlotRelation(Order(rel)) == rel && (InSlot(e, w, Order(rel), u) <==> Related(e, w, u, rel))
  {
  }

  lemma FirstDecides(e: Event, w: World, u: User, i: nat)
    requires i < |RelationsOf(e, w, u)| && FirstAt(e.kind, RelationsOf(e, w, u), i)
    ensures Decides(e, w, u, RelationsOf(e, w, u)[i])
  {
    var rel := RelationsOf(e, w, u)[i];
    assert rel in RelationsOf(e, w, u);
    RelationIff(e, w, u, rel);
    RoutableIff(e.kind, rel);
    forall other: Relation | Order(other) < Order(rel) ensures !(Related(e, w, u, other) && Reaches(other, e.kind)) {
      if Related(e, w, u, other) {
        SlotOf(e, w, u, other);
        SlotOf(e, w, u, rel);
        var j := EarlierSlot(e, w, u, Order(other), Order(rel), i);
        RoutableIff(e.kind, other);
      }
    }
    hide RelationsOf, Reaches, Related, Routable;
  }

  /** Exactly who is notified: not the actor; with a repository, only who can see it; only who is related in a way
      that the kind reaches; and, with a repository, only who does not ignore it, unless mentioned for a kind
      that reaches mentions or asked for the review. */
  lemma NotifiedIff(e: Event, w: World, u: User)
    ensures u in Notified(e, w) <==>
      && u != e.actor
      && (e.repo != 0 ==> w.sees(u) == Some(true))
      && (exists rel :: Related(e, w, u, rel) && Reaches(rel, e.kind))
      && (e.repo != 0 ==>
            || w.ignores(u) == Some(false)
            || (u in e.mentions && Reaches(RelMention, e.kind))
            || (e.kind.ReviewRequested? && e.reviewer != 0 && u == e.reviewer))
  {
    NotifiedMeans(e, w, u);
    FirstRoutableIs(e, w, u);
    hide Notified, ActionFor, Routing, Reaches;
    if rel :| Decides(e, w, u, rel) && ActionFor(e, w, u) == Routing(e.kind, rel) {
      RoutableIff(e.kind, rel);
      ReviewersAreAlone(e.kind, rel);
    }
    ReachesReviewers(e.kind);
  }

  lemma ReviewersAreAlone(kind: EventKind, rel: Relation)
    ensures kind.ReviewRequested? && Reaches(rel, kind) ==> rel.RelReviewer?
    ensures rel.RelReviewer? && Reaches(rel, kind) ==> kind.ReviewRequested?
  {
  }

  lemma ReachesReviewers(kind: EventKind)
    ensures kind.ReviewRequested? ==> Reaches(RelReviewer, kind)
  {
  }

  /** And as what: the reason is that of the relation that decides. */
  lemma ReasonIff(e: Event, w: World, u: User, rel: Relation)
    requires Decides(e, w, u, rel)
    ensures ActionFor(e, w, u).reason == ReasonFor(rel)
  {
    FirstRoutableIs(e, w, u);
    assert Order(rel) < 7;
    hide ActionFor, Routing, Reaches, Related, ReasonFor, Order;
    var first :| Decides(e, w, u, first) && ActionFor(e, w, u) == Routing(e.kind, first);
    RoutableIff(e.kind, first);
    SameOrder(first, rel);
  }

  lemma SameOrder(a: Relation, b: Relation)
    ensures Order(a) == Order(b) && Order(a) < 7 ==> a == b
  {
  }

  // ----- what they find in their inbox

  /** Whoever unsubscribed from the thread and is related to the event in no other way hears nothing of it. */
  lemma UnsubscribedHearsNothing(t: Tables, e: Event, a: Answers, u: User)
    requires e.thread.Some? && (u, e.thread.value) in t.subscriptions && !t.subscriptions[(u, e.thread.value)].subscribed
    requires forall rel | rel != RelSubscribedThread :: !Related(e, WorldOf(t, e, a), u, rel)
    ensures u !in Notified(e, WorldOf(t, e, a))
  {
    var w := WorldOf(t, e, a);
    assert u !in w.subscribers;
    assert !Related(e, w, u, RelSubscribedThread);
    NotifiedIff(e, w, u);
    hide Notified, WorldOf, Related;
  }

  /** On a thread, each user a dispatch has written to finds one unread row that tells the event, its actor and why;
      a row that was there keeps its repository. Everyone else's rows are as they were. */
  lemma RowsWritten(t: Tables, e: Event, a: Answers, done: set<User>, key: (User, Thread), rel: Relation)
    requires e.thread.Some? && done <= Notified(e, WorldOf(t, e, a))
    requires key.0 in done && key.1 == e.thread.value ==> Decides(e, WorldOf(t, e, a), key.0, rel)
    ensures var rows := Attempt(t, e, a, done).threaded;
      if key.0 in done && key.1 == e.thread.value then
        && key in rows && rows[key].unread && rows[key].kind == e.kind && rows[key].source == e.id
        && rows[key].actor == e.actor && rows[key].reason == ReasonFor(rel)
        && rows[key].repo == if key in t.threaded then t.threaded[key].repo else e.repo
      else (key in rows <==> key in t.threaded) && (key in rows ==> rows[key] == t.threaded[key])
  {
    var w := WorldOf(t, e, a);
    if key.0 in done && key.1 == e.thread.value {
      ReasonIff(e, w, key.0, rel);
    }
    hide ActionFor, Notified, RelationsOf, AutoReason, RecipientSet, WorldOf, Decides;
    assert Subscribed(t, e, w, RecipientSet(e, w)).threaded == t.threaded;
    assert key in KeysFor(e.thread.value, done) <==> key.0 in done && key.1 == e.thread.value;
  }

  /** Without a thread each of them gets a row of its own beside those that were there. */
  lemma ThreadlessRowsWritten(t: Tables, e: Event, a: Answers, done: set<User>, u: User, row: Row)
    requires e.thread.None?
    ensures Attempt(t, e, a, done).threadless[(u, row)] == t.threadless[(u, row)] +
      (if u in done && row == Row(e.kind, ActionFor(e, WorldOf(t, e, a), u).reason, e.repo, e.id, e.actor, true) then 1 else 0)
  {
    var w := WorldOf(t, e, a);
    hide ActionFor, RelationsOf, AutoReason, RecipientSet, WorldOf;
    NoThreadNoSubscriptions(t, e, w, RecipientSet(e, w));
    assert (u, row) in RowsFor(e, w, done) <==> u in done && row == NewRow(e, ActionFor(e, w, u).reason);
  }
}
