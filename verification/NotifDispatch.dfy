/** Fan-out of one event: who is a recipient and why, who is subscribed automatically, and which
    inbox rows are written, whatever the order in which the recipient map is walked. */
module NotifDispatch {
  import opened Prelude
  import opened NotifRouting

  type User = int
  type Recipients = map<User, seq<Relation>>

  datatype ThreadKind = IssueThread | PrThread
  datatype Thread = Thread(kind: ThreadKind, id: int)

  /** An id of 0 stands for an absent actor, repository or reviewer, as in the event row. */
  datatype Event = Event(
    id: int, kind: EventKind, actor: User, repo: int, thread: Option<Thread>,
    mentions: seq<User>, reviewer: User)

  /** What the dispatch gets to see: the answers of the lookups, and the subscribers that the
      subscription table holds. A slot whose query fails is empty; None is a lookup error that
      aborts the dispatch. */
  datatype World = World(
    author: Option<User>, assignees: seq<User>, subscribers: set<User>,
    watchers: seq<User>, owner: Option<User>,
    sees: User -> Option<bool>, ignores: User -> Option<bool>,
    upsertOk: User -> bool, subscribeOk: User -> bool)

  // ----- recipients and their relations

  predicate Reviews(e: Event, u: User) {
    e.kind == ReviewRequested && e.reviewer != 0 && u == e.reviewer
  }

  predicate Owns(e: Event, w: World, u: User) {
    e.repo != 0 && IsLifecycleEvent(e.kind) && w.owner == Some(u)
  }

  function Slot(present: bool, rel: Relation): seq<Relation> {
    if present then [rel] else []
  }

  /** Every way the user relates to the event, each once, in the order of the slots. */
  function RelationsOf(e: Event, w: World, u: User): seq<Relation> {
    Slot(u in e.mentions, RelMention)
    + Slot(e.thread.Some? && w.author == Some(u), RelAuthor)
    + Slot(e.thread.Some? && u in w.assignees, RelAssignee)
    + Slot(e.thread.Some? && u in w.subscribers, RelSubscribedThread)
    + Slot(e.repo != 0 && u in w.watchers, RelWatchingAll)
    + Slot(Owns(e, w, u), RelRepoOwner)
    + Slot(Reviews(e, u), RelReviewer)
  }

  const SLOT_COUNT: nat := 7

  function SlotRelation(k: nat): Relation {
    if k == 0 then RelMention else if k == 1 then RelAuthor else if k == 2 then RelAssignee
    else if k == 3 then RelSubscribedThread else if k == 4 then RelWatchingAll
    else if k == 5 then RelRepoOwner else RelReviewer
  }

  predicate InSlot(e: Event, w: World, k: nat, u: User) {
    if k == 0 then u in e.mentions
    else if k == 1 then e.thread.Some? && w.author == Some(u)
    else if k == 2 then e.thread.Some? && u in w.assignees
    else if k == 3 then e.thread.Some? && u in w.subscribers
    else if k == 4 then e.repo != 0 && u in w.watchers
    else if k == 5 then Owns(e, w, u)
    else Reviews(e, u)
  }

  function FirstSlots(e: Event, w: World, u: User, k: nat): seq<Relation> {
    if k == 0 then [] else FirstSlots(e, w, u, k - 1) + Slot(InSlot(e, w, k - 1, u), SlotRelation(k - 1))
  }

  lemma AllSlots(e: Event, w: World, u: User)
    ensures FirstSlots(e, w, u, SLOT_COUNT) == RelationsOf(e, w, u)
  {
    assert FirstSlots(e, w, u, 1) == Slot(u in e.mentions, RelMention);
    assert FirstSlots(e, w, u, 3) == FirstSlots(e, w, u, 2) + Slot(InSlot(e, w, 2, u), RelAssignee);
    assert FirstSlots(e, w, u, 5) == FirstSlots(e, w, u, 4) + Slot(InSlot(e, w, 4, u), RelWatchingAll);
    assert FirstSlots(e, w, u, 6) == FirstSlots(e, w, u, 5) + Slot(InSlot(e, w, 5, u), RelRepoOwner);
  }

  lemma {:induction false} FirstSlotsHold(e: Event, w: World, u: User, k: nat, n: nat)
    requires k <= n < SLOT_COUNT
    ensures SlotRelation(n) !in FirstSlots(e, w, u, k)
  {
    if k > 0 {
      FirstSlotsHold(e, w, u, k - 1, n);
      assert SlotRelation(k - 1) != SlotRelation(n);
    }
  }

  function Rels(m: Recipients, u: User): seq<Relation> {
    if u in m then m[u] else []
  }

  /** ensure(m, u).add(rel): appended unless already there. */
  method EnsureAdd(m: Recipients, u: User, rel: Relation) returns (out: Recipients)
    ensures out.Keys == m.Keys + {u}
    ensures Rels(out, u) == if rel in Rels(m, u) then Rels(m, u) else Rels(m, u) + [rel]
    ensures forall v | v != u :: Rels(out, v) == Rels(m, v)
  {
    var rels := if u in m then m[u] else [];
    for i := 0 to |rels|
      invariant rel !in rels[..i]
    {
      if rels[i] == rel {
        return m[u := rels];
      }
    }
    assert rels == rels[..|rels|];
    return m[u := rels + [rel]];
  }

  /** Who is in the map is who has a relation, and no relation of the map is the given one. */
  ghost predicate ReadyFor(m: Recipients, rel: Relation) {
    (forall u | u in m :: m[u] != []) && (forall u :: rel !in Rels(m, u))
  }

  ghost predicate Extends(m: Recipients, out: Recipients, users: seq<User>, rel: Relation) {
    (forall u | u in out :: out[u] != []) && (forall u :: ExtendsAt(m, out, users, rel, u))
  }

  ghost predicate ExtendsAt(m: Recipients, out: Recipients, users: seq<User>, rel: Relation, u: User) {
    Rels(out, u) == Rels(m, u) + Slot(u in users, rel)
  }

  /** One slot: each listed user gets the relation once, however often it is listed. */
  method AddSlot(m: Recipients, users: seq<User>, rel: Relation) returns (out: Recipients)
    requires ReadyFor(m, rel)
    ensures Extends(m, out, users, rel)
  {
    out := m;
    for i := 0 to |users|
      invariant Extends(m, out, users[..i], rel)
    {
      ghost var before := out;
      out := EnsureAdd(out, users[i], rel);
      ExtendByOne(m, before, out, users, i, rel);
    }
    assert users == users[..|users|];
  }

  lemma ExtendByOne(m: Recipients, before: Recipients, out: Recipients, users: seq<User>, i: nat, rel: Relation)
    requires i < |users| && ReadyFor(m, rel)
    requires Extends(m, before, users[..i], rel)
    requires out.Keys == before.Keys + {users[i]}
    requires Rels(out, users[i]) ==
      if rel in Rels(before, users[i]) then Rels(before, users[i]) else Rels(before, users[i]) + [rel]
    requires forall v | v != users[i] :: Rels(out, v) == Rels(before, v)
    ensures Extends(m, out, users[..i + 1], rel)
  {
    hide ReadyFor, ExtendsAt;
    var now := users[..i + 1];
    forall u ensures ExtendsAt(m, out, now, rel, u) {
      assert ExtendsAt(m, before, users[..i], rel, u);
      ExtendOne(m, before, out, users, i, rel, u);
    }
    forall u | u in out ensures out[u] != [] {
      assert Rels(out, u) == out[u];
    }
  }

  lemma ExtendOne(m: Recipients, before: Recipients, out: Recipients, users: seq<User>, i: nat, rel: Relation, u: User)
    requires i < |users| && ReadyFor(m, rel) && ExtendsAt(m, before, users[..i], rel, u)
    requires Rels(out, u) ==
      if u == users[i] && rel !in Rels(before, u) then Rels(before, u) + [rel] else Rels(before, u)
    ensures ExtendsAt(m, out, users[..i + 1], rel, u)
  {
    assert users[..i + 1] == users[..i] + [users[i]];
    assert rel !in Rels(m, u);
  }

  /** The map after the first k slots. */
  ghost predicate Gathered(e: Event, w: World, m: Recipients, k: nat) {
    && (forall u | u in m :: m[u] != [])
    && (forall u :: Rels(m, u) == FirstSlots(e, w, u, k))
  }

  lemma NoSlots(e: Event, w: World, m: Recipients)
    requires m == map[]
    ensures Gathered(e, w, m, 0)
  {
  }

  method TakeSlot(e: Event, w: World, ghost k: nat, m: Recipients, users: seq<User>, rel: Relation)
    returns (out: Recipients)
    requires k < SLOT_COUNT && Gathered(e, w, m, k) && rel == SlotRelation(k)
    requires forall u :: u in users <==> InSlot(e, w, k, u)
    ensures Gathered(e, w, out, k + 1)
  {
    hide InSlot;
    forall u ensures rel !in Rels(m, u) {
      FirstSlotsHold(e, w, u, k, k);
    }
    out := AddSlot(m, users, rel);
    forall u ensures Rels(out, u) == FirstSlots(e, w, u, k + 1) {
      assert ExtendsAt(m, out, users, rel, u);
    }
  }

  function One(u: Option<User>): seq<User> {
    if u.Some? then [u.value] else []
  }

  /** The recipients are exactly the users with a relation to the event, apart from its actor,
      each with all of these relations in slot order. */
  ghost predicate AreRecipients(e: Event, w: World, m: Recipients) {
    && (forall u :: u in m <==> RelationsOf(e, w, u) != [] && (e.actor == 0 || u != e.actor))
    && (forall u | u in m :: m[u] == RelationsOf(e, w, u))
  }

  /** The rows of a table, in some order. */
  method Listed(users: set<User>) returns (list: seq<User>)
    ensures forall u :: u in list <==> u in users
  {
    list := [];
    var todo := users;
    while todo != {}
      invariant todo <= users
      invariant forall u :: u in list <==> u in users && u !in todo
      decreases |todo|
    {
      var u := Pick(todo);
      todo := todo - {u};
      list := list + [u];
    }
  }

  method GatherSlots(e: Event, w: World) returns (out: Recipients)
    ensures Gathered(e, w, out, SLOT_COUNT)
  {
    hide Gathered, FirstSlots;
    out := map[];
    NoSlots(e, w, out);
    out := TakeSlot(e, w, 0, out, e.mentions, RelMention);
    out := TakeSlot(e, w, 1, out, if e.thread.Some? then One(w.author) else [], RelAuthor);
    out := TakeSlot(e, w, 2, out, if e.thread.Some? then w.assignees else [], RelAssignee);
    var subscribers := Listed(if e.thread.Some? then w.subscribers else {});
    out := TakeSlot(e, w, 3, out, subscribers, RelSubscribedThread);
    out := TakeSlot(e, w, 4, out, if e.repo != 0 then w.watchers else [], RelWatchingAll);
    var owned := e.repo != 0 && IsLifecycleEvent(e.kind);
    out := TakeSlot(e, w, 5, out, if owned then One(w.owner) else [], RelRepoOwner);
    var asked := e.kind == ReviewRequested && e.reviewer != 0;
    out := TakeSlot(e, w, 6, out, if asked then [e.reviewer] else [], RelReviewer);
  }

  method ComputeRecipients(e: Event, w: World) returns (out: Recipients)
    ensures AreRecipients(e, w, out)
  {
    out := GatherSlots(e, w);
    hide RelationsOf;
    forall u ensures u in out <==> RelationsOf(e, w, u) != []
      ensures u in out ==> out[u] == RelationsOf(e, w, u)
    {
      AllSlots(e, w, u);
      assert Rels(out, u) == FirstSlots(e, w, u, SLOT_COUNT);
    }
    if e.actor != 0 {
      out := out - {e.actor};
    }
  }

  // ----- automatic subscriptions

  datatype SubscribeReason = AuthorOf | AssignedTo | AskedForReview | MentionedIn | CommentedOn

  datatype Subscription = Subscription(subscribed: bool, reason: SubscribeReason)

  /** One turn of the switch: participation overrides, a mention or comment only fills a gap. */
  function Stronger(reason: Option<SubscribeReason>, rel: Relation): Option<SubscribeReason> {
    match rel
    case RelAuthor => Some(AuthorOf)
    case RelAssignee => Some(AssignedTo)
    case RelReviewer => Some(AskedForReview)
    case RelMention => if reason.None? then Some(MentionedIn) else reason
    case RelCommenter => if reason.None? then Some(CommentedOn) else reason
    case _ => reason
  }

  function AutoReason(rels: seq<Relation>): Option<SubscribeReason> {
    if rels == [] then None else Stronger(AutoReason(rels[..|rels| - 1]), rels[|rels| - 1])
  }

  method PickAutoReason(rels: seq<Relation>) returns (reason: Option<SubscribeReason>)
    ensures reason == AutoReason(rels)
  {
    reason := None;
    for i := 0 to |rels|
      invariant reason == AutoReason(rels[..i])
    {
      assert rels[..i + 1][..i] == rels[..i];
      reason := Stronger(reason, rels[i]);
    }
    assert rels == rels[..|rels|];
  }

  lemma AutoReasonLast(rels: seq<Relation>, present: bool, rel: Relation)
    ensures AutoReason(rels + Slot(present, rel)) ==
      if present then Stronger(AutoReason(rels), rel) else AutoReason(rels)
  {
    if present {
      assert (rels + [rel])[..|rels|] == rels;
    } else {
      assert rels + [] == rels;
    }
  }

  /** The reason a recipient is subscribed for: a review request before an assignment before
      authorship before a mention, and watching alone does not subscribe. */
  lemma AutoReasonMeans(e: Event, w: World, u: User)
    ensures AutoReason(RelationsOf(e, w, u)) ==
      if Reviews(e, u) then Some(AskedForReview)
      else if e.thread.Some? && u in w.assignees then Some(AssignedTo)
      else if e.thread.Some? && w.author == Some(u) then Some(AuthorOf)
      else if u in e.mentions then Some(MentionedIn)
      else None
  {
    AllSlots(e, w, u);
    hide RelationsOf, AutoReason;
    assert AutoReason(FirstSlots(e, w, u, 0)) == None by { NoReasonWithoutRelations(); }
    forall k: nat | k < SLOT_COUNT
      ensures AutoReason(FirstSlots(e, w, u, k + 1)) ==
        if InSlot(e, w, k, u) then Stronger(AutoReason(FirstSlots(e, w, u, k)), SlotRelation(k))
        else AutoReason(FirstSlots(e, w, u, k))
    {
      AutoReasonLast(FirstSlots(e, w, u, k), InSlot(e, w, k, u), SlotRelation(k));
    }
    assert AutoReason(FirstSlots(e, w, u, 2)) ==
      if InSlot(e, w, 1, u) then Some(AuthorOf) else if u in e.mentions then Some(MentionedIn) else None;
    assert AutoReason(FirstSlots(e, w, u, 5)) ==
      if InSlot(e, w, 2, u) then Some(AssignedTo) else AutoReason(FirstSlots(e, w, u, 2));
  }

  lemma NoReasonWithoutRelations()
    ensures AutoReason([]) == None
  {
  }

  // ----- the inbox

  datatype Row = Row(kind: EventKind, reason: Reason, repo: int, source: int, actor: User, unread: bool)

  /** Rows of a thread coalesce per recipient; rows without a thread never do. */
  datatype Tables = Tables(
    threaded: map<(User, Thread), Row>,
    threadless: multiset<(User, Row)>,
    subscriptions: map<(User, Thread), Subscription>)

  function NewRow(e: Event, reason: Reason): Row {
    Row(e.kind, reason, e.repo, e.id, e.actor, true)
  }

  /** An existing row of the thread keeps its repository. */
  function UpsertRow(t: Tables, e: Event, u: User, reason: Reason): Tables {
    match e.thread
    case None => t.(threadless := t.threadless + multiset{(u, NewRow(e, reason))})
    case Some(thread) =>
      var key := (u, thread);
      var row := NewRow(e, reason);
      t.(threaded := t.threaded[key := if key in t.threaded then row.(repo := t.threaded[key].repo) else row])
  }

  function SubscribeIfAbsent(t: Tables, key: (User, Thread), reason: SubscribeReason): Tables {
    if key in t.subscriptions then t
    else t.(subscriptions := t.subscriptions[key := Subscription(true, reason)])
  }

  // ----- what a dispatch sees

  /** How the outside world answers during one dispatch. */
  datatype Answers = Answers(
    author: Option<User>, assignees: seq<User>, subscribersOk: bool, watchers: seq<User>, owner: Option<User>,
    sees: User -> Option<bool>, ignores: User -> Option<bool>,
    upsertOk: User -> bool, subscribeOk: User -> bool)

  function Subscribers(t: Tables, thread: Thread): set<User> {
    set key | key in t.subscriptions && key.1 == thread && t.subscriptions[key].subscribed :: key.0
  }

  function WorldOf(t: Tables, e: Event, a: Answers): World {
    World(a.author, a.assignees, if e.thread.Some? && a.subscribersOk then Subscribers(t, e.thread.value) else {},
          a.watchers, a.owner, a.sees, a.ignores, a.upsertOk, a.subscribeOk)
  }

  // ----- what a dispatch means, without an order

  function ActionFor(e: Event, w: World, u: User): Action {
    Picked(e.kind, RelationsOf(e, w, u))
  }

  /** The visible non-actor whose first routable relation notifies and who does not ignore the
      repository, or whose action overrides that. */
  predicate IsNotified(e: Event, w: World, u: User) {
    && u != e.actor
    && (e.repo != 0 ==> w.sees(u) == Some(true))
    && ActionFor(e, w, u).notifyInbox
    && (!ActionFor(e, w, u).overrideIgnore && e.repo != 0 ==> w.ignores(u) == Some(false))
  }

  function RowsFor(e: Event, w: World, users: set<User>): set<(User, Row)> {
    set u | u in users :: (u, NewRow(e, ActionFor(e, w, u).reason))
  }

  function KeysFor(thread: Thread, users: set<User>): set<(User, Thread)> {
    set u | u in users :: (u, thread)
  }

  /** The tables once every listed user has had its row written. */
  function Delivered(t: Tables, e: Event, w: World, users: set<User>): Tables {
    match e.thread
    case None => t.(threadless := t.threadless + multiset(RowsFor(e, w, users)))
    case Some(thread) =>
      t.(threaded := map key | key in t.threaded.Keys + KeysFor(thread, users) ::
           if key in KeysFor(thread, users) then
             var row := NewRow(e, ActionFor(e, w, key.0).reason);
             if key in t.threaded then row.(repo := t.threaded[key].repo) else row
           else t.threaded[key])
  }

  predicate Subscribes(e: Event, w: World, t: Tables, thread: Thread, u: User) {
    AutoReason(RelationsOf(e, w, u)).Some? && w.subscribeOk(u) && (u, thread) !in t.subscriptions
  }

  function Joining(t: Tables, e: Event, w: World, users: set<User>, thread: Thread): set<(User, Thread)> {
    set u | u in users && Subscribes(e, w, t, thread, u) :: (u, thread)
  }

  /** The tables once every listed user has been subscribed where it had no row yet. */
  function Subscribed(t: Tables, e: Event, w: World, users: set<User>): Tables {
    match e.thread
    case None => t
    case Some(thread) =>
      t.(subscriptions := map key | key in t.subscriptions.Keys + Joining(t, e, w, users, thread) ::
           if key in t.subscriptions then t.subscriptions[key]
           else Subscription(true, AutoReason(RelationsOf(e, w, key.0)).value))
  }
}
