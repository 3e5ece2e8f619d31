/** WHERE clauses as expression trees over numbered parameters, their truth on a joined row, and
    the clause builders shared by the search pages. */
module SearchSql {
  import opened Prelude
  import opened Clock
  import opened SearchDates
  import opened SearchParse

  /** A value bound to a placeholder. `$n` refers to the n-th argument, counting from 1. */
  datatype Arg = Text(text: string) | Time(time: Instant) | Number(number: int)

  datatype Ctor = PlainQuery | PhraseQuery

  /** What the database brings along: name lookup and folding, case-insensitive matching, the
      repository table with its owners' names, and full-text matching. */
  datatype World = World(
    fold: string -> string, lower: string -> string, ilike: (string, string) -> bool,
    userNamed: string -> Option<int>, repos: set<RepoRow>, matches: (Ctor, string, string) -> bool)

  datatype RepoRow = RepoRow(
    id: int, name: string, ownerUser: Option<int>, ownerUserName: Option<string>, ownerOrgName: Option<string>,
    collaborators: set<int>, visibility: string, deleted: bool, isFork: bool, archived: bool,
    topics: set<string>, language: string, created: Instant, updated: Instant)

  datatype PullRow = PullRow(mergedAt: Option<Instant>)

  datatype Row = Row(
    repo: RepoRow, document: string, state: string, kind: string, author: Option<int>,
    assignees: set<int>, commenters: set<int>, reviewers: set<int>, title: string, body: string,
    comments: set<string>, labels: set<string>, milestone: Option<string>, inProject: bool, locked: bool,
    created: Instant, updated: Instant, closed: Option<Instant>, pull: Option<PullRow>)

  /** Table aliases a clause may mention; the rest are bound inside their own subquery. */
  datatype Alias = SearchDoc | Issue | Repo | OwnerUser | OwnerOrg | Pull

  datatype TextCol = State | Kind | Title | IssueBody | Visibility | Language
  datatype TimeCol = IssueCreated | IssueUpdated | IssueClosed | PullMerged | RepoCreated | RepoUpdated
  datatype UserRel = Author | Assignee | Commenter | Reviewer
  datatype Flag = HasAssignee | HasLabel | HasMilestone | InProject | Locked | IsFork | Archived | Deleted | Merged | Public

  datatype Pred =
    | True | False
    | And(left: Pred, right: Pred) | Or(left: Pred, right: Pred) | Not(inner: Pred)
    | Is(flag: Flag)
    | TextEq(col: TextCol, n: nat)
    | LowerEq(col: TextCol, n: nat)
    | ILike(col: TextCol, n: nat)
    | CommentILike(n: nat)
    | OwnerUserEq(n: nat) | OwnerOrgEq(n: nat)
    | RepoEq(ownerPos: nat, namePos: nat)
    | OwnedBy(n: nat) | SharedWith(n: nat)
    | UserIs(rel: UserRel, n: nat)
    | Labelled(n: nat) | Tagged(n: nat) | MilestoneEq(n: nat)
    | AtLeast(time: TimeCol, n: nat) | Below(time: TimeCol, n: nat)
    | Matches(ctor: Ctor, n: nat)

  // ----- truth of a clause

  function TextAt(args: seq<Arg>, n: nat): string {
    if 1 <= n <= |args| && args[n - 1].Text? then args[n - 1].text else ""
  }

  function TimeAt(args: seq<Arg>, n: nat): Instant {
    if 1 <= n <= |args| && args[n - 1].Time? then args[n - 1].time else 0
  }

  function NumberAt(args: seq<Arg>, n: nat): int {
    if 1 <= n <= |args| && args[n - 1].Number? then args[n - 1].number else 0
  }

  function Column(row: Row, col: TextCol): string {
    match col
    case State => row.state
    case Kind => row.kind
    case Title => row.title
    case IssueBody => row.body
    case Visibility => row.repo.visibility
    case Language => row.repo.language
  }

  function TimeOf(row: Row, col: TimeCol): Option<Instant> {
    match col
    case IssueCreated => Some(row.created)
    case IssueUpdated => Some(row.updated)
    case IssueClosed => row.closed
    case PullMerged => if row.pull.Some? then row.pull.value.mergedAt else None
    case RepoCreated => Some(row.repo.created)
    case RepoUpdated => Some(row.repo.updated)
  }

  predicate FlagOf(row: Row, flag: Flag) {
    match flag
    case HasAssignee => row.assignees != {}
    case HasLabel => row.labels != {}
    case HasMilestone => row.milestone.Some?
    case InProject => row.inProject
    case Locked => row.locked
    case IsFork => row.repo.isFork
    case Archived => row.repo.archived
    case Deleted => row.repo.deleted
    case Merged => row.pull.Some? && row.pull.value.mergedAt.Some?
    case Public => row.repo.visibility == "public"
  }

  /** Whether the row's author, an assignee, a commenter or a requested reviewer has this name. */
  predicate Related(w: World, row: Row, rel: UserRel, name: string) {
    var user := w.userNamed(name);
    user.Some? &&
    match rel
    case Author => row.author == user
    case Assignee => user.value in row.assignees
    case Commenter => user.value in row.commenters
    case Reviewer => user.value in row.reviewers
  }

  predicate SameName(w: World, name: Option<string>, text: string) {
    name.Some? && w.fold(name.value) == w.fold(text)
  }

  /** coalesce(username, slug) of the joined owner. */
  function OwnerName(r: RepoRow): Option<string> {
    if r.ownerUserName.Some? then r.ownerUserName else r.ownerOrgName
  }

  /** The condition of the subquery on the repository table. */
  predicate NamedRepo(w: World, r: RepoRow, owner: string, name: string) {
    SameName(w, OwnerName(r), owner) && SameName(w, Some(r.name), name) && !r.deleted
  }

  /** id = (SELECT id ...): owner and name are unique among undeleted repositories, so the subquery
      yields at most one. */
  predicate IsRepoNamed(w: World, id: int, owner: string, name: string) {
    exists r | r in w.repos :: NamedRepo(w, r, owner, name) && r.id == id
  }

  predicate AnyNamed(w: World, names: set<string>, text: string) {
    exists name | name in names :: w.fold(name) == w.fold(text)
  }

  predicate AnyLike(w: World, texts: set<string>, pattern: string) {
    exists t | t in texts :: w.ilike(t, pattern)
  }

  /** A comparison with NULL is not true, so a missing time satisfies neither bound. */
  predicate Eval(w: World, row: Row, args: seq<Arg>, p: Pred) {
    match p
    case True => true
    case False => false
    case And(l, r) => Eval(w, row, args, l) && Eval(w, row, args, r)
    case Or(l, r) => Eval(w, row, args, l) || Eval(w, row, args, r)
    case Not(q) => !Eval(w, row, args, q)
    case Is(flag) => FlagOf(row, flag)
    case TextEq(col, n) => Column(row, col) == TextAt(args, n)
    case LowerEq(col, n) => w.lower(Column(row, col)) == w.lower(TextAt(args, n))
    case ILike(col, n) => w.ilike(Column(row, col), TextAt(args, n))
    case CommentILike(n) => AnyLike(w, row.comments, TextAt(args, n))
    case OwnerUserEq(n) => SameName(w, row.repo.ownerUserName, TextAt(args, n))
    case OwnerOrgEq(n) => SameName(w, row.repo.ownerOrgName, TextAt(args, n))
    case RepoEq(o, n) => IsRepoNamed(w, row.repo.id, TextAt(args, o), TextAt(args, n))
    case OwnedBy(n) => row.repo.ownerUser == Some(NumberAt(args, n))
    case SharedWith(n) => NumberAt(args, n) in row.repo.collaborators
    case UserIs(rel, n) => Related(w, row, rel, TextAt(args, n))
    case Labelled(n) => AnyNamed(w, row.labels, TextAt(args, n))
    case Tagged(n) => AnyNamed(w, row.repo.topics, TextAt(args, n))
    case MilestoneEq(n) => row.milestone == Some(TextAt(args, n))
    case AtLeast(col, n) => TimeOf(row, col).Some? && TimeAt(args, n) <= TimeOf(row, col).value
    case Below(col, n) => TimeOf(row, col).Some? && TimeOf(row, col).value < TimeAt(args, n)
    case Matches(ctor, n) => w.matches(ctor, row.document, TextAt(args, n))
  }

  /** Every placeholder of the clause has an argument. */
  predicate Bound(p: Pred, count: nat) {
    match p
    case True => true
    case False => true
    case And(l, r) => Bound(l, count) && Bound(r, count)
    case Or(l, r) => Bound(l, count) && Bound(r, count)
    case Not(q) => Bound(q, count)
    case Is(flag) => true
    case RepoEq(o, n) => 1 <= o <= count && 1 <= n <= count
    case _ => 1 <= p.n <= count
  }

  function TimeAlias(col: TimeCol): Alias {
    match col
    case PullMerged => Pull
    case RepoCreated => Repo
    case RepoUpdated => Repo
    case _ => Issue
  }

  function Aliases(p: Pred): set<Alias> {
    match p
    case True => {}
    case False => {}
    case And(l, r) => Aliases(l) + Aliases(r)
    case Or(l, r) => Aliases(l) + Aliases(r)
    case Not(q) => Aliases(q)
    case Is(flag) =>
      (match flag
       case HasAssignee => {SearchDoc}
       case HasLabel => {SearchDoc}
       case InProject => {SearchDoc}
       case HasMilestone => {Issue}
       case Locked => {Issue}
       case Merged => {Pull}
       case _ => {Repo})
    case TextEq(col, n) => TextAliases(col)
    case LowerEq(col, n) => TextAliases(col)
    case ILike(col, n) => TextAliases(col)
    case OwnerUserEq(n) => {OwnerUser}
    case OwnerOrgEq(n) => {OwnerOrg}
    case MilestoneEq(n) => {Issue}
    case AtLeast(col, n) => {TimeAlias(col)}
    case Below(col, n) => {TimeAlias(col)}
    case RepoEq(o, n) => {Repo}
    case OwnedBy(n) => {Repo}
    case SharedWith(n) => {Repo}
    case Tagged(n) => {Repo}
    case _ => {SearchDoc}
  }

  function TextAliases(col: TextCol): set<Alias> {
    match col
    case State => {SearchDoc}
    case Kind => {SearchDoc}
    case Title => {Issue}
    case IssueBody => {Issue}
    case _ => {Repo}
  }

  /** Arguments appended later never change what a bound clause says. */
  lemma {:induction false} LaterArgsDoNotMatter(w: World, row: Row, p: Pred, args: seq<Arg>, more: seq<Arg>)
    requires Bound(p, |args|) && args <= more
    ensures Eval(w, row, more, p) == Eval(w, row, args, p)
  {
    match p
    case And(l, r) => LaterArgsDoNotMatter(w, row, l, args, more); LaterArgsDoNotMatter(w, row, r, args, more);
    case Or(l, r) => LaterArgsDoNotMatter(w, row, l, args, more); LaterArgsDoNotMatter(w, row, r, args, more);
    case Not(q) => LaterArgsDoNotMatter(w, row, q, args, more);
    case _ =>
  }

  lemma {:induction false} MoreArgsStayBound(p: Pred, few: nat, many: nat)
    requires Bound(p, few) && few <= many
    ensures Bound(p, many)
  {
    match p
    case And(l, r) => MoreArgsStayBound(l, few, many); MoreArgsStayBound(r, few, many);
    case Or(l, r) => MoreArgsStayBound(l, few, many); MoreArgsStayBound(r, few, many);
    case Not(q) => MoreArgsStayBound(q, few, many);
    case _ =>
  }

  // ----- a growing query

  /** The clause built so far with the arguments it refers to. */
  datatype Built = Built(args: seq<Arg>, where: Pred)

  predicate Holds(w: World, row: Row, b: Built) {
    Eval(w, row, b.args, b.where)
  }

  /** Every placeholder is bound, and every alias is among the joined tables. */
  predicate Ready(b: Built, joined: set<Alias>) {
    Bound(b.where, |b.args|) && Aliases(b.where) <= joined
  }

  /** Conjoin a clause whose placeholders may refer to the newly bound arguments. */
  function Conjoin(b: Built, more: seq<Arg>, clause: Pred): Built {
    Built(b.args + more, And(b.where, clause))
  }

  lemma ConjoinMeans(w: World, joined: set<Alias>, b: Built, more: seq<Arg>, clause: Pred)
    requires Ready(b, joined) && Bound(clause, |b.args + more|) && Aliases(clause) <= joined
    ensures Ready(Conjoin(b, more, clause), joined)
    ensures forall row :: Holds(w, row, Conjoin(b, more, clause))
                          <==> Holds(w, row, b) && Eval(w, row, b.args + more, clause)
  {
    MoreArgsStayBound(b.where, |b.args|, |b.args + more|);
    forall row ensures Eval(w, row, b.args + more, b.where) == Eval(w, row, b.args, b.where) {
      LaterArgsDoNotMatter(w, row, b.where, b.args, b.args + more);
    }
  }

  // ----- the shared builders

  predicate LowerMeaning(w: World, row: Row, col: TextCol, value: string) {
    value != "" ==> w.lower(Column(row, col)) == w.lower(value)
  }

  method AppendCIText(ghost w: World, ghost joined: set<Alias>, b: Built, col: TextCol, value: string)
    returns (out: Built)
    requires Ready(b, joined) && TextAliases(col) <= joined
    ensures Ready(out, joined)
    ensures forall row :: Holds(w, row, out) <==> Holds(w, row, b) && LowerMeaning(w, row, col, value)
  {
    out := b;
    if value != "" {
      var pos := |b.args| + 1;
      out := Conjoin(b, [Text(value)], LowerEq(col, pos));
      ConjoinMeans(w, joined, b, [Text(value)], LowerEq(col, pos));
    }
  }

  predicate FromMeaning(row: Row, col: TimeCol, from: Option<Instant>) {
    from.Some? ==> TimeOf(row, col).Some? && from.value <= TimeOf(row, col).value
  }

  predicate ToMeaning(row: Row, col: TimeCol, to: Option<Instant>) {
    to.Some? ==> TimeOf(row, col).Some? && TimeOf(row, col).value < to.value
  }

  /** A range with a bound demands a time, and the time must lie in the range. */
  predicate DateMeaning(row: Row, col: TimeCol, range: Option<DateRange>) {
    range.Some? && (range.value.from.Some? || range.value.to.Some?)
    ==> TimeOf(row, col).Some? && InRange(range.value, TimeOf(row, col).value)
  }

  method AppendDateRange(ghost w: World, ghost joined: set<Alias>, b: Built, col: TimeCol, range: Option<DateRange>)
    returns (out: Built)
    requires Ready(b, joined) && (range.Some? ==> TimeAlias(col) in joined)
    ensures Ready(out, joined)
    ensures forall row :: Holds(w, row, out) <==> Holds(w, row, b) && DateMeaning(row, col, range)
  {
    hide Holds, Eval, Ready;
    out := b;
    if range.None? {
      return;
    }
    out := AppendFrom(w, joined, out, col, range.value.from);
    out := AppendTo(w, joined, out, col, range.value.to);
  }

  method AppendFrom(ghost w: World, ghost joined: set<Alias>, b: Built, col: TimeCol, from: Option<Instant>)
    returns (out: Built)
    requires Ready(b, joined) && TimeAlias(col) in joined
    ensures Ready(out, joined)
    ensures forall row :: Holds(w, row, out) <==> Holds(w, row, b) && FromMeaning(row, col, from)
  {
    out := b;
    if from.Some? {
      var pos := |b.args| + 1;
      out := Conjoin(b, [Time(from.value)], AtLeast(col, pos));
      ConjoinMeans(w, joined, b, [Time(from.value)], AtLeast(col, pos));
    }
  }

  method AppendTo(ghost w: World, ghost joined: set<Alias>, b: Built, col: TimeCol, to: Option<Instant>)
    returns (out: Built)
    requires Ready(b, joined) && TimeAlias(col) in joined
    ensures Ready(out, joined)
    ensures forall row :: Holds(w, row, out) <==> Holds(w, row, b) && ToMeaning(row, col, to)
  {
    out := b;
    if to.Some? {
      var pos := |b.args| + 1;
      out := Conjoin(b, [Time(to.value)], Below(col, pos));
      ConjoinMeans(w, joined, b, [Time(to.value)], Below(col, pos));
    }
  }

  /** Conjoin a flag test, or its negation. */
  method AppendFlag(ghost w: World, ghost joined: set<Alias>, b: Built, flag: Flag, positive: bool) returns (out: Built)
    requires Ready(b, joined) && Aliases(Is(flag)) <= joined
    ensures Ready(out, joined)
    ensures forall row :: Holds(w, row, out) <==> Holds(w, row, b) && FlagOf(row, flag) == positive
  {
    var clause := if positive then Is(flag) else Not(Is(flag));
    out := Conjoin(b, [], clause);
    ConjoinMeans(w, joined, b, [], clause);
    forall row ensures Eval(w, row, b.args + [], clause) <==> FlagOf(row, flag) == positive {
      assert Eval(w, row, b.args + [], Is(flag)) == FlagOf(row, flag);
    }
  }

  predicate TopicsMeaning(w: World, row: Row, topics: seq<string>) {
    forall k | 0 <= k < |topics| :: AnyNamed(w, row.repo.topics, topics[k])
  }

  method AppendTopics(ghost w: World, ghost joined: set<Alias>, b: Built, topics: seq<string>) returns (out: Built)
    requires Ready(b, joined) && Repo in joined
    ensures Ready(out, joined)
    ensures forall row :: Holds(w, row, out) <==> Holds(w, row, b) && TopicsMeaning(w, row, topics)
  {
    hide Holds, Ready;
    out := b;
    for i := 0 to |topics|
      invariant Ready(out, joined)
      invariant forall row :: Holds(w, row, out) <==> Holds(w, row, b) && TopicsMeaning(w, row, topics[..i])
    {
      ghost var prev := out;
      out := AppendTopic(w, joined, out, topics[i]);
      forall row ensures Holds(w, row, out) <==> Holds(w, row, b) && TopicsMeaning(w, row, topics[..i + 1]) {
        assert topics[..i + 1] == topics[..i] + [topics[i]];
        TopicsSnoc(w, row, topics[..i], topics[i]);
      }
    }
    assert topics[..|topics|] == topics;
  }

  lemma TopicsSnoc(w: World, row: Row, topics: seq<string>, topic: string)
    ensures TopicsMeaning(w, row, topics + [topic])
            <==> TopicsMeaning(w, row, topics) && AnyNamed(w, row.repo.topics, topic)
  {
    hide AnyNamed;
    var all := topics + [topic];
    if TopicsMeaning(w, row, all) {
      forall k | 0 <= k < |topics| ensures AnyNamed(w, row.repo.topics, topics[k]) {
        assert all[k] == topics[k];
      }
      assert all[|topics|] == topic;
    }
  }

  method AppendTopic(ghost w: World, ghost joined: set<Alias>, b: Built, topic: string) returns (out: Built)
    requires Ready(b, joined) && Repo in joined
    ensures Ready(out, joined)
    ensures forall row :: Holds(w, row, out) <==> Holds(w, row, b) && AnyNamed(w, row.repo.topics, topic)
  {
    var pos := |b.args| + 1;
    out := Conjoin(b, [Text(topic)], Tagged(pos));
    ConjoinMeans(w, joined, b, [Text(topic)], Tagged(pos));
  }

  /** Visibility, fork, archived and topic qualifiers, as a statement about the repository. */
  predicate RepoQualifiersMeaning(w: World, row: Row, f: Filters) {
    LowerMeaning(w, row, Visibility, f.visibility)
    && (f.fork.Some? ==> FlagOf(row, IsFork) == f.fork.value)
    && (f.archived.Some? ==> FlagOf(row, Archived) == f.archived.value)
    && TopicsMeaning(w, row, f.topics)
  }

  method AppendRepoQualifiers(ghost w: World, ghost joined: set<Alias>, b: Built, f: Filters) returns (out: Built)
    requires Ready(b, joined) && Repo in joined
    ensures Ready(out, joined)
    ensures forall row :: Holds(w, row, out) <==> Holds(w, row, b) && RepoQualifiersMeaning(w, row, f)
  {
    hide Holds, Ready, LowerMeaning, TopicsMeaning, FlagOf;
    out := AppendCIText(w, joined, b, Visibility, f.visibility);
    if f.fork.Some? {
      out := AppendFlag(w, joined, out, IsFork, f.fork.value);
    }
    if f.archived.Some? {
      out := AppendFlag(w, joined, out, Archived, f.archived.value);
    }
    out := AppendTopics(w, joined, out, f.topics);
  }

  /** Conjoin one clause over one text argument. */
  method AppendText(ghost w: World, ghost joined: set<Alias>, b: Built, value: string, clause: Pred) returns (out: Built)
    requires Ready(b, joined) && Bound(clause, |b.args| + 1) && Aliases(clause) <= joined
    ensures Ready(out, joined)
    ensures forall row :: Holds(w, row, out)
                          <==> Holds(w, row, b) && Eval(w, row, b.args + [Text(value)], clause)
  {
    out := Conjoin(b, [Text(value)], clause);
    ConjoinMeans(w, joined, b, [Text(value)], clause);
  }

  // ----- owner, repository and visibility

  predicate RepoMeaning(w: World, row: Row, repo: Option<RepoName>) {
    repo.Some? ==> IsRepoNamed(w, row.repo.id, repo.value.owner, repo.value.name)
  }

  /** For a row of the repository table, whose ids are unique, that is: its own repository has this
      owner and name and is not deleted. */
  lemma RepoMeansOwnerAndName(w: World, row: Row, repo: RepoName)
    requires row.repo in w.repos && forall r | r in w.repos && r.id == row.repo.id :: r == row.repo
    ensures RepoMeaning(w, row, Some(repo)) <==>
      SameName(w, OwnerName(row.repo), repo.owner) && SameName(w, Some(row.repo.name), repo.name) && !row.repo.deleted
  {
    hide SameName;
  }

  method AppendRepo(ghost w: World, ghost joined: set<Alias>, b: Built, repo: Option<RepoName>) returns (out: Built)
    requires Ready(b, joined) && Repo in joined
    ensures Ready(out, joined)
    ensures forall row :: Holds(w, row, out) <==> Holds(w, row, b) && RepoMeaning(w, row, repo)
  {
    out := b;
    if repo.Some? {
      var ownerPos, namePos := |b.args| + 1, |b.args| + 2;
      var more := [Text(repo.value.owner), Text(repo.value.name)];
      out := Conjoin(b, more, RepoEq(ownerPos, namePos));
      ConjoinMeans(w, joined, b, more, RepoEq(ownerPos, namePos));
      assert (b.args + more)[|b.args|] == more[0] && (b.args + more)[|b.args| + 1] == more[1];
    }
  }

  predicate OwnerMeaning(w: World, row: Row, owner: string) {
    owner != "" ==> SameName(w, row.repo.ownerUserName, owner) || SameName(w, row.repo.ownerOrgName, owner)
  }

  method AppendOwner(ghost w: World, ghost joined: set<Alias>, b: Built, owner: string) returns (out: Built)
    requires Ready(b, joined) && (owner != "" ==> {OwnerUser, OwnerOrg} <= joined)
    ensures Ready(out, joined)
    ensures forall row :: Holds(w, row, out) <==> Holds(w, row, b) && OwnerMeaning(w, row, owner)
  {
    out := b;
    if owner != "" {
      var pos := |b.args| + 1;
      var clause := Or(OwnerUserEq(pos), OwnerOrgEq(pos));
      assert Bound(OwnerUserEq(pos), pos) && Bound(OwnerOrgEq(pos), pos);
      assert Aliases(OwnerUserEq(pos)) == {OwnerUser} && Aliases(OwnerOrgEq(pos)) == {OwnerOrg};
      out := AppendText(w, joined, b, owner, clause);
      forall row ensures Eval(w, row, b.args + [Text(owner)], clause) <==> OwnerMeaning(w, row, owner) {
        assert Eval(w, row, b.args + [Text(owner)], OwnerUserEq(pos)) == SameName(w, row.repo.ownerUserName, owner);
        assert Eval(w, row, b.args + [Text(owner)], OwnerOrgEq(pos)) == SameName(w, row.repo.ownerOrgName, owner);
      }
    }
  }

  datatype Actor = Actor(anonymous: bool, siteAdmin: bool, userId: int, username: string)

  /** Deleted repositories are never listed; private ones only to their owner and collaborators. */
  predicate VisibleTo(actor: Actor, row: Row) {
    !row.repo.deleted
    && (actor.siteAdmin || row.repo.visibility == "public"
        || (!actor.anonymous && (row.repo.ownerUser == Some(actor.userId) || actor.userId in row.repo.collaborators)))
  }

  method AppendVisibility(ghost w: World, ghost joined: set<Alias>, b: Built, actor: Actor) returns (out: Built)
    requires Ready(b, joined) && Repo in joined
    ensures Ready(out, joined)
    ensures forall row :: Holds(w, row, out) <==> Holds(w, row, b) && VisibleTo(actor, row)
  {
    hide Holds, Ready;
    out := AppendFlag(w, joined, b, Deleted, false);
    if actor.siteAdmin {
      return;
    }
    if actor.anonymous {
      out := AppendFlag(w, joined, out, Public, true);
      return;
    }
    out := AppendAccess(w, joined, out, actor.userId);
  }

  method AppendAccess(ghost w: World, ghost joined: set<Alias>, b: Built, user: int) returns (out: Built)
    requires Ready(b, joined) && Repo in joined
    ensures Ready(out, joined)
    ensures forall row :: Holds(w, row, out)
                          <==> Holds(w, row, b) && (row.repo.visibility == "public" || row.repo.ownerUser == Some(user)
                                                    || user in row.repo.collaborators)
  {
    var p1, p2 := |b.args| + 1, |b.args| + 2;
    var more := [Number(user), Number(user)];
    var reach := Or(OwnedBy(p1), SharedWith(p2));
    var clause := Or(Is(Public), reach);
    assert Bound(OwnedBy(p1), p2) && Bound(SharedWith(p2), p2) && Bound(reach, p2);
    assert Aliases(OwnedBy(p1)) == Aliases(SharedWith(p2)) == Aliases(Is(Public)) == Aliases(reach) == {Repo};
    out := Conjoin(b, more, clause);
    ConjoinMeans(w, joined, b, more, clause);
    assert (b.args + more)[|b.args|] == more[0] && (b.args + more)[|b.args| + 1] == more[1];
    forall row ensures Eval(w, row, b.args + more, clause)
                       <==> (row.repo.visibility == "public" || row.repo.ownerUser == Some(user) || user in row.repo.collaborators)
    {
      assert Eval(w, row, b.args + more, Is(Public)) == (row.repo.visibility == "public");
      assert Eval(w, row, b.args + more, OwnedBy(p1)) == (row.repo.ownerUser == Some(user));
      assert Eval(w, row, b.args + more, SharedWith(p2)) == (user in row.repo.collaborators);
      assert Eval(w, row, b.args + more, reach)
             == (row.repo.ownerUser == Some(user) || user in row.repo.collaborators);
    }
  }

  // ----- full text

  /** The phrase wins over the free text. */
  function FullText(q: ParsedQuery): Option<(Ctor, string)> {
    if q.phrase != "" then Some((PhraseQuery, q.phrase))
    else if q.text != "" then Some((PlainQuery, q.text))
    else None
  }

  predicate FullTextMeaning(w: World, row: Row, q: ParsedQuery) {
    FullText(q).Some? ==> w.matches(FullText(q).value.0, row.document, FullText(q).value.1)
  }

  /** The statement starts with the full-text payload as its first argument. */
  method StartWithFullText(ghost w: World, ghost joined: set<Alias>, q: ParsedQuery) returns (b: Built)
    requires SearchDoc in joined
    ensures Ready(b, joined)
    ensures forall row :: Holds(w, row, b) <==> FullTextMeaning(w, row, q)
  {
    b := Built([], True);
    var fts := FullText(q);
    if fts.Some? {
      b := Built([Text(fts.value.1)], Matches(fts.value.0, 1));
    }
  }

  predicate IsTokenChar(c: char) {
    'a' <= c <= 'z' || 'A' <= c <= 'Z' || '0' <= c <= '9'
  }

  /** Some word of the text is at least two letters or digits long. */
  predicate HasIndexableWord(text: string) {
    exists i :: 0 <= i < |text| - 1 && IsTokenChar(text[i]) && IsTokenChar(text[i + 1])
  }

  method ValidateNotShortOnly(text: string) returns (ok: bool)
    ensures ok <==> HasIndexableWord(text)
  {
    var cur := 0;
    for k := 0 to |text|
      invariant 0 <= cur <= 1
      invariant cur == 1 <==> k > 0 && IsTokenChar(text[k - 1])
      invariant forall i :: 0 <= i < k - 1 ==> !(IsTokenChar(text[i]) && IsTokenChar(text[i + 1]))
    {
      if IsTokenChar(text[k]) {
        cur := cur + 1;
        if cur >= 2 {
          assert IsTokenChar(text[k - 1]);
          return true;
        }
        continue;
      }
      cur := 0;
    }
    ok := false;
  }

  // ----- the finished statement

  /** Page and count share the WHERE clause; the page binds a limit and an offset after it. */
  datatype Statement = Statement(where: Pred, joined: set<Alias>, args: seq<Arg>, limitPos: nat, offsetPos: nat)

  function Finish(b: Built, joined: set<Alias>, limit: int, offset: int): Statement {
    Statement(b.where, joined, b.args + [Number(limit), Number(offset)], |b.args| + 1, |b.args| + 2)
  }

  function CountArgs(s: Statement): seq<Arg> {
    if |s.args| >= 2 then s.args[..|s.args| - 2] else []
  }

  /** The last two arguments belong to the page alone: the count query, run without them, binds
      every placeholder and selects by the same predicate. */
  lemma CountSelectsLikePage(w: World, b: Built, joined: set<Alias>, limit: int, offset: int)
    requires Ready(b, joined)
    ensures var s := Finish(b, joined, limit, offset);
            Bound(s.where, |CountArgs(s)|) && Bound(s.where, |s.args|) && Aliases(s.where) <= s.joined
            && NumberAt(s.args, s.limitPos) == limit && NumberAt(s.args, s.offsetPos) == offset
            && forall row :: Eval(w, row, s.args, s.where) == Eval(w, row, CountArgs(s), s.where) == Holds(w, row, b)
  {
    var s := Finish(b, joined, limit, offset);
    assert CountArgs(s) == b.args;
    MoreArgsStayBound(b.where, |b.args|, |s.args|);
    forall row ensures Eval(w, row, s.args, s.where) == Eval(w, row, b.args, s.where) {
      LaterArgsDoNotMatter(w, row, b.where, b.args, s.args);
    }
  }
}
