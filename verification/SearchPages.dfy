/** The issue and repository searches: from a parsed query to a statement whose rows are exactly
    the rows the query's filters describe. */
module SearchPages {
  import opened Prelude
  import opened Clock
  import opened SearchText
  import SearchScanner
  import opened SearchDates
  import opened SearchParse
  import opened SearchSql

  datatype Compiled = EmptyQuery | TooShort | NoRows | Run(statement: Statement)

  // ----- people

  predicate IsMe(value: string) {
    |value| == 2 && LowerChar(value[0]) == 'm' && LowerChar(value[1]) == 'e'
  }

  /** The user name a people filter stands for; `me` is the signed-in actor. */
  function ResolveUser(actor: Actor, raw: string): Option<string> {
    var value := TrimSpace(TrimPrefix(raw, "@"));
    if value == "" then None
    else if IsMe(value) then if actor.anonymous || actor.username == "" then None else Some(actor.username)
    else Some(value)
  }

  /** An unset filter says nothing; one that names nobody matches nothing. */
  predicate PersonMeaning(w: World, row: Row, actor: Actor, rel: UserRel, raw: string) {
    raw != "" ==> ResolveUser(actor, raw).Some? && Related(w, row, rel, ResolveUser(actor, raw).value)
  }

  method AppendPerson(ghost w: World, ghost joined: set<Alias>, b: Built, actor: Actor, rel: UserRel, raw: string)
    returns (out: Built)
    requires Ready(b, joined) && SearchDoc in joined
    ensures Ready(out, joined)
    ensures forall row :: Holds(w, row, out) <==> Holds(w, row, b) && PersonMeaning(w, row, actor, rel, raw)
  {
    hide ResolveUser, Related;
    out := b;
    if raw == "" {
      return;
    }
    var name := ResolveUser(actor, raw);
    if name.None? {
      out := Conjoin(b, [], False);
      ConjoinMeans(w, joined, b, [], False);
    } else {
      var pos := |b.args| + 1;
      out := AppendText(w, joined, b, name.value, UserIs(rel, pos));
    }
  }

  function MentionPattern(name: string): string {
    "%@" + name + "%"
  }

  predicate Mentions(w: World, row: Row, name: string) {
    var pattern := MentionPattern(name);
    w.ilike(row.title, pattern) || w.ilike(row.body, pattern) || AnyLike(w, row.comments, pattern)
  }

  function MentionClause(pos: nat): Pred {
    Or(ILike(Title, pos), Or(ILike(IssueBody, pos), CommentILike(pos)))
  }

  lemma MentionClauseMeans(w: World, args: seq<Arg>, pos: nat, name: string)
    requires 1 <= pos <= |args| && args[pos - 1] == Text(MentionPattern(name))
    ensures Bound(MentionClause(pos), |args|) && Aliases(MentionClause(pos)) == {SearchDoc, Issue}
    ensures forall row :: Eval(w, row, args, MentionClause(pos)) <==> Mentions(w, row, name)
  {
    var tail := Or(ILike(IssueBody, pos), CommentILike(pos));
    assert Bound(ILike(Title, pos), |args|) && Bound(ILike(IssueBody, pos), |args|) && Bound(CommentILike(pos), |args|);
    assert Bound(tail, |args|);
    assert Aliases(ILike(Title, pos)) == Aliases(ILike(IssueBody, pos)) == {Issue};
    assert Aliases(CommentILike(pos)) == {SearchDoc};
    assert Aliases(tail) == {SearchDoc, Issue};
    forall row ensures Eval(w, row, args, MentionClause(pos)) <==> Mentions(w, row, name) {
      assert Eval(w, row, args, ILike(Title, pos)) == w.ilike(row.title, MentionPattern(name));
      assert Eval(w, row, args, ILike(IssueBody, pos)) == w.ilike(row.body, MentionPattern(name));
      assert Eval(w, row, args, CommentILike(pos)) == AnyLike(w, row.comments, MentionPattern(name));
      assert Eval(w, row, args, tail) == (Eval(w, row, args, ILike(IssueBody, pos)) || Eval(w, row, args, CommentILike(pos)));
    }
  }

  predicate MentionMeaning(w: World, row: Row, actor: Actor, raw: string) {
    raw != "" ==> ResolveUser(actor, raw).Some? && Mentions(w, row, ResolveUser(actor, raw).value)
  }

  method AppendMention(ghost w: World, ghost joined: set<Alias>, b: Built, actor: Actor, raw: string) returns (out: Built)
    requires Ready(b, joined) && {SearchDoc, Issue} <= joined
    ensures Ready(out, joined)
    ensures forall row :: Holds(w, row, out) <==> Holds(w, row, b) && MentionMeaning(w, row, actor, raw)
  {
    hide ResolveUser, Mentions, Bound, Eval, MentionPattern;
    out := b;
    if raw == "" {
      return;
    }
    var name := ResolveUser(actor, raw);
    if name.None? {
      out := AppendNothing(w, joined, b);
    } else {
      var pos := |b.args| + 1;
      MentionClauseMeans(w, b.args + [Text(MentionPattern(name.value))], pos, name.value);
      out := AppendText(w, joined, b, MentionPattern(name.value), MentionClause(pos));
    }
  }

  method AppendNothing(ghost w: World, ghost joined: set<Alias>, b: Built) returns (out: Built)
    requires Ready(b, joined)
    ensures Ready(out, joined) && forall row :: !Holds(w, row, out)
  {
    out := Conjoin(b, [], False);
    ConjoinMeans(w, joined, b, [], False);
  }

  // ----- involves: any of several people, in any of four ways

  predicate InvolvesName(w: World, row: Row, name: string) {
    Related(w, row, Author, name) || Related(w, row, Assignee, name) || Related(w, row, Commenter, name)
    || Mentions(w, row, name)
  }

  predicate InvolvesAny(w: World, row: Row, actor: Actor, raws: seq<string>) {
    exists k | 0 <= k < |raws| :: ResolveUser(actor, raws[k]).Some? && InvolvesName(w, row, ResolveUser(actor, raws[k]).value)
  }

  predicate InvolvesMeaning(w: World, row: Row, actor: Actor, raws: seq<string>) {
    raws != [] ==> InvolvesAny(w, row, actor, raws)
  }

  function InvolvesClause(userPos: nat, mentionPos: nat): Pred {
    Or(UserIs(Author, userPos), Or(UserIs(Assignee, userPos), Or(UserIs(Commenter, userPos), MentionClause(mentionPos))))
  }

  lemma InvolvesClauseIsBound(w: World, args: seq<Arg>, pos: nat, name: string)
    requires 1 <= pos < |args| && args[pos - 1] == Text(name) && args[pos] == Text(MentionPattern(name))
    ensures Bound(InvolvesClause(pos, pos + 1), |args|)
    ensures Aliases(InvolvesClause(pos, pos + 1)) == {SearchDoc, Issue}
  {
    hide MentionPattern, Eval;
    MentionClauseMeans(w, args, pos + 1, name);
    hide MentionClause;
    var c := Or(UserIs(Commenter, pos), MentionClause(pos + 1));
    var a := Or(UserIs(Assignee, pos), c);
    assert Bound(c, |args|) && Aliases(c) == {SearchDoc, Issue};
    assert Bound(a, |args|) && Aliases(a) == {SearchDoc, Issue};
  }

  lemma InvolvesClauseMeans(w: World, args: seq<Arg>, pos: nat, name: string)
    requires 1 <= pos < |args| && args[pos - 1] == Text(name) && args[pos] == Text(MentionPattern(name))
    ensures Bound(InvolvesClause(pos, pos + 1), |args|)
    ensures Aliases(InvolvesClause(pos, pos + 1)) == {SearchDoc, Issue}
    ensures forall row :: Eval(w, row, args, InvolvesClause(pos, pos + 1)) <==> InvolvesName(w, row, name)
  {
    InvolvesClauseIsBound(w, args, pos, name);
    hide Mentions, Related, MentionPattern, Bound, Aliases;
    MentionClauseMeans(w, args, pos + 1, name);
    hide MentionClause;
    var m := MentionClause(pos + 1);
    var c := Or(UserIs(Commenter, pos), m);
    var a := Or(UserIs(Assignee, pos), c);
    forall row ensures Eval(w, row, args, InvolvesClause(pos, pos + 1)) <==> InvolvesName(w, row, name) {
      assert Eval(w, row, args, UserIs(Author, pos)) == Related(w, row, Author, name);
      assert Eval(w, row, args, UserIs(Assignee, pos)) == Related(w, row, Assignee, name);
      assert Eval(w, row, args, UserIs(Commenter, pos)) == Related(w, row, Commenter, name);
      assert Eval(w, row, args, c) == (Eval(w, row, args, UserIs(Commenter, pos)) || Eval(w, row, args, m));
      assert Eval(w, row, args, a) == (Eval(w, row, args, UserIs(Assignee, pos)) || Eval(w, row, args, c));
    }
  }

  /** The loop over `involves:` values: each resolved name binds two arguments and one disjunct. */
  method DisjoinInvolved(ghost w: World, args: seq<Arg>, actor: Actor, raws: seq<string>)
    returns (out: seq<Arg>, clause: Pred)
    ensures args <= out && Bound(clause, |out|) && Aliases(clause) <= {SearchDoc, Issue}
    ensures forall row :: Eval(w, row, out, clause) <==> InvolvesAny(w, row, actor, raws)
  {
    hide ResolveUser, InvolvesName, MentionPattern, Eval, InvolvesClause, Aliases, Bound;
    out, clause := args, False;
    FalseMeans(w, out);
    for i := 0 to |raws|
      invariant args <= out && Bound(clause, |out|) && Aliases(clause) <= {SearchDoc, Issue}
      invariant forall row :: Eval(w, row, out, clause) <==> InvolvesAny(w, row, actor, raws[..i])
    {
      assert raws[..i + 1] == raws[..i] + [raws[i]];
      var name := ResolveUser(actor, raws[i]);
      if name.None? {
        forall row ensures InvolvesAny(w, row, actor, raws[..i + 1]) == InvolvesAny(w, row, actor, raws[..i]) {
          InvolvesSnoc(w, row, actor, raws[..i], raws[i]);
        }
        continue;
      }
      var userPos := |out| + 1;
      var more := out + [Text(name.value), Text(MentionPattern(name.value))];
      var next := Or(clause, InvolvesClause(userPos, userPos + 1));
      InvolvesClauseMeans(w, more, userPos, name.value);
      OrMeans(w, out, more, clause, InvolvesClause(userPos, userPos + 1));
      forall row ensures Eval(w, row, more, next) <==> InvolvesAny(w, row, actor, raws[..i + 1]) {
        InvolvesSnoc(w, row, actor, raws[..i], raws[i]);
      }
      out, clause := more, next;
    }
    assert raws[..|raws|] == raws;
  }

  lemma FalseMeans(w: World, args: seq<Arg>)
    ensures Bound(False, |args|) && Aliases(False) == {} && forall row :: !Eval(w, row, args, False)
  {}

  lemma OrMeans(w: World, few: seq<Arg>, more: seq<Arg>, left: Pred, right: Pred)
    requires few <= more && Bound(left, |few|) && Bound(right, |more|)
    ensures Bound(Or(left, right), |more|) && Aliases(Or(left, right)) == Aliases(left) + Aliases(right)
    ensures forall row :: Eval(w, row, more, Or(left, right)) <==> Eval(w, row, few, left) || Eval(w, row, more, right)
  {
    MoreArgsStayBound(left, |few|, |more|);
    forall row ensures Eval(w, row, more, left) == Eval(w, row, few, left) {
      LaterArgsDoNotMatter(w, row, left, few, more);
    }
  }

  lemma InvolvesSnoc(w: World, row: Row, actor: Actor, raws: seq<string>, raw: string)
    ensures InvolvesAny(w, row, actor, raws + [raw])
            <==> InvolvesAny(w, row, actor, raws)
                 || (ResolveUser(actor, raw).Some? && InvolvesName(w, row, ResolveUser(actor, raw).value))
  {
    hide ResolveUser, InvolvesName;
    var all := raws + [raw];
    if k :| 0 <= k < |raws| && ResolveUser(actor, raws[k]).Some? && InvolvesName(w, row, ResolveUser(actor, raws[k]).value) {
      assert all[k] == raws[k];
    }
    assert all[|raws|] == raw;
  }

  method AppendInvolves(ghost w: World, ghost joined: set<Alias>, b: Built, actor: Actor, raws: seq<string>)
    returns (out: Built)
    requires Ready(b, joined) && {SearchDoc, Issue} <= joined
    ensures Ready(out, joined)
    ensures forall row :: Holds(w, row, out) <==> Holds(w, row, b) && InvolvesMeaning(w, row, actor, raws)
  {
    hide Eval, Bound, Aliases, InvolvesAny;
    out := b;
    if |raws| > 0 {
      var args, clause := DisjoinInvolved(w, b.args, actor, raws);
      var more := args[|b.args|..];
      assert b.args + more == args;
      out := Conjoin(b, more, clause);
      ConjoinMeans(w, joined, b, more, clause);
    }
  }

  // ----- labels, milestone and missing fields

  predicate LabelsMeaning(w: World, row: Row, labels: seq<string>) {
    forall k | 0 <= k < |labels| :: AnyNamed(w, row.labels, labels[k])
  }

  lemma LabelsSnoc(w: World, row: Row, labels: seq<string>, name: string)
    ensures LabelsMeaning(w, row, labels + [name]) <==> LabelsMeaning(w, row, labels) && AnyNamed(w, row.labels, name)
  {
    hide AnyNamed;
    var all := labels + [name];
    if LabelsMeaning(w, row, all) {
      forall k | 0 <= k < |labels| ensures AnyNamed(w, row.labels, labels[k]) {
        assert all[k] == labels[k];
      }
      assert all[|labels|] == name;
    }
  }

  method AppendLabels(ghost w: World, ghost joined: set<Alias>, b: Built, labels: seq<string>) returns (out: Built)
    requires Ready(b, joined) && SearchDoc in joined
    ensures Ready(out, joined)
    ensures forall row :: Holds(w, row, out) <==> Holds(w, row, b) && LabelsMeaning(w, row, labels)
  {
    hide Holds, Ready;
    out := b;
    for i := 0 to |labels|
      invariant Ready(out, joined)
      invariant forall row :: Holds(w, row, out) <==> Holds(w, row, b) && LabelsMeaning(w, row, labels[..i])
    {
      out := AppendLabel(w, joined, out, labels[i]);
      assert labels[..i + 1] == labels[..i] + [labels[i]];
      forall row ensures LabelsMeaning(w, row, labels[..i + 1])
                         <==> LabelsMeaning(w, row, labels[..i]) && AnyNamed(w, row.labels, labels[i]) {
        LabelsSnoc(w, row, labels[..i], labels[i]);
      }
    }
    assert labels[..|labels|] == labels;
  }

  method AppendLabel(ghost w: World, ghost joined: set<Alias>, b: Built, name: string) returns (out: Built)
    requires Ready(b, joined) && SearchDoc in joined
    ensures Ready(out, joined)
    ensures forall row :: Holds(w, row, out) <==> Holds(w, row, b) && AnyNamed(w, row.labels, name)
  {
    var pos := |b.args| + 1;
    out := AppendText(w, joined, b, name, Labelled(pos));
  }

  predicate Lacks(row: Row, field: string) {
    (field == "label" ==> row.labels == {}) && (field == "milestone" ==> row.milestone.None?)
    && (field == "assignee" ==> row.assignees == {}) && (field == "project" ==> !row.inProject)
  }

  predicate MissingMeaning(row: Row, fields: seq<string>) {
    forall k | 0 <= k < |fields| :: Lacks(row, fields[k])
  }

  lemma MissingSnoc(row: Row, fields: seq<string>, field: string)
    ensures MissingMeaning(row, fields + [field]) <==> MissingMeaning(row, fields) && Lacks(row, field)
  {
    hide Lacks;
    var all := fields + [field];
    if MissingMeaning(row, all) {
      forall k | 0 <= k < |fields| ensures Lacks(row, fields[k]) {
        assert all[k] == fields[k];
      }
      assert all[|fields|] == field;
    }
  }

  method AppendMissing(ghost w: World, ghost joined: set<Alias>, b: Built, fields: seq<string>) returns (out: Built)
    requires Ready(b, joined) && {SearchDoc, Issue} <= joined
    ensures Ready(out, joined)
    ensures forall row :: Holds(w, row, out) <==> Holds(w, row, b) && MissingMeaning(row, fields)
  {
    hide Holds, Ready, Lacks;
    out := b;
    for i := 0 to |fields|
      invariant Ready(out, joined)
      invariant forall row :: Holds(w, row, out) <==> Holds(w, row, b) && MissingMeaning(row, fields[..i])
    {
      out := AppendLack(w, joined, out, fields[i]);
      assert fields[..i + 1] == fields[..i] + [fields[i]];
      forall row ensures MissingMeaning(row, fields[..i + 1]) <==> MissingMeaning(row, fields[..i]) && Lacks(row, fields[i]) {
        MissingSnoc(row, fields[..i], fields[i]);
      }
    }
    assert fields[..|fields|] == fields;
  }

  method AppendLack(ghost w: World, ghost joined: set<Alias>, b: Built, field: string) returns (out: Built)
    requires Ready(b, joined) && {SearchDoc, Issue} <= joined
    ensures Ready(out, joined)
    ensures forall row :: Holds(w, row, out) <==> Holds(w, row, b) && Lacks(row, field)
  {
    hide Holds, Ready;
    out := b;
    if field == "label" {
      out := AppendFlag(w, joined, b, HasLabel, false);
    } else if field == "milestone" {
      out := AppendFlag(w, joined, b, HasMilestone, false);
    } else if field == "assignee" {
      out := AppendFlag(w, joined, b, HasAssignee, false);
    } else if field == "project" {
      out := AppendFlag(w, joined, b, InProject, false);
    }
  }

  predicate TextMeaning(row: Row, col: TextCol, value: string) {
    value != "" ==> Column(row, col) == value
  }

  method AppendTextColumn(ghost w: World, ghost joined: set<Alias>, b: Built, col: TextCol, value: string)
    returns (out: Built)
    requires Ready(b, joined) && TextAliases(col) <= joined
    ensures Ready(out, joined)
    ensures forall row :: Holds(w, row, out) <==> Holds(w, row, b) && TextMeaning(row, col, value)
  {
    out := b;
    if value != "" {
      var pos := |b.args| + 1;
      out := AppendText(w, joined, b, value, TextEq(col, pos));
    }
  }

  predicate MilestoneMeaning(row: Row, title: string) {
    title != "" ==> row.milestone == Some(title)
  }

  method AppendMilestone(ghost w: World, ghost joined: set<Alias>, b: Built, title: string) returns (out: Built)
    requires Ready(b, joined) && Issue in joined
    ensures Ready(out, joined)
    ensures forall row :: Holds(w, row, out) <==> Holds(w, row, b) && MilestoneMeaning(row, title)
  {
    out := b;
    if title != "" {
      var pos := |b.args| + 1;
      out := AppendText(w, joined, b, title, MilestoneEq(pos));
    }
  }

  // ----- issue or pull request

  predicate NeedsPull(f: Filters) {
    f.mergedState != "" || f.merged.Some? || f.reviewRequested != ""
  }

  /** The kind the statement asks for; None when the requests contradict each other. */
  function EffectiveKind(kindFilter: string, f: Filters): Option<string> {
    if f.kind != "" && kindFilter != "" && kindFilter != f.kind then None else
    var kind := if f.kind != "" then f.kind else kindFilter;
    if NeedsPull(f) then if kind == "issue" then None else Some("pr") else Some(kind)
  }

  predicate KindMeaning(row: Row, kindFilter: string, f: Filters) {
    (kindFilter != "" ==> row.kind == kindFilter) && (f.kind != "" ==> row.kind == f.kind)
    && (NeedsPull(f) ==> row.kind == "pr")
  }

  predicate IsKind(kind: string) {
    kind == "" || kind == "issue" || kind == "pr"
  }

  /** The single kind test stands for the page's tab, the query's own kind and the filters that
      only pull requests can satisfy; a contradiction means no row qualifies. */
  lemma EffectiveKindMeans(row: Row, kindFilter: string, f: Filters)
    requires IsKind(kindFilter) && IsKind(f.kind)
    ensures EffectiveKind(kindFilter, f).None? ==> !KindMeaning(row, kindFilter, f)
    ensures EffectiveKind(kindFilter, f).Some? ==>
              (TextMeaning(row, Kind, EffectiveKind(kindFilter, f).value) <==> KindMeaning(row, kindFilter, f))
  {}

  /** Joining pull requests drops plain issues. */
  predicate JoinKeeps(row: Row, joined: set<Alias>) {
    Pull in joined ==> row.pull.Some?
  }

  predicate UsesPull(f: Filters) {
    f.merged.Some? || f.mergedState != ""
  }

  function IssueJoins(f: Filters): set<Alias> {
    {SearchDoc, Issue, Repo, OwnerUser, OwnerOrg} + (if UsesPull(f) then {Pull} else {})
  }

  predicate MergedMeaning(row: Row, f: Filters) {
    (UsesPull(f) ==> row.pull.Some?) && DateMeaning(row, PullMerged, f.merged)
    && (f.mergedState == "merged" ==> FlagOf(row, Merged)) && (f.mergedState == "unmerged" ==> !FlagOf(row, Merged))
  }

  // ----- the issue search

  predicate PeopleMeaning(w: World, row: Row, actor: Actor, f: Filters) {
    PersonMeaning(w, row, actor, Author, f.author)
    && PersonMeaning(w, row, actor, Assignee, f.assignee)
    && (f.assigneeAny ==> FlagOf(row, HasAssignee))
    && PersonMeaning(w, row, actor, Commenter, f.commenter)
    && MentionMeaning(w, row, actor, f.mention)
    && InvolvesMeaning(w, row, actor, f.involves)
    && PersonMeaning(w, row, actor, Reviewer, f.reviewRequested)
  }

  method AppendPeople(ghost w: World, ghost joined: set<Alias>, b: Built, actor: Actor, f: Filters) returns (out: Built)
    requires Ready(b, joined) && {SearchDoc, Issue} <= joined
    ensures Ready(out, joined)
    ensures forall row :: Holds(w, row, out) <==> Holds(w, row, b) && PeopleMeaning(w, row, actor, f)
  {
    hide Holds, Ready, PersonMeaning, MentionMeaning, InvolvesMeaning, FlagOf;
    out := AppendPerson(w, joined, b, actor, Author, f.author);
    out := AppendPerson(w, joined, out, actor, Assignee, f.assignee);
    if f.assigneeAny {
      out := AppendFlag(w, joined, out, HasAssignee, true);
    }
    out := AppendPerson(w, joined, out, actor, Commenter, f.commenter);
    out := AppendMention(w, joined, out, actor, f.mention);
    out := AppendInvolves(w, joined, out, actor, f.involves);
    out := AppendPerson(w, joined, out, actor, Reviewer, f.reviewRequested);
  }

  predicate DetailsMeaning(w: World, row: Row, f: Filters) {
    LabelsMeaning(w, row, f.labels) && MilestoneMeaning(row, f.milestone) && MissingMeaning(row, f.missing)
    && (f.locked.Some? ==> FlagOf(row, Locked) == f.locked.value)
    && RepoQualifiersMeaning(w, row, f)
    && DateMeaning(row, IssueCreated, f.created) && DateMeaning(row, IssueUpdated, f.updated)
    && DateMeaning(row, IssueClosed, f.closed)
  }

  method AppendDetails(ghost w: World, ghost joined: set<Alias>, b: Built, f: Filters) returns (out: Built)
    requires Ready(b, joined) && {SearchDoc, Issue, Repo} <= joined
    ensures Ready(out, joined)
    ensures forall row :: Holds(w, row, out) <==> Holds(w, row, b) && DetailsMeaning(w, row, f)
  {
    hide Holds, Ready, LabelsMeaning, MilestoneMeaning, MissingMeaning, RepoQualifiersMeaning, DateMeaning, FlagOf;
    out := AppendLabels(w, joined, b, f.labels);
    out := AppendMilestone(w, joined, out, f.milestone);
    out := AppendMissing(w, joined, out, f.missing);
    if f.locked.Some? {
      out := AppendFlag(w, joined, out, Locked, f.locked.value);
    }
    out := AppendRepoQualifiers(w, joined, out, f);
    out := AppendDateRange(w, joined, out, IssueCreated, f.created);
    out := AppendDateRange(w, joined, out, IssueUpdated, f.updated);
    out := AppendDateRange(w, joined, out, IssueClosed, f.closed);
  }

  method AppendMerged(ghost w: World, ghost joined: set<Alias>, b: Built, f: Filters) returns (out: Built)
    requires Ready(b, joined) && (UsesPull(f) <==> Pull in joined)
    ensures Ready(out, joined)
    ensures forall row :: JoinKeeps(row, joined) && Holds(w, row, out) <==> Holds(w, row, b) && MergedMeaning(row, f)
  {
    hide Holds, Ready, DateMeaning, FlagOf;
    out := AppendDateRange(w, joined, b, PullMerged, f.merged);
    if f.mergedState == "merged" {
      out := AppendFlag(w, joined, out, Merged, true);
    } else if f.mergedState == "unmerged" {
      out := AppendFlag(w, joined, out, Merged, false);
    }
  }

  /** Everything the issue page promises about a listed row. */
  predicate IssueMeaning(w: World, row: Row, actor: Actor, q: ParsedQuery, kindFilter: string) {
    FullTextMeaning(w, row, q) && VisibleTo(actor, row)
    && RepoMeaning(w, row, q.filters.repo) && OwnerMeaning(w, row, q.filters.owner)
    && TextMeaning(row, State, q.filters.state) && KindMeaning(row, kindFilter, q.filters)
    && PeopleMeaning(w, row, actor, q.filters) && DetailsMeaning(w, row, q.filters) && MergedMeaning(row, q.filters)
  }

  method BuildIssueWhere(ghost w: World, actor: Actor, q: ParsedQuery, kind: string) returns (b: Built)
    ensures Ready(b, IssueJoins(q.filters))
    ensures forall row :: JoinKeeps(row, IssueJoins(q.filters)) && Holds(w, row, b)
                          <==> FullTextMeaning(w, row, q) && VisibleTo(actor, row)
                               && RepoMeaning(w, row, q.filters.repo) && OwnerMeaning(w, row, q.filters.owner)
                               && TextMeaning(row, State, q.filters.state) && TextMeaning(row, Kind, kind)
                               && PeopleMeaning(w, row, actor, q.filters) && DetailsMeaning(w, row, q.filters)
                               && MergedMeaning(row, q.filters)
  {
    hide Holds, Ready, FullTextMeaning, VisibleTo, RepoMeaning, OwnerMeaning, TextMeaning, PeopleMeaning,
         DetailsMeaning, MergedMeaning, JoinKeeps;
    ghost var joined := IssueJoins(q.filters);
    b := StartWithFullText(w, joined, q);
    b := AppendVisibility(w, joined, b, actor);
    b := AppendRepo(w, joined, b, q.filters.repo);
    b := AppendOwner(w, joined, b, q.filters.owner);
    b := AppendTextColumn(w, joined, b, State, q.filters.state);
    b := AppendTextColumn(w, joined, b, Kind, kind);
    b := AppendPeople(w, joined, b, actor, q.filters);
    b := AppendDetails(w, joined, b, q.filters);
    b := AppendMerged(w, joined, b, q.filters);
  }

  predicate HasIssueNarrowing(f: Filters, kind: string) {
    f.repo.Some? || f.owner != "" || f.author != "" || f.assignee != "" || f.assigneeAny || f.commenter != ""
    || f.mention != "" || |f.involves| > 0 || f.state != "" || kind != "" || |f.labels| > 0 || f.milestone != ""
    || |f.missing| > 0 || f.locked.Some? || f.reviewRequested != "" || f.visibility != "" || f.fork.Some?
    || f.archived.Some? || |f.topics| > 0 || f.created.Some? || f.updated.Some? || f.closed.Some?
    || f.merged.Some? || f.mergedState != ""
  }

  /** The statement lists, and counts, a row exactly when the query means it. */
  ghost predicate Selects(w: World, s: Statement, row: Row, meant: bool) {
    (JoinKeeps(row, s.joined) && Eval(w, row, s.args, s.where) <==> meant)
    && (JoinKeeps(row, s.joined) && Eval(w, row, CountArgs(s), s.where) <==> meant)
  }

  /** Page and count bind every placeholder and alias, and the tail of the page is in place. */
  ghost predicate WellBound(s: Statement, limit: int, offset: int) {
    Bound(s.where, |CountArgs(s)|) && Aliases(s.where) <= s.joined
    && NumberAt(s.args, s.limitPos) == limit && NumberAt(s.args, s.offsetPos) == offset
  }

  /** Neither text nor any narrowing filter drives the search. */
  predicate Undriven(q: ParsedQuery, kind: string) {
    FullText(q).None? && !HasIssueNarrowing(q.filters, kind)
  }

  predicate OnlyShortText(q: ParsedQuery, kind: string) {
    FullText(q).Some? && !HasIssueNarrowing(q.filters, kind) && !HasIndexableWord(FullText(q).value.1)
  }

  method SearchIssues(ghost w: World, actor: Actor, q: ParsedQuery, kindFilter: string, limit: int, offset: int)
    returns (r: Compiled)
    requires IsKind(kindFilter) && IsKind(q.filters.kind)
    ensures r.EmptyQuery? <==> !HasContent(q)
    ensures var kind := EffectiveKind(kindFilter, q.filters);
            (r.NoRows? <==> HasContent(q) && (kind.None? || Undriven(q, kind.value)))
            && (r.TooShort? <==> HasContent(q) && kind.Some? && OnlyShortText(q, kind.value))
    ensures r.Run? ==> WellBound(r.statement, limit, offset)
    ensures r.Run? ==> forall row :: Selects(w, r.statement, row, IssueMeaning(w, row, actor, q, kindFilter))
    ensures EffectiveKind(kindFilter, q.filters).None? ==> forall row :: !IssueMeaning(w, row, actor, q, kindFilter)
  {
    hide HasContent, FullTextMeaning, VisibleTo, RepoMeaning, OwnerMeaning, TextMeaning, PeopleMeaning, DetailsMeaning,
         MergedMeaning, JoinKeeps, KindMeaning, Ready, Holds, Eval, Bound, Aliases, EffectiveKind, HasIndexableWord,
         HasIssueNarrowing;
    var kind := EffectiveKind(kindFilter, q.filters);
    forall row ensures kind.None? ==> !KindMeaning(row, kindFilter, q.filters)
      ensures kind.Some? ==> (TextMeaning(row, Kind, kind.value) <==> KindMeaning(row, kindFilter, q.filters)) {
      EffectiveKindMeans(row, kindFilter, q.filters);
    }
    if !HasContent(q) {
      return EmptyQuery;
    }
    var fts := FullText(q);
    if kind.None? {
      return NoRows;
    }
    if fts.None? && !HasIssueNarrowing(q.filters, kind.value) {
      return NoRows;
    }
    if fts.Some? && !HasIssueNarrowing(q.filters, kind.value) {
      var ok := ValidateNotShortOnly(fts.value.1);
      if !ok {
        return TooShort;
      }
    }
    var b := BuildIssueWhere(w, actor, q, kind.value);
    r := Run(Finish(b, IssueJoins(q.filters), limit, offset));
    CountSelectsLikePage(w, b, IssueJoins(q.filters), limit, offset);
  }

  /** What the parser leaves in the kind filter is a kind, so every parsed query can be compiled. */
  lemma {:induction false} ParsedKindsAreKinds(tokens: seq<SearchScanner.Token>)
    ensures IsKind(AddTokens(tokens).q.filters.kind)
  {
    hide SplitQualifier, SetFilter, KeyNamed;
    if tokens != [] {
      ParsedKindsAreKinds(tokens[..|tokens| - 1]);
      var before := AddTokens(tokens[..|tokens| - 1]).q.filters;
      var split := SplitQualifier(tokens[|tokens| - 1].value);
      if split.Some? {
        SetFilterKeepsKind(before, split.value.0, split.value.1);
      }
    }
  }

  lemma SetFilterKeepsKind(f: Filters, key: string, val: string)
    requires IsKind(f.kind)
    ensures SetFilter(f, key, val).Some? ==> IsKind(SetFilter(f, key, val).value.kind)
  {
    hide ToLower, TrimSpace, ParseDateRange, NormalizeSort, ParseBool, KeyNamed, WordNamed, IndexByte;
  }

  // ----- the repository search

  predicate RepoRowMeaning(w: World, row: Row, actor: Actor, q: ParsedQuery) {
    FullTextMeaning(w, row, q) && VisibleTo(actor, row)
    && RepoMeaning(w, row, q.filters.repo) && OwnerMeaning(w, row, q.filters.owner)
    && LowerMeaning(w, row, Language, q.filters.language) && RepoQualifiersMeaning(w, row, q.filters)
    && DateMeaning(row, RepoCreated, q.filters.created) && DateMeaning(row, RepoUpdated, q.filters.updated)
  }

  /** The count query joins the owner tables only for an owner or repository filter. */
  function CountJoins(f: Filters): set<Alias> {
    {SearchDoc, Repo} + (if f.owner != "" || f.repo.Some? then {OwnerUser, OwnerOrg} else {})
  }

  method BuildRepoWhere(ghost w: World, actor: Actor, q: ParsedQuery) returns (b: Built)
    ensures Ready(b, CountJoins(q.filters))
    ensures forall row :: Holds(w, row, b) <==> RepoRowMeaning(w, row, actor, q)
  {
    hide Holds, Ready, FullTextMeaning, VisibleTo, RepoMeaning, OwnerMeaning, LowerMeaning, RepoQualifiersMeaning, DateMeaning;
    ghost var joined := CountJoins(q.filters);
    b := StartWithFullText(w, joined, q);
    b := AppendVisibility(w, joined, b, actor);
    b := AppendRepo(w, joined, b, q.filters.repo);
    b := AppendOwner(w, joined, b, q.filters.owner);
    b := AppendCIText(w, joined, b, Language, q.filters.language);
    b := AppendRepoQualifiers(w, joined, b, q.filters);
    b := AppendDateRange(w, joined, b, RepoCreated, q.filters.created);
    b := AppendDateRange(w, joined, b, RepoUpdated, q.filters.updated);
  }

  predicate RepoSearchDriven(q: ParsedQuery) {
    var f := q.filters;
    FullText(q).Some? || f.repo.Some? || f.owner != "" || f.language != "" || f.visibility != "" || f.fork.Some?
    || f.archived.Some? || |f.topics| > 0 || f.created.Some? || f.updated.Some?
  }

  predicate RepoTextTooShort(q: ParsedQuery) {
    FullText(q).Some? && q.filters.repo.None? && q.filters.owner == "" && !HasIndexableWord(FullText(q).value.1)
  }

  method SearchRepos(ghost w: World, actor: Actor, q: ParsedQuery, limit: int, offset: int) returns (r: Compiled)
    ensures r.EmptyQuery? <==> !HasContent(q)
    ensures r.NoRows? <==> HasContent(q) && !RepoSearchDriven(q)
    ensures r.TooShort? <==> HasContent(q) && RepoTextTooShort(q)
    ensures r.Run? ==> WellBound(r.statement, limit, offset) && r.statement.joined == CountJoins(q.filters)
    ensures r.Run? ==> forall row :: Selects(w, r.statement, row, RepoRowMeaning(w, row, actor, q))
  {
    hide HasContent, RepoRowMeaning, Ready, Holds, Eval, Bound, Aliases, HasIndexableWord;
    if !HasContent(q) {
      return EmptyQuery;
    }
    var fts := FullText(q);
    if !RepoSearchDriven(q) {
      return NoRows;
    }
    if fts.Some? && q.filters.repo.None? && q.filters.owner == "" {
      var ok := ValidateNotShortOnly(fts.value.1);
      if !ok {
        return TooShort;
      }
    }
    var b := BuildRepoWhere(w, actor, q);
    r := Run(Finish(b, CountJoins(q.filters), limit, offset));
    CountSelectsLikePage(w, b, CountJoins(q.filters), limit, offset);
  }
}
