/** The qualifier interpreter: scanned tokens become filters, free-text terms and exclusions. */
module SearchParse {
  import opened Prelude
  import opened SearchText
  import opened SearchScanner
  import opened SearchDates

  const MAX_QUERY_BYTES := 256

  datatype Term = Term(value: string, phrase: bool, negated: bool)
  datatype Qualifier = Qualifier(key: string, value: string, negated: bool)
  datatype RepoName = RepoName(owner: string, name: string)

  /** The filter fields that positive qualifiers set. An empty string or list means "not set". */
  datatype Filters = Filters(
    repo: Option<RepoName>, state: string, kind: string, mergedState: string, locked: Option<bool>,
    author: string, assignee: string, assigneeAny: bool, commenter: string, mention: string,
    involves: seq<string>, reviewRequested: string, missing: seq<string>, sort: string, owner: string,
    labels: seq<string>, milestone: string, language: string, visibility: string, fork: Option<bool>,
    archived: Option<bool>, topics: seq<string>, path: string, extension: string,
    created: Option<DateRange>, updated: Option<DateRange>, closed: Option<DateRange>, merged: Option<DateRange>)

  datatype ParsedQuery = ParsedQuery(
    text: string, phrase: string, terms: seq<Term>, excluded: seq<Term>,
    qualifiers: seq<Qualifier>, filters: Filters)

  const NO_FILTERS := Filters(
    None, "", "", "", None, "", "", false, "", "", [], "", [], "", "", [], "", "", "", None, None, [], "", "",
    None, None, None, None)

  const BLANK_QUERY := ParsedQuery("", "", [], [], [], NO_FILTERS)

  /** Key and value around the first colon, or nothing when either side is blank. */
  function SplitQualifier(value: string): Option<(string, string)> {
    var i := IndexByte(value, ':');
    if i == |value| || i == 0 || i == |value| - 1 then None else
    var key := ToLower(TrimSpace(value[..i]));
    var val := TrimSpace(value[i + 1..]);
    if key != "" && val != "" then Some((key, val)) else None
  }

  datatype Key =
    | RepoKey | IsKey | TypeKey | StateKey | AuthorKey | AssigneeKey | CommenterKey | MentionsKey
    | InvolvesKey | ReviewRequestedKey | SortKey | NoKey | UserKey | OrgKey | LabelKey | MilestoneKey
    | LanguageKey | PathKey | ExtensionKey | CreatedKey | UpdatedKey | ClosedKey | MergedKey | VisibilityKey
    | ForkKey | ArchivedKey | TopicKey

  function WordKey(name: string): Option<Key> {
    if name == "is" then Some(IsKey)
    else if name == "type" then Some(TypeKey)
    else if name == "state" then Some(StateKey)
    else if name == "visibility" then Some(VisibilityKey)
    else None
  }

  function PersonKey(name: string): Option<Key> {
    if name == "author" then Some(AuthorKey)
    else if name == "assignee" then Some(AssigneeKey)
    else if name == "commenter" then Some(CommenterKey)
    else if name == "mentions" then Some(MentionsKey)
    else if name == "involves" then Some(InvolvesKey)
    else if name == "review-requested" then Some(ReviewRequestedKey)
    else None
  }

  function PlaceKey(name: string): Option<Key> {
    if name == "repo" then Some(RepoKey)
    else if name == "user" then Some(UserKey)
    else if name == "org" then Some(OrgKey)
    else if name == "language" then Some(LanguageKey)
    else if name == "topic" then Some(TopicKey)
    else if name == "path" then Some(PathKey)
    else if name == "extension" then Some(ExtensionKey)
    else None
  }

  function DetailKey(name: string): Option<Key> {
    if name == "sort" then Some(SortKey)
    else if name == "no" then Some(NoKey)
    else if name == "label" then Some(LabelKey)
    else if name == "milestone" then Some(MilestoneKey)
    else if name == "fork" then Some(ForkKey)
    else if name == "archived" then Some(ArchivedKey)
    else None
  }

  function DateKey(name: string): Option<Key> {
    if name == "created" then Some(CreatedKey)
    else if name == "updated" then Some(UpdatedKey)
    else if name == "closed" then Some(ClosedKey)
    else if name == "merged" then Some(MergedKey)
    else None
  }

  /** The key a qualifier name stands for; names are compared after lower-casing. */
  function KeyNamed(name: string): Option<Key> {
    if WordKey(name).Some? then WordKey(name)
    else if PersonKey(name).Some? then PersonKey(name)
    else if PlaceKey(name).Some? then PlaceKey(name)
    else if DetailKey(name).Some? then DetailKey(name)
    else DateKey(name)
  }

  /** The words that `is:` and its narrower forms take. */
  datatype Word =
    | OpenWord | ClosedWord | IssueWord | PrWord | MergedWord | UnmergedWord | LockedWord | UnlockedWord
    | PublicWord | PrivateWord | ForkWord | ArchivedWord

  function WordNamed(value: string): Option<Word> {
    if value == "open" then Some(OpenWord)
    else if value == "closed" then Some(ClosedWord)
    else if value == "issue" then Some(IssueWord)
    else if value == "pr" || value == "pull-request" || value == "pull_request" then Some(PrWord)
    else if value == "merged" then Some(MergedWord)
    else if value == "unmerged" then Some(UnmergedWord)
    else if value == "locked" then Some(LockedWord)
    else if value == "unlocked" then Some(UnlockedWord)
    else if value == "public" then Some(PublicWord)
    else if value == "private" then Some(PrivateWord)
    else if value == "fork" then Some(ForkWord)
    else if value == "archived" then Some(ArchivedWord)
    else None
  }

  function NormalizeSort(raw: string): Option<string> {
    var value := ToLower(TrimSpace(raw));
    if value == "comments" then Some("comments-desc")
    else if value == "created" then Some("created-desc")
    else if value == "updated" then Some("updated-desc")
    else if value == "relevance" then Some("relevance-desc")
    else if value in {"comments-asc", "comments-desc", "created-asc", "created-desc",
                      "updated-asc", "updated-desc", "relevance-asc", "relevance-desc"} then Some(value)
    else None
  }

  function ParseBool(raw: string): Option<bool> {
    var value := ToLower(TrimSpace(raw));
    if value in {"true", "yes", "1", "only"} then Some(true)
    else if value in {"false", "no", "0"} then Some(false)
    else None
  }

  function SetKind(f: Filters, word: Word): Option<Filters> {
    match word
    case IssueWord => Some(f.(kind := "issue"))
    case PrWord => Some(f.(kind := "pr"))
    case _ => None
  }

  function SetState(f: Filters, word: Word): Option<Filters> {
    match word
    case OpenWord => Some(f.(state := "open"))
    case ClosedWord => Some(f.(state := "closed"))
    case _ => None
  }

  function SetVisibility(f: Filters, word: Word): Option<Filters> {
    match word
    case PublicWord => Some(f.(visibility := "public"))
    case PrivateWord => Some(f.(visibility := "private"))
    case _ => None
  }

  function SetIs(f: Filters, word: Word): Option<Filters> {
    match word
    case OpenWord | ClosedWord => SetState(f, word)
    case IssueWord | PrWord => SetKind(f, word)
    case MergedWord => Some(f.(mergedState := "merged"))
    case UnmergedWord => Some(f.(mergedState := "unmerged"))
    case LockedWord => Some(f.(locked := Some(true)))
    case UnlockedWord => Some(f.(locked := Some(false)))
    case PublicWord | PrivateWord => SetVisibility(f, word)
    case ForkWord => Some(f.(fork := Some(true)))
    case ArchivedWord => Some(f.(archived := Some(true)))
  }

  function SetWord(f: Filters, key: Key, val: string): Option<Filters> {
    var word := WordNamed(ToLower(val));
    if word.None? then None
    else
      match key
      case IsKey => SetIs(f, word.value)
      case TypeKey => SetKind(f, word.value)
      case StateKey => SetState(f, word.value)
      case _ => SetVisibility(f, word.value)
  }

  function SetDate(f: Filters, key: Key, val: string): Option<Filters> {
    var range := ParseDateRange(val);
    if range.None? then None
    else
      match key
      case CreatedKey => Some(f.(created := range))
      case UpdatedKey => Some(f.(updated := range))
      case ClosedKey => Some(f.(closed := range))
      case _ => Some(f.(merged := range))
  }

  function SetPerson(f: Filters, key: Key, val: string): Option<Filters> {
    match key
    case AuthorKey => Some(f.(author := val))
    case AssigneeKey => if val == "*" then Some(f.(assigneeAny := true)) else Some(f.(assignee := val))
    case CommenterKey => Some(f.(commenter := val))
    case MentionsKey => Some(f.(mention := val))
    case InvolvesKey => Some(f.(involves := f.involves + [val]))
    case _ => Some(f.(reviewRequested := val))
  }

  function SetPlace(f: Filters, key: Key, val: string): Option<Filters> {
    match key
    case RepoKey =>
      var i := IndexByte(val, '/');
      if 0 < i < |val| - 1 then Some(f.(repo := Some(RepoName(val[..i], val[i + 1..])))) else None
    case LanguageKey => Some(f.(language := val))
    case TopicKey => Some(f.(topics := f.topics + [val]))
    case PathKey => Some(f.(path := val))
    case ExtensionKey => Some(f.(extension := TrimPrefix(val, ".")))
    case _ => Some(f.(owner := val))
  }

  function SetDetail(f: Filters, key: Key, val: string): Option<Filters> {
    match key
    case SortKey => if NormalizeSort(val).None? then None else Some(f.(sort := NormalizeSort(val).value))
    case NoKey =>
      if ToLower(val) in {"label", "milestone", "assignee", "project"}
      then Some(f.(missing := f.missing + [ToLower(val)])) else None
    case LabelKey => Some(f.(labels := f.labels + [val]))
    case MilestoneKey => Some(f.(milestone := val))
    case ForkKey => if ParseBool(val).None? then None else Some(f.(fork := ParseBool(val)))
    case _ => if ParseBool(val).None? then None else Some(f.(archived := ParseBool(val)))
  }

  /** The effect of one positive qualifier; None when its value is rejected. */
  function SetField(f: Filters, key: Key, val: string): Option<Filters> {
    match key
    case IsKey | TypeKey | StateKey | VisibilityKey => SetWord(f, key, val)
    case AuthorKey | AssigneeKey | CommenterKey | MentionsKey | InvolvesKey | ReviewRequestedKey =>
      SetPerson(f, key, val)
    case RepoKey | UserKey | OrgKey | LanguageKey | TopicKey | PathKey | ExtensionKey => SetPlace(f, key, val)
    case SortKey | NoKey | LabelKey | MilestoneKey | ForkKey | ArchivedKey => SetDetail(f, key, val)
    case CreatedKey | UpdatedKey | ClosedKey | MergedKey => SetDate(f, key, val)
  }

  function SetFilter(f: Filters, key: string, val: string): Option<Filters> {
    if KeyNamed(key).None? then None else SetField(f, KeyNamed(key).value, val)
  }

  /** Record a qualifier on the query. The flag tells whether it was recognized. */
  function ApplyQualifier(q: ParsedQuery, key: string, val: string, negated: bool): (ParsedQuery, bool) {
    if KeyNamed(key).None? then (q, false)
    else if negated then (q.(qualifiers := q.qualifiers + [Qualifier(key, val, true)]), true)
    else
      var f := SetFilter(q.filters, key, val);
      if f.None? then (q, false)
      else (q.(filters := f.value, qualifiers := q.qualifiers + [Qualifier(key, val, false)]), true)
  }

  /** The query under construction, and the free text collected so far. */
  datatype Partial = Partial(q: ParsedQuery, freeText: seq<string>)

  function AddTerm(p: Partial, token: Token): Partial {
    var term := Term(token.value, token.quoted, token.negated);
    if token.negated then p.(q := p.q.(excluded := p.q.excluded + [term]))
    else
      var q := p.q.(terms := p.q.terms + [term]);
      if token.quoted && q.phrase == "" then Partial(q.(phrase := token.value), p.freeText)
      else Partial(q, p.freeText + [token.value])
  }

  function AddToken(p: Partial, token: Token): Partial {
    var split := SplitQualifier(token.value);
    if split.None? then AddTerm(p, token) else
    var (q, ok) := ApplyQualifier(p.q, split.value.0, split.value.1, token.negated);
    if ok then p.(q := q) else AddTerm(p, token)
  }

  function AddTokens(tokens: seq<Token>): Partial {
    if tokens == [] then Partial(BLANK_QUERY, []) else
    AddToken(AddTokens(tokens[..|tokens| - 1]), tokens[|tokens| - 1])
  }

  function Join(parts: seq<string>): string {
    if parts == [] then "" else if |parts| == 1 then parts[0] else parts[0] + " " + Join(parts[1..])
  }

  function Cut(raw: string): string {
    if |raw| > MAX_QUERY_BYTES then raw[..MAX_QUERY_BYTES] else raw
  }

  function Parse(raw: string): ParsedQuery {
    var p := AddTokens(Scan(Cut(raw)));
    p.q.(text := TrimSpace(Join(p.freeText)))
  }

  method ParseQuery(raw: string) returns (q: ParsedQuery)
    ensures q == Parse(raw)
  {
    hide Scan, AddTerm, ApplyQualifier, SplitQualifier;
    q := BLANK_QUERY;
    if raw == "" {
      NothingLeft(raw);
      return;
    }
    var tokens := ScanQueryTokens(Cut(raw));
    var freeText: seq<string> := [];
    for k := 0 to |tokens|
      invariant Partial(q, freeText) == AddTokens(tokens[..k])
    {
      assert tokens[..k + 1][..k] == tokens[..k];
      var split := SplitQualifier(tokens[k].value);
      var ok := false;
      if split.Some? {
        q, ok := ApplyQualifierTo(q, split.value.0, split.value.1, tokens[k].negated);
      }
      if !ok {
        var p := AddTerm(Partial(q, freeText), tokens[k]);
        q, freeText := p.q, p.freeText;
      }
    }
    assert tokens[..|tokens|] == tokens;
    q := q.(text := TrimSpace(Join(freeText)));
  }

  /** The in-place form: a rejected qualifier leaves the query as it was. */
  method ApplyQualifierTo(q: ParsedQuery, key: string, val: string, negated: bool) returns (out: ParsedQuery, ok: bool)
    ensures (out, ok) == ApplyQualifier(q, key, val, negated)
    ensures !ok ==> out == q
  {
    hide SetFilter, KeyNamed;
    out, ok := q, false;
    if KeyNamed(key).None? {
      return;
    }
    if negated {
      out := out.(qualifiers := out.qualifiers + [Qualifier(key, val, true)]);
      return out, true;
    }
    var f := SetFilter(out.filters, key, val);
    if f.None? {
      return;
    }
    out := out.(filters := f.value);
    out := out.(qualifiers := out.qualifiers + [Qualifier(key, val, false)]);
    ok := true;
  }

  // ----- conservation: every token lands in exactly one list

  /** Whether a positive qualifier is accepted does not depend on the query built so far. */
  lemma AcceptanceIsStateless(f: Filters, g: Filters, key: string, val: string)
    ensures SetFilter(f, key, val).Some? == SetFilter(g, key, val).Some?
  {
    hide ToLower, TrimSpace, ParseDateRange, NormalizeSort, ParseBool, KeyNamed, WordNamed, IndexByte;
  }

  /** The qualifier a token stands for, if it is one. */
  function AsQualifier(token: Token): Option<Qualifier> {
    var split := SplitQualifier(token.value);
    if split.None? || KeyNamed(split.value.0).None? then None
    else if !token.negated && SetFilter(NO_FILTERS, split.value.0, split.value.1).None? then None
    else Some(Qualifier(split.value.0, split.value.1, token.negated))
  }

  function QualifiersOf(tokens: seq<Token>): seq<Qualifier> {
    if tokens == [] then [] else
    var last := AsQualifier(tokens[|tokens| - 1]);
    QualifiersOf(tokens[..|tokens| - 1]) + (if last.Some? then [last.value] else [])
  }

  /** The tokens that are not qualifiers, as terms, with the given sign, in order. */
  function TermsOf(tokens: seq<Token>, negated: bool): seq<Term> {
    if tokens == [] then [] else
    var last := tokens[|tokens| - 1];
    TermsOf(tokens[..|tokens| - 1], negated)
    + (if AsQualifier(last).None? && last.negated == negated
       then [Term(last.value, last.quoted, last.negated)] else [])
  }

  lemma OneTokenOneList(p: Partial, token: Token)
    ensures var n := AddToken(p, token).q;
            var quals := if AsQualifier(token).Some? then [AsQualifier(token).value] else [];
            var term := if AsQualifier(token).None? then [Term(token.value, token.quoted, token.negated)] else [];
            n.qualifiers == p.q.qualifiers + quals
            && n.terms == p.q.terms + (if token.negated then [] else term)
            && n.excluded == p.q.excluded + (if token.negated then term else [])
  {
    hide SetFilter, KeyNamed;
    var split := SplitQualifier(token.value);
    if split.Some? {
      AcceptanceIsStateless(p.q.filters, NO_FILTERS, split.value.0, split.value.1);
    }
  }

  /** The three lists of a parse are the scanned tokens, each in exactly one list, order kept. */
  lemma {:induction false} Conservation(tokens: seq<Token>)
    ensures var q := AddTokens(tokens).q;
            q.qualifiers == QualifiersOf(tokens) && q.terms == TermsOf(tokens, false)
            && q.excluded == TermsOf(tokens, true)
    ensures var q := AddTokens(tokens).q; |q.qualifiers| + |q.terms| + |q.excluded| == |tokens|
  {
    hide AddToken, AsQualifier;
    if tokens != [] {
      Conservation(tokens[..|tokens| - 1]);
      OneTokenOneList(AddTokens(tokens[..|tokens| - 1]), tokens[|tokens| - 1]);
    }
  }

  // ----- replay: the recorded positive qualifiers carry every filter

  /** Apply the positive qualifiers of a list, in order, to an empty set of filters. */
  function Replay(qualifiers: seq<Qualifier>): Option<Filters> {
    if qualifiers == [] then Some(NO_FILTERS) else
    var last := qualifiers[|qualifiers| - 1];
    var before := Replay(qualifiers[..|qualifiers| - 1]);
    if before.None? then None
    else if last.negated then before
    else SetFilter(before.value, last.key, last.value)
  }

  /** One token either leaves qualifiers and filters alone, or appends one qualifier whose effect
      on the filters is the interpreter's. */
  lemma TokenReplays(p: Partial, token: Token)
    ensures var n := AddToken(p, token).q;
            if n.qualifiers == p.q.qualifiers then n.filters == p.q.filters
            else
              n.qualifiers != [] && n.qualifiers[..|n.qualifiers| - 1] == p.q.qualifiers
              && (var q := n.qualifiers[|n.qualifiers| - 1];
                  Some(n.filters) == if q.negated then Some(p.q.filters) else SetFilter(p.q.filters, q.key, q.value))
  {
    hide SetFilter, SplitQualifier, KeyNamed;
    assert forall q: Qualifier :: (p.q.qualifiers + [q])[..|p.q.qualifiers|] == p.q.qualifiers;
  }

  lemma {:induction false} ReplayRebuildsFilters(tokens: seq<Token>)
    ensures var q := AddTokens(tokens).q; Replay(q.qualifiers) == Some(q.filters)
  {
    hide SetFilter, AddToken;
    if tokens != [] {
      var before := AddTokens(tokens[..|tokens| - 1]);
      ReplayRebuildsFilters(tokens[..|tokens| - 1]);
      TokenReplays(before, tokens[|tokens| - 1]);
    }
  }

  // ----- what counts as content

  predicate HasContent(p: ParsedQuery) {
    var f := p.filters;
    p.text != "" || p.phrase != "" || f.repo.Some? || f.state != "" || f.kind != "" || f.author != ""
    || f.mergedState != "" || f.locked.Some? || f.assignee != "" || f.assigneeAny || f.commenter != ""
    || f.mention != "" || |f.involves| > 0 || f.reviewRequested != "" || f.sort != "" || |f.missing| > 0
    || f.owner != "" || |f.labels| > 0 || f.milestone != "" || f.language != "" || f.visibility != ""
    || f.fork.Some? || f.archived.Some? || |f.topics| > 0 || f.path != "" || f.extension != ""
    || f.created.Some? || f.updated.Some? || f.closed.Some? || f.merged.Some?
    || |p.excluded| > 0 || |p.qualifiers| > 0
  }

  /** A positive term shows up as the phrase or as the first piece of free text. */
  lemma {:induction false} TermsLeaveText(tokens: seq<Token>)
    requires forall t | t in tokens :: t.value != "" && SpaceAtFront(t.value) == 0
    ensures var p := AddTokens(tokens);
            (p.q.terms != [] ==> p.q.phrase != "" || p.freeText != [])
            && (p.freeText != [] ==> p.freeText[0] != "" && SpaceAtFront(p.freeText[0]) == 0)
  {
    hide SplitQualifier, ApplyQualifier, SpaceAtFront;
    if tokens != [] {
      TermsLeaveText(tokens[..|tokens| - 1]);
      var before := AddTokens(tokens[..|tokens| - 1]);
      var last := tokens[|tokens| - 1];
      var split := SplitQualifier(last.value);
      if split.Some? {
        QualifierKeepsText(before.q, split.value.0, split.value.1, last.negated);
      }
    }
  }

  lemma QualifierKeepsText(q: ParsedQuery, key: string, val: string, negated: bool)
    ensures var n := ApplyQualifier(q, key, val, negated).0; n.terms == q.terms && n.phrase == q.phrase
  {
    hide SetFilter;
  }

  lemma JoinStartsVisible(parts: seq<string>)
    requires parts != [] && parts[0] != "" && SpaceAtFront(parts[0]) == 0
    ensures Join(parts) != "" && SpaceAtFront(Join(parts)) == 0
  {}

  lemma VisibleTokensGiveContent(tokens: seq<Token>)
    requires tokens != [] && forall t | t in tokens :: t.value != "" && SpaceAtFront(t.value) == 0
    ensures var p := AddTokens(tokens); HasContent(p.q.(text := TrimSpace(Join(p.freeText))))
  {
    hide AddTokens, Join, SpaceAtFront, TrimSpace, QualifiersOf, TermsOf;
    var p := AddTokens(tokens);
    Conservation(tokens);
    TermsLeaveText(tokens);
    if p.freeText != [] {
      JoinStartsVisible(p.freeText);
      TrimKeepsVisible(Join(p.freeText));
    }
  }

  lemma NoTokensNoContent()
    ensures var p := AddTokens([]); !HasContent(p.q.(text := TrimSpace(Join(p.freeText))))
  {}

  /** A query has content exactly when scanning its first 256 bytes finds a token. */
  lemma HasContentIffTokens(raw: string)
    ensures HasContent(Parse(raw)) <==> Scan(Cut(raw)) != []
  {
    hide Scan, AddTokens, Join, SpaceAtFront, TrimSpace, HasContent;
    var tokens := Scan(Cut(raw));
    if tokens == [] {
      NoTokensNoContent();
    } else {
      forall t | t in tokens ensures t.value != "" && SpaceAtFront(t.value) == 0 {
        var k :| 0 <= k < |tokens| && tokens[k] == t;
        TokensAreVisible(Cut(raw), k);
      }
      VisibleTokensGiveContent(tokens);
    }
  }

  lemma TrimKeepsVisible(s: string)
    requires s != "" && SpaceAtFront(s) == 0
    ensures TrimSpace(s) != ""
  {
    TrimRightKeepsText(s);
  }
}
