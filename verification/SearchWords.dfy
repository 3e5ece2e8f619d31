/** Searches for plain words and for a quoted phrase, from the text typed to the rows selected. */
module SearchWords {
  import opened Prelude
  import opened SearchText
  import opened SearchScanner
  import opened SearchParse
  import opened SearchTerms
  import opened SearchSql
  import opened SearchPages
  import opened SearchEndToEnd

  /** Visible ASCII without quotes and colons that does not start with a minus. */
  predicate PlainWord(s: string) {
    s != "" && Plain(s) && ':' !in s && s[0] != '-'
  }

  predicate PlainWords(words: seq<string>) {
    forall w | w in words :: PlainWord(w)
  }

  function WordTokens(words: seq<string>): seq<Token> {
    seq(|words|, k requires 0 <= k < |words| => Token(words[k], false, false))
  }

  function WordTerms(words: seq<string>): seq<Term> {
    seq(|words|, k requires 0 <= k < |words| => Term(words[k], false, false))
  }

  // ----- scanning words

  lemma {:induction false} PlainBodyThen(s: string, rest: string)
    requires Plain(s) && (rest == "" || IsSearchSpace(rest[0]))
    ensures Body(s + rest, false, false) == Scanned(s, false, rest)
  {
    if s == "" {
      assert s + rest == rest;
    } else {
      PlainBodyThen(s[1..], rest);
      assert (s + rest)[1..] == s[1..] + rest;
      assert [s[0]] + s[1..] == s;
    }
  }

  lemma WordScans(s: string, rest: string)
    requires PlainWord(s) && (rest == "" || IsSearchSpace(rest[0]))
    ensures Scan(s + rest) == [Token(s, false, false)] + Scan(rest)
  {
    PlainBodyThen(s, rest);
    PlainIsTrimmed(s);
    hide Body, TrimSpace, Scan;
    assert (s + rest)[0] == s[0];
    ScanToken(s + rest, s + rest);
  }

  /** The words as typed: each two apart by a space, a tab or a line break. */
  function Typed(words: seq<string>, gaps: seq<char>): string
    requires |gaps| == |words|
  {
    if words == [] then "" else if |words| == 1 then words[0]
    else words[0] + [gaps[0]] + Typed(words[1..], gaps[1..])
  }

  predicate AreGaps(gaps: seq<char>) {
    forall k | 0 <= k < |gaps| :: gaps[k] == ' ' || gaps[k] == '\t' || gaps[k] == '\n' || gaps[k] == '\r'
  }

  lemma GapBeforeTokens(gap: char, s: string)
    requires AreGaps([gap])
    ensures Scan([gap] + s) == Scan(s) && IsSearchSpace(gap)
  {
    assert [gap][0] == gap && ([gap] + s)[1..] == s;
  }

  lemma {:induction false} WordsScan(words: seq<string>, gaps: seq<char>)
    requires PlainWords(words) && |gaps| == |words| && AreGaps(gaps)
    ensures Scan(Typed(words, gaps)) == WordTokens(words)
  {
    hide Scan;
    NothingLeft("");
    if words != [] {
      var first, rest := words[0], words[1..];
      assert first in words && forall w | w in rest :: w in words;
      assert WordTokens(words) == [Token(first, false, false)] + WordTokens(rest);
      if rest == [] {
        WordScans(first, "");
        assert first + "" == first;
      } else {
        var tail := Typed(rest, gaps[1..]);
        WordsScan(rest, gaps[1..]);
        GapBeforeTokens(gaps[0], tail);
        WordScans(first, [gaps[0]] + tail);
        assert first + [gaps[0]] + tail == first + ([gaps[0]] + tail);
      }
    }
  }

  // ----- parsing them

  lemma NoColonNoQualifier(token: Token)
    requires ':' !in token.value
    ensures AsQualifier(token).None?
  {
    hide ToLower, TrimSpace;
    assert IndexByte(token.value, ':') == |token.value|;
  }

  lemma {:induction false} WordsAreTerms(words: seq<string>)
    requires PlainWords(words)
    ensures var tokens := WordTokens(words);
      TermsOf(tokens, false) == WordTerms(words) && TermsOf(tokens, true) == [] && QualifiersOf(tokens) == []
  {
    hide AsQualifier;
    if words != [] {
      var init, last := words[..|words| - 1], words[|words| - 1];
      assert last in words && forall w | w in init :: w in words;
      WordsAreTerms(init);
      NoColonNoQualifier(Token(last, false, false));
      assert WordTokens(words)[..|init|] == WordTokens(init);
    }
  }

  lemma WordValues(words: seq<string>)
    ensures Values(WordTerms(words)) == words && FirstPhrase(WordTerms(words)) == |words|
  {
    FirstPhraseIs(WordTerms(words), |words|);
  }

  lemma NothingReplayed(q: ParsedQuery)
    requires q.qualifiers == [] && Replay(q.qualifiers) == Some(q.filters)
    ensures q.filters == NO_FILTERS
  {
  }

  /** Plain words are searched for with a space between each two, however they are set apart. */
  lemma WordsParse(words: seq<string>, gaps: seq<char>)
    requires PlainWords(words) && |gaps| == |words| && AreGaps(gaps) && |Typed(words, gaps)| <= 256
    ensures Parse(Typed(words, gaps)) == BLANK_QUERY.(text := Spaced(words), terms := WordTerms(words))
    ensures Scan(Typed(words, gaps)) == WordTokens(words)
  {
    var raw, tokens := Typed(words, gaps), WordTokens(words);
    assert Cut(raw) == raw;
    hide Scan, AddTokens, Join, Spaced, TermsOf, QualifiersOf, Replay, WordTerms, WordTokens, FirstPhrase, Values, Typed, Cut;
    WordsScan(words, gaps);
    WordsAreTerms(words);
    WordValues(words);
    ParsedText(raw);
    PlainQueryIs(tokens);
  }

  /** Tokens without qualifiers set no filter. */
  lemma PlainQueryIs(tokens: seq<Token>)
    requires QualifiersOf(tokens) == []
    ensures var q := AddTokens(tokens).q;
      q.filters == NO_FILTERS && q.qualifiers == [] && q.terms == TermsOf(tokens, false) && q.excluded == TermsOf(tokens, true)
  {
    Conservation(tokens);
    ReplayRebuildsFilters(tokens);
    hide AddTokens, TermsOf, QualifiersOf, Replay;
    NothingReplayed(AddTokens(tokens).q);
  }

  // ----- searching for them

  /** With no filter set, the rows meant are the visible ones that match the full text. */
  lemma NoFiltersMean(w: World, row: Row, actor: Actor, q: ParsedQuery)
    requires q.filters == NO_FILTERS
    ensures IssueMeaning(w, row, actor, q, "") <==> FullTextMeaning(w, row, q) && VisibleTo(actor, row)
  {
    hide FullTextMeaning, VisibleTo;
  }

  lemma NoFiltersDrive(q: ParsedQuery)
    requires q.filters == NO_FILTERS && q.qualifiers == [] && q.excluded == []
    ensures HasContent(q) <==> q.text != "" || q.phrase != ""
    ensures EffectiveKind("", q.filters) == Some("")
    ensures Undriven(q, "") <==> q.text == "" && q.phrase == ""
  {
  }

  lemma {:induction false} SpacedIsEmpty(words: seq<string>)
    requires PlainWords(words)
    ensures Spaced(words) == "" <==> words == []
  {
    if |words| == 1 {
      assert words[0] in words;
    }
  }

  /** A text that parses to a full-text payload and nothing else selects the visible rows that match it. */
  method SearchOnlyText(ghost w: World, actor: Actor, raw: string, ghost ctor: Ctor, ghost text: string, limit: int,
                        offset: int)
    returns (r: Compiled)
    requires var q := Parse(raw);
      FullText(q) == Some((ctor, text)) && q.filters == NO_FILTERS && q.qualifiers == [] && q.excluded == []
    ensures r.TooShort? <==> !HasIndexableWord(text)
    ensures r.TooShort? || r.Run?
    ensures r.Run? ==> WellBound(r.statement, limit, offset)
    ensures r.Run? ==> forall row: Row ::
      Selects(w, r.statement, row, w.matches(ctor, row.document, text) && VisibleTo(actor, row))
  {
    NoFiltersDrive(Parse(raw));
    HasContentIffTokens(raw);
    hide Parse, Scan, Cut, IssueMeaning, Selects, WellBound, VisibleTo, HasContent, EffectiveKind, Undriven, HasIndexableWord;
    r := SearchRaw(w, actor, raw, "", limit, offset);
    forall row: Row ensures IssueMeaning(w, row, actor, Parse(raw), "") <==>
      w.matches(ctor, row.document, text) && VisibleTo(actor, row)
    {
      NoFiltersMean(w, row, actor, Parse(raw));
    }
  }

  predicate LetterOrDigit(c: char) {
    'a' <= c <= 'z' || 'A' <= c <= 'Z' || '0' <= c <= '9'
  }

  lemma IndexableIff(text: string)
    ensures HasIndexableWord(text) <==> exists i :: 0 <= i < |text| - 1 && LetterOrDigit(text[i]) && LetterOrDigit(text[i + 1])
  {
  }

  /** A search for plain words selects, on page and count, exactly the visible rows that match all of the
      words; it is refused exactly when there are no two letters or digits in a row. */
  method SearchForWords(ghost w: World, actor: Actor, words: seq<string>, gaps: seq<char>, limit: int, offset: int)
    returns (r: Compiled)
    requires words != [] && PlainWords(words) && |gaps| == |words| && AreGaps(gaps) && |Typed(words, gaps)| <= 256
    ensures var text := Spaced(words);
      r.TooShort? <==> forall i | 0 <= i < |text| - 1 :: !(LetterOrDigit(text[i]) && LetterOrDigit(text[i + 1]))
    ensures r.TooShort? || r.Run?
    ensures r.Run? ==> WellBound(r.statement, limit, offset)
    ensures r.Run? ==> forall row: Row ::
      Selects(w, r.statement, row, w.matches(PlainQuery, row.document, Spaced(words)) && VisibleTo(actor, row))
  {
    WordsParse(words, gaps);
    SpacedIsEmpty(words);
    IndexableIff(Spaced(words));
    hide Parse, Spaced, Typed, Selects, WellBound, VisibleTo, HasIndexableWord, LetterOrDigit;
    r := SearchOnlyText(w, actor, Typed(words, gaps), PlainQuery, Spaced(words), limit, offset);
  }

  // ----- words and quoted phrases together

  /** Text without qualifiers means the visible rows that match its first quoted term as a phrase, if it has one,
      and otherwise all its other positive terms. */
  lemma FreeTextMeans(w: World, row: Row, actor: Actor, raw: string)
    requires QualifiersOf(Scan(Cut(raw))) == []
    ensures var terms := TermsOf(Scan(Cut(raw)), false);
      IssueMeaning(w, row, actor, Parse(raw), "") <==>
        && VisibleTo(actor, row)
        && (FirstPhrase(terms) < |terms| ==> w.matches(PhraseQuery, row.document, terms[FirstPhrase(terms)].value))
        && (FirstPhrase(terms) == |terms| > 0 ==> w.matches(PlainQuery, row.document, Spaced(Values(terms))))
  {
    var tokens := Scan(Cut(raw));
    var terms := TermsOf(tokens, false);
    ParsedText(raw);
    TermsAreVisible(raw);
    PlainQueryIs(tokens);
    WholeText(terms);
    hide Scan, Cut, AddTokens, TermsOf, QualifiersOf, FirstPhrase, Values, Spaced, IssueMeaning, VisibleTo, Join, TrimSpace;
    NoFiltersMean(w, row, actor, Parse(raw));
    PayloadMeans(w, row, Parse(raw));
  }

  lemma TermsAreVisible(raw: string)
    ensures forall t | t in TermsOf(Scan(Cut(raw)), false) :: t.value != "" && TrimSpace(t.value) == t.value
  {
    ScannedAreTrimmed(Cut(raw));
    hide Scan, TrimSpace, Cut;
    TermsAreTokens(Scan(Cut(raw)));
  }

  /** The text of visible terms is blank exactly when there are none. */
  lemma WholeText(terms: seq<Term>)
    requires forall t | t in terms :: t.value != "" && TrimSpace(t.value) == t.value
    ensures FirstPhrase(terms) == |terms| ==> WithoutPhrase(terms) == terms
    ensures FirstPhrase(terms) < |terms| ==> terms[FirstPhrase(terms)] in terms
    ensures Spaced(Values(terms)) == "" <==> terms == []
  {
    if terms != [] {
      forall v | v in Values(terms) ensures v != "" && SpaceAtFront(v) == 0 && SpaceAtBack(v) == 0 {
        var k :| 0 <= k < |terms| && v == terms[k].value;
        assert terms[k] in terms;
        TrimmedHasNoSpace(v);
      }
      hide TrimSpace, SpaceAtFront, SpaceAtBack, Spaced, FirstPhrase;
      SpacedIsTrimmed(Values(terms));
    }
  }

  lemma PayloadMeans(w: World, row: Row, q: ParsedQuery)
    ensures FullTextMeaning(w, row, q) <==>
      && (q.phrase != "" ==> w.matches(PhraseQuery, row.document, q.phrase))
      && (q.phrase == "" && q.text != "" ==> w.matches(PlainQuery, row.document, q.text))
  {
  }

  // ----- a quoted phrase

  /** Text without a colon, in quotes and with quotes and backslashes escaped, is searched for as a phrase. */
  lemma PhraseParses(value: string)
    requires value != "" && TrimSpace(value) == value && ':' !in value && |"\"" + Escape(value) + "\""| <= 256
    ensures var raw := "\"" + Escape(value) + "\"";
      Parse(raw) == BLANK_QUERY.(phrase := value, terms := [Term(value, true, false)]) && Scan(Cut(raw)) != []
  {
    var token, raw := Token(value, true, false), "\"" + Escape(value) + "\"";
    PhraseScans(value);
    NoColonNoQualifier(token);
    PhraseIsAllThereIs(token, value);
    hide Scan, Cut, AddTokens, TrimSpace, Replay, Escape, AsQualifier, FirstPhrase, TermsOf, QualifiersOf, Spaced, Values,
         Without, Join;
    ParsedText(raw);
    FirstPhraseIs([Term(value, true, false)], 0);
    PlainQueryIs([token]);
  }

  lemma PhraseScans(value: string)
    requires value != "" && TrimSpace(value) == value && |"\"" + Escape(value) + "\""| <= 256
    ensures Scan(Cut("\"" + Escape(value) + "\"")) == [Token(value, true, false)]
  {
    var token, raw := Token(value, true, false), "\"" + Escape(value) + "\"";
    assert Cut(raw) == raw;
    hide Scan, TrimSpace, Escape, Cut;
    assert "" + raw == raw && PrintAll([token]) == raw;
    RoundTrip([token]);
  }

  lemma PhraseIsAllThereIs(token: Token, value: string)
    requires token == Token(value, true, false) && AsQualifier(token).None?
    ensures var terms := [Term(value, true, false)];
      && TermsOf([token], false) == terms && TermsOf([token], true) == [] && QualifiersOf([token]) == []
      && Spaced(Values(Without(terms, 0))) == ""
  {
    hide AsQualifier;
    assert [token][..0] == [];
  }

  method SearchForPhrase(ghost w: World, actor: Actor, value: string, limit: int, offset: int) returns (r: Compiled)
    requires value != "" && TrimSpace(value) == value && ':' !in value && |"\"" + Escape(value) + "\""| <= 256
    ensures r.TooShort? <==> !HasIndexableWord(value)
    ensures r.TooShort? || r.Run?
    ensures r.Run? ==> WellBound(r.statement, limit, offset)
    ensures r.Run? ==> forall row: Row ::
      Selects(w, r.statement, row, w.matches(PhraseQuery, row.document, value) && VisibleTo(actor, row))
  {
    PhraseParses(value);
    hide Parse, Scan, Cut, Escape, TrimSpace, Selects, WellBound, VisibleTo, HasIndexableWord;
    r := SearchOnlyText(w, actor, "\"" + Escape(value) + "\"", PhraseQuery, value, limit, offset);
  }

  // ----- the first 256 bytes, and keys in any case

  /** Only the first 256 bytes of a text count. */
  lemma OnlyFirst256(raw: string)
    requires |raw| > 256
    ensures Parse(raw) == Parse(raw[..256])
  {
    assert Cut(raw) == raw[..256] && Cut(raw[..256]) == raw[..256];
    hide Scan, AddTokens;
  }

  lemma {:induction false} LowerOfPlain(s: string)
    requires Plain(s)
    ensures Plain(ToLower(s)) && |ToLower(s)| == |s| && ToLower(ToLower(s)) == ToLower(s)
    ensures ':' in ToLower(s) <==> ':' in s
  {
    if s != "" {
      LowerOfPlain(s[1..]);
      var low := ToLower(s);
      assert low == [LowerChar(s[0])] + ToLower(s[1..]);
      assert low[1..] == ToLower(s[1..]);
      assert s == [s[0]] + s[1..];
    }
  }

  lemma PlainPairSplits(name: string, val: string)
    requires Plain(name) && name != "" && ':' !in name && Plain(val) && val != ""
    ensures SplitQualifier(name + ":" + val) == Some((ToLower(name), val))
  {
    var s := name + ":" + val;
    ColonAt(name, val);
    assert s[..|name|] == name && s[|name| + 1..] == val;
    PlainIsTrimmed(name);
    PlainIsTrimmed(val);
    LowerOfPlain(name);
    hide IndexByte, TrimSpace, ToLower;
  }

  /** A qualifier's key may be written in any case. */
  lemma KeysIgnoreCase(name: string, val: string)
    requires Plain(name) && name != "" && ':' !in name && Plain(val) && val != ""
    ensures SplitQualifier(name + ":" + val) == SplitQualifier(ToLower(name) + ":" + val)
    ensures SplitQualifier(name + ":" + val).Some?
  {
    LowerOfPlain(name);
    PlainPairSplits(name, val);
    PlainPairSplits(ToLower(name), val);
  }

  // ----- when nothing drives a search

  /** An issue search is driven by nothing exactly when there is no full text and no kind, and every filter but
      sort, kind, language, path and extension is unset. */
  lemma UndrivenIff(q: ParsedQuery, kind: string)
    ensures Undriven(q, kind) <==>
      && q.text == "" && q.phrase == "" && kind == ""
      && q.filters.(sort := "", kind := "", language := "", path := "", extension := "") == NO_FILTERS
  {
  }

  /** A repository search exactly when only filters that speak of issues are set. */
  lemma RepoUndrivenIff(q: ParsedQuery)
    ensures !RepoSearchDriven(q) <==>
      && q.text == "" && q.phrase == ""
      && q.filters == NO_FILTERS.(
           state := q.filters.state, kind := q.filters.kind, mergedState := q.filters.mergedState, locked := q.filters.locked,
           author := q.filters.author, assignee := q.filters.assignee, assigneeAny := q.filters.assigneeAny,
           commenter := q.filters.commenter, mention := q.filters.mention, involves := q.filters.involves,
           reviewRequested := q.filters.reviewRequested, missing := q.filters.missing, sort := q.filters.sort,
           labels := q.filters.labels, milestone := q.filters.milestone, path := q.filters.path,
           extension := q.filters.extension, closed := q.filters.closed, merged := q.filters.merged)
  {
  }

  // ----- the values of sort:, no:, fork: and archived:

  /** A sort column alone, or with -desc, sorts downwards, and with -asc upwards. */
  lemma SortValues(raw: string, column: string)
    requires column in {"comments", "created", "updated", "relevance"}
    ensures var low := ToLower(TrimSpace(raw));
      && (NormalizeSort(raw) == Some(column + "-desc") <==> low == column || low == column + "-desc")
      && (NormalizeSort(raw) == Some(column + "-asc") <==> low == column + "-asc")
  {
    hide ToLower, TrimSpace;
    assert "comments" + "-desc" == "comments-desc" && "comments" + "-asc" == "comments-asc";
    assert "created" + "-desc" == "created-desc" && "created" + "-asc" == "created-asc";
    assert "updated" + "-desc" == "updated-desc" && "updated" + "-asc" == "updated-asc";
    assert "relevance" + "-desc" == "relevance-desc" && "relevance" + "-asc" == "relevance-asc";
  }

  lemma BoolValues(raw: string)
    ensures var low := ToLower(TrimSpace(raw));
      && (ParseBool(raw) == Some(true) <==> low == "true" || low == "yes" || low == "1" || low == "only")
      && (ParseBool(raw) == Some(false) <==> low == "false" || low == "no" || low == "0")
  {
    hide ToLower, TrimSpace;
  }

  lemma MissingValues(f: Filters, val: string)
    ensures SetField(f, NoKey, val) ==
      if ToLower(val) == "label" || ToLower(val) == "milestone" || ToLower(val) == "assignee" || ToLower(val) == "project"
      then Some(f.(missing := f.missing + [ToLower(val)])) else None
  {
    hide ToLower;
  }

  // ----- the people of a filter

  /** A name, with or without @, stands for itself, except that `me`, in any case, stands for a signed-in actor
      and otherwise for nobody. */
  lemma PeopleNames(actor: Actor, name: string)
    requires Plain(name) && name != "" && name[0] != '@'
    ensures var me := name == "me" || name == "Me" || name == "mE" || name == "ME";
      && ResolveUser(actor, name) == ResolveUser(actor, "@" + name)
      && ResolveUser(actor, name) ==
           if !me then Some(name) else if actor.anonymous || actor.username == "" then None else Some(actor.username)
  {
    PlainIsTrimmed(name);
    assert ("@" + name)[1..] == name && "@" <= "@" + name;
    assert !("@" <= name);
    hide TrimSpace;
    MeInAnyCase(name);
  }

  lemma MeInAnyCase(name: string)
    ensures IsMe(name) <==> name == "me" || name == "Me" || name == "mE" || name == "ME"
  {
    if |name| == 2 {
      assert name == [name[0], name[1]];
    }
  }
}
