/** From the text a user types to the rows it selects: scanner, parser, dates and compiler together. */
module SearchEndToEnd {
  import opened Prelude
  import opened Clock
  import opened SearchText
  import opened SearchScanner
  import opened SearchDates
  import opened SearchParse
  import opened SearchFields
  import opened SearchSql
  import opened SearchPages

  /** The issue search on a raw text: it runs into an empty query exactly when nothing scans, and
      what it selects is what the parsed text means. */
  method SearchRaw(ghost w: World, actor: Actor, raw: string, kindFilter: string, limit: int, offset: int)
    returns (r: Compiled)
    requires IsKind(kindFilter)
    ensures r.EmptyQuery? <==> Scan(Cut(raw)) == []
    ensures r.Run? ==> WellBound(r.statement, limit, offset)
    ensures r.Run? ==> forall row :: Selects(w, r.statement, row, IssueMeaning(w, row, actor, Parse(raw), kindFilter))
    ensures var kind := EffectiveKind(kindFilter, Parse(raw).filters);
      (r.NoRows? <==> HasContent(Parse(raw)) && (kind.None? || Undriven(Parse(raw), kind.value)))
      && (r.TooShort? <==> HasContent(Parse(raw)) && kind.Some? && OnlyShortText(Parse(raw), kind.value))
  {
    hide Scan, AddTokens, HasContent, IssueMeaning, Selects, WellBound, EffectiveKind, Undriven, OnlyShortText;
    var q := ParseQuery(raw);
    ParsedKindsAreKinds(Scan(Cut(raw)));
    HasContentIffTokens(raw);
    r := SearchIssues(w, actor, q, kindFilter, limit, offset);
  }

  // ----- one plain word

  /** Visible ASCII without quotes. */
  predicate Plain(s: string) {
    forall i | 0 <= i < |s| :: '!' <= s[i] <= '~' && s[i] != '"'
  }

  lemma PlainIsTrimmed(s: string)
    requires Plain(s)
    ensures TrimSpace(s) == s
  {
  }

  lemma {:induction false} PlainBody(s: string)
    requires Plain(s)
    ensures Body(s, false, false) == Scanned(s, false, "")
  {
    if s != "" {
      PlainBody(s[1..]);
      assert [s[0]] + s[1..] == s;
    }
  }

  /** A plain word that is not negated is one token. */
  lemma PlainScan(s: string)
    requires Plain(s) && s != "" && s[0] != '-'
    ensures Scan(s) == [Token(s, false, false)]
  {
    PlainBody(s);
    PlainIsTrimmed(s);
    hide Body, TrimSpace;
    assert SkipSpaces(s) == s;
    NothingLeft("");
    assert Emit(s, false, false) + Scan("") == [Token(s, false, false)];
  }

  lemma {:induction false} ColonAt(name: string, val: string)
    requires ':' !in name
    ensures IndexByte(name + ":" + val, ':') == |name|
  {
    var s := name + ":" + val;
    if name != "" {
      ColonAt(name[1..], val);
      assert s[1..] == name[1..] + ":" + val;
    }
  }

  predicate LowerPlain(s: string) {
    forall i | 0 <= i < |s| :: 'a' <= s[i] <= 'z'
  }

  lemma {:induction false} LowerStays(s: string)
    requires LowerPlain(s)
    ensures ToLower(s) == s
  {
    if s != "" {
      LowerStays(s[1..]);
    }
  }

  lemma PlainSplits(name: string, val: string)
    requires LowerPlain(name) && name != "" && Plain(val) && val != ""
    ensures SplitQualifier(name + ":" + val) == Some((name, val))
  {
    var s := name + ":" + val;
    ColonAt(name, val);
    assert s[..|name|] == name && s[|name| + 1..] == val;
    assert Plain(name);
    PlainIsTrimmed(name);
    PlainIsTrimmed(val);
    LowerStays(name);
    hide IndexByte, TrimSpace, ToLower;
  }

  // ----- one positive qualifier on its own

  function OnlyFilter(name: string, val: string, f: Filters): ParsedQuery {
    BLANK_QUERY.(qualifiers := [Qualifier(name, val, false)], filters := f)
  }

  lemma NothingToJoin()
    ensures TrimSpace(Join([])) == ""
  {
  }

  lemma OneTokenParses(raw: string, token: Token, name: string, val: string, key: Key, f: Filters)
    requires !token.negated
    ensures
      (Scan(Cut(raw)) == [token] && SplitQualifier(token.value) == Some((name, val)) && KeyNamed(name) == Some(key)
       && SetField(NO_FILTERS, key, val) == Some(f))
      ==> Parse(raw) == OnlyFilter(name, val, f)
  {
    hide Scan, SplitQualifier, KeyNamed, SetField, Cut, TrimSpace;
    assert [token][..0] == [];
    assert AddTokens([]) == Partial(BLANK_QUERY, []);
    assert AddTokens([token]) == AddToken(AddTokens([]), token);
    assert [] + [Qualifier(name, val, false)] == [Qualifier(name, val, false)];
    NothingToJoin();
  }

  /** A lower-case name, a colon and a plain value scan and split as one qualifier. */
  lemma PlainQualifier(raw: string, name: string, val: string)
    requires LowerPlain(name) && name != "" && Plain(val) && val != "" && raw == name + ":" + val
    requires |raw| <= MAX_QUERY_BYTES
    ensures Scan(Cut(raw)) == [Token(raw, false, false)] && SplitQualifier(raw) == Some((name, val))
  {
    assert Plain(raw) && raw[0] == name[0];
    hide Scan, SplitQualifier;
    PlainScan(raw);
    PlainSplits(name, val);
  }

  // ----- created:

  function CreatedText(val: string): string {
    NameOf(CreatedKey) + ":" + val
  }

  function CreatedFilter(val: string): Filters {
    NO_FILTERS.(created := ParseDateRange(val))
  }

  function CreatedOnly(val: string): ParsedQuery {
    OnlyFilter(NameOf(CreatedKey), val, CreatedFilter(val))
  }

  /** A value the scanner takes as it is, short enough not to be cut, that reads as a comparison. */
  predicate DateText(val: string) {
    val != "" && Plain(val) && |val| <= 240 && Read(val).Some?
  }

  lemma CreatedIsLower()
    ensures LowerPlain(NameOf(CreatedKey)) && |NameOf(CreatedKey)| == 7
  {
  }

  lemma CreatedSets(val: string)
    ensures ParseDateRange(val).Some? ==> SetField(NO_FILTERS, CreatedKey, val) == Some(CreatedFilter(val))
  {
    hide ParseDateRange;
  }

  lemma CreatedParses(val: string)
    requires DateText(val)
    ensures ParseDateRange(val).Some? && Scan(Cut(CreatedText(val))) != []
    ensures Parse(CreatedText(val)) == CreatedOnly(val)
  {
    hide Read, ParseDateRange, Scan, SplitQualifier, KeyNamed, Parse, Cut, OnlyFilter, NameOf, CreatedFilter, SetField, Plain,
         LowerPlain;
    RangeMeansDay(val, 0);
    CreatedIsLower();
    CreatedSets(val);
    var name, raw := NameOf(CreatedKey), CreatedText(val);
    PlainQualifier(raw, name, val);
    KeyHasItsName(name, CreatedKey);
    OneTokenParses(raw, Token(raw, false, false), name, val, CreatedKey, CreatedFilter(val));
  }

  /** With that filter alone, the rows meant are the visible ones whose creation lies in the range. */
  lemma CreatedMeans(w: World, row: Row, actor: Actor, val: string)
    requires ParseDateRange(val).Some?
    ensures IssueMeaning(w, row, actor, CreatedOnly(val), "") <==>
      VisibleTo(actor, row) && InRange(ParseDateRange(val).value, row.created)
  {
    hide ParseDateRange, VisibleTo;
  }

  lemma CreatedDrives(val: string)
    requires ParseDateRange(val).Some?
    ensures HasContent(CreatedOnly(val)) && FullText(CreatedOnly(val)).None?
    ensures EffectiveKind("", CreatedOnly(val).filters) == Some("") && !Undriven(CreatedOnly(val), "")
  {
    hide ParseDateRange;
  }

  /** The row is visible and its day of creation satisfies the comparison as written. */
  predicate CreatedFits(actor: Actor, row: Row, val: string)
    requires Read(val).Some? && 0 <= row.created
  {
    VisibleTo(actor, row) && Says(Read(val).value, DateAt(row.created))
  }

  lemma CreatedMeansDay(w: World, row: Row, actor: Actor, val: string)
    requires DateText(val) && 0 <= row.created
    ensures IssueMeaning(w, row, actor, Parse(CreatedText(val)), "") <==> CreatedFits(actor, row, val)
  {
    CreatedParses(val);
    RangeMeansDay(val, row.created);
    hide Parse, Read, ParseDateRange, Plain, IssueMeaning, VisibleTo, Says, DateAt, InRange, CreatedOnly, Scan;
    CreatedMeans(w, row, actor, val);
  }

  /** `created:` with any date value selects, on page and count, exactly the visible issues and pull
      requests whose day of creation satisfies the comparison as written. */
  method SearchCreated(ghost w: World, actor: Actor, val: string, limit: int, offset: int) returns (r: Compiled)
    requires DateText(val)
    ensures r.Run? && WellBound(r.statement, limit, offset)
    ensures forall row: Row | 0 <= row.created :: Selects(w, r.statement, row, CreatedFits(actor, row, val))
  {
    CreatedParses(val);
    CreatedDrives(val);
    hide Parse, Scan, Read, ParseDateRange, Plain, IssueMeaning, Selects, WellBound, VisibleTo, Says, HasContent, CreatedOnly,
         EffectiveKind, CreatedText, CreatedFits, Undriven, FullText, Cut;
    r := SearchRaw(w, actor, CreatedText(val), "", limit, offset);
    forall row: Row | 0 <= row.created ensures Selects(w, r.statement, row, CreatedFits(actor, row, val)) {
      CreatedMeansDay(w, row, actor, val);
      assert Selects(w, r.statement, row, IssueMeaning(w, row, actor, Parse(CreatedText(val)), ""));
    }
  }

  // ----- dates as they are written

  /** The last digit of a number. */
  function DigitChar(n: nat): (c: char)
    ensures IsDigit(c) && Digit(c) == n % 10
  {
    (n % 10 + '0' as int) as char
  }

  function Two(n: nat): string {
    [DigitChar(n / 10), DigitChar(n)]
  }

  /** YYYY-MM-DD, for years up to 9999. */
  function IsoText(d: Date): string {
    Two(d.year / 100) + Two(d.year % 100) + "-" + Two(d.month) + "-" + Two(d.day)
  }

  lemma TwoReads(n: nat)
    requires n < 100
    ensures var s := Two(n);
      |s| == 2 && IsDigit(s[0]) && IsDigit(s[1]) && 10 * Digit(s[0]) + Digit(s[1]) == n
  {
  }

  lemma TwosRead(d: Date)
    requires ValidDate(d) && d.year < 10000
    ensures var s := IsoText(d);
      && |s| == 10 && s[0..2] == Two(d.year / 100) && s[2..4] == Two(d.year % 100) && s[4] == '-'
      && s[5..7] == Two(d.month) && s[7] == '-' && s[8..10] == Two(d.day)
  {
    hide Two;
    TwoReads(d.year / 100);
    TwoReads(d.year % 100);
    TwoReads(d.month);
    TwoReads(d.day);
  }

  lemma IsoDigits(d: Date)
    requires ValidDate(d) && d.year < 10000
    ensures var s := IsoText(d);
      && |s| == 10 && s[4] == '-' && s[7] == '-'
      && IsDigit(s[0]) && IsDigit(s[1]) && IsDigit(s[2]) && IsDigit(s[3])
      && IsDigit(s[5]) && IsDigit(s[6]) && IsDigit(s[8]) && IsDigit(s[9])
      && 10 * Digit(s[0]) + Digit(s[1]) == d.year / 100 && 10 * Digit(s[2]) + Digit(s[3]) == d.year % 100
      && 10 * Digit(s[5]) + Digit(s[6]) == d.month && 10 * Digit(s[8]) + Digit(s[9]) == d.day
  {
    TwosRead(d);
    hide Two, IsoText;
    var s := IsoText(d);
    TwoReads(d.year / 100);
    TwoReads(d.year % 100);
    TwoReads(d.month);
    TwoReads(d.day);
    assert s[0..2][0] == s[0] && s[0..2][1] == s[1] && s[2..4][0] == s[2] && s[2..4][1] == s[3];
    assert s[5..7][0] == s[5] && s[5..7][1] == s[6] && s[8..10][0] == s[8] && s[8..10][1] == s[9];
  }

  lemma IsoIsPlain(d: Date)
    requires ValidDate(d) && d.year < 10000
    ensures |IsoText(d)| == 10 && Plain(IsoText(d)) && IsDigit(IsoText(d)[0])
  {
    IsoDigits(d);
    hide IsoText;
  }

  /** A date written out is read back. */
  lemma IsoRoundTrip(d: Date)
    requires ValidDate(d) && d.year < 10000
    ensures ParseIsoDate(IsoText(d)) == Some(d)
  {
    IsoDigits(d);
    IsoIsPlain(d);
    PlainIsTrimmed(IsoText(d));
    hide TrimSpace, IsoText, Digit, IsDigit;
  }

  lemma AfterReads(d: Date)
    requires ValidDate(d) && d.year < 10000
    ensures DateText(">" + IsoText(d)) && Read(">" + IsoText(d)) == Some(After(d))
  {
    IsoRoundTrip(d);
    IsoIsPlain(d);
    hide IsoText, ParseIsoDate;
    var val := ">" + IsoText(d);
    assert val[1..] == IsoText(d) && val[1] == IsoText(d)[0];
    PlainIsTrimmed(val);
    hide TrimSpace;
  }

  /** `created:>D` means the visible issues and pull requests created on a later day than D. */
  lemma CreatedAfter(w: World, row: Row, actor: Actor, d: Date)
    requires ValidDate(d) && d.year < 10000 && 0 <= row.created
    ensures IssueMeaning(w, row, actor, Parse(CreatedText(">" + IsoText(d))), "") <==>
      VisibleTo(actor, row) && Earlier(d, DateAt(row.created))
  {
    AfterReads(d);
    hide IsoText, DateText, Read, Parse, IssueMeaning, VisibleTo;
    CreatedMeansDay(w, row, actor, ">" + IsoText(d));
  }
}
