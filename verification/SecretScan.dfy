/** The secret scanner: an index of line starts, a binary search in it, and an excerpt of the line
    around a match in which a marker stands for the matched bytes. */
module SecretScan {
  import opened Prelude
  import opened SearchText

  datatype Span = Span(start: int, end: int)
  datatype Finding = Finding(pattern: string, line: int, excerpt: string)

  /** A registered pattern; find stands for the regular expression's non-overlapping matches. */
  datatype Pattern = Pattern(name: string, minMatchLen: int, find: string -> seq<Span>)

  predicate InRange(content: string, m: Span) {
    0 <= m.start <= m.end <= |content|
  }

  // ----- lines

  function NewLines(s: string): nat {
    if s == "" then 0 else NewLines(s[..|s| - 1]) + (if s[|s| - 1] == '\n' then 1 else 0)
  }

  /** The 1-based line of an offset. */
  function LineOf(content: string, off: nat): nat
    requires off <= |content|
  {
    1 + NewLines(content[..off])
  }

  /** Where the line of an offset begins, and where it ends before its newline. */
  function LineStart(content: string, off: nat): (start: nat)
    requires off <= |content|
    ensures start <= off
  {
    if off == 0 || content[off - 1] == '\n' then off else LineStart(content, off - 1)
  }

  function LineEnd(content: string, off: nat): (end: nat)
    requires off <= |content|
    ensures off <= end <= |content|
    decreases |content| - off
  {
    if off == |content| || content[off] == '\n' then off else LineEnd(content, off + 1)
  }

  /** Offset 0 and the offset after every newline. */
  function LineStarts(content: string): (starts: seq<int>)
    ensures |starts| == 1 + NewLines(content)
    ensures forall k | 0 <= k < |starts| :: 0 <= starts[k] <= |content|
    ensures forall j, k | 0 <= j < k < |starts| :: starts[j] < starts[k]
  {
    if content == "" then [0]
    else
      var before := LineStarts(content[..|content| - 1]);
      if content[|content| - 1] == '\n' then before + [|content|] else before
  }

  lemma NewLinesStep(content: string, off: nat)
    requires off < |content|
    ensures NewLines(content[..off + 1]) == NewLines(content[..off]) + (if content[off] == '\n' then 1 else 0)
  {
    assert content[..off + 1][..off] == content[..off];
  }

  lemma {:induction false} NewLinesGrow(content: string, i: nat, j: nat)
    requires i <= j <= |content|
    ensures NewLines(content[..i]) <= NewLines(content[..j])
    decreases j - i
  {
    if i < j {
      NewLinesStep(content, j - 1);
      NewLinesGrow(content, i, j - 1);
    }
  }

  /** The line starts at or before an offset are those of its own and the earlier lines. */
  lemma {:induction false} StartsUpTo(content: string, off: nat, k: nat)
    requires off <= |content| && k < |LineStarts(content)|
    ensures LineStarts(content)[k] <= off <==> k < LineOf(content, off)
    decreases |content|
  {
    var n := |content|;
    assert content[..n] == content;
    if off < n {
      var before := content[..n - 1];
      assert before[..off] == content[..off];
      NewLinesGrow(content, off, n - 1);
      if k < |LineStarts(before)| {
        StartsUpTo(before, off, k);
      }
    }
  }

  lemma {:induction false} StartIsLineStart(content: string, off: nat)
    requires off <= |content|
    ensures LineOf(content, off) <= |LineStarts(content)|
    ensures LineStarts(content)[LineOf(content, off) - 1] == LineStart(content, off)
  {
    NewLinesGrow(content, off, |content|);
    assert content[..|content|] == content;
    var k := LineOf(content, off) - 1;
    StartsUpTo(content, off, k);
    if off > 0 {
      NewLinesStep(content, off - 1);
      StartsUpTo(content, off - 1, k);
      if content[off - 1] != '\n' {
        StartIsLineStart(content, off - 1);
      }
    }
  }

  lemma {:induction false} NextStartIsLineEnd(content: string, off: nat)
    requires off <= |content|
    ensures var line, starts := LineOf(content, off), LineStarts(content);
      LineEnd(content, off) == if line < |starts| then starts[line] - 1 else |content|
    decreases |content| - off
  {
    assert content[..|content|] == content;
    if off < |content| {
      NewLinesStep(content, off);
      if content[off] == '\n' {
        NewLinesGrow(content, off + 1, |content|);
        var k := LineOf(content, off);
        StartsUpTo(content, off, k);
        StartsUpTo(content, off + 1, k);
      } else {
        NextStartIsLineEnd(content, off + 1);
      }
    }
  }

  method BuildLineStarts(content: string) returns (starts: seq<int>)
    ensures starts == LineStarts(content)
  {
    starts := [0];
    assert content[..0] == "";
    for i := 0 to |content|
      invariant starts == LineStarts(content[..i])
    {
      assert content[..i + 1][..i] == content[..i];
      if content[i] == '\n' {
        starts := starts + [i + 1];
      }
    }
    assert content[..|content|] == content;
  }

  /** Binary search for the number of entries at or before the offset. */
  method LineForOffset(starts: seq<int>, off: int) returns (line: nat)
    requires forall j, k | 0 <= j < k < |starts| :: starts[j] < starts[k]
    ensures line <= |starts|
    ensures forall k | 0 <= k < |starts| :: starts[k] <= off <==> k < line
  {
    var lo, hi := 0, |starts|;
    while lo < hi
      invariant 0 <= lo <= hi <= |starts|
      invariant forall k | 0 <= k < lo :: starts[k] <= off
      invariant forall k | hi <= k < |starts| :: starts[k] > off
      decreases hi - lo
    {
      var mid := (lo + hi) / 2;
      if starts[mid] <= off {
        lo := mid + 1;
      } else {
        hi := mid;
      }
    }
    return lo;
  }

  /** On the index of the content the search gives 1 plus the newlines before the offset. */
  lemma SearchGivesLine(content: string, off: nat, line: nat)
    requires off <= |content| && line <= |LineStarts(content)|
    requires forall k | 0 <= k < |LineStarts(content)| :: LineStarts(content)[k] <= off <==> k < line
    ensures line == LineOf(content, off)
  {
    var n := LineOf(content, off);
    NewLinesGrow(content, off, |content|);
    assert content[..|content|] == content;
    if n < line {
      StartsUpTo(content, off, n);
    } else if line < n {
      StartsUpTo(content, off, line);
    }
  }

  // ----- the excerpt

  const MARKER := "[REDACTED]"
  const ELLIPSIS: string := [0xE2 as char, 0x80 as char, 0xA6 as char]
  const EXCERPT_MAX_LINE_BYTES := 160
  const HALF_WINDOW := 75

  function TrimCR(s: string): string {
    if s != "" && s[|s| - 1] == '\r' then TrimCR(s[..|s| - 1]) else s
  }

  function Before(content: string, m: Span): string
    requires InRange(content, m)
  {
    content[LineStart(content, m.start)..m.start]
  }

  function Behind(content: string, m: Span): string
    requires InRange(content, m)
  {
    var end := LineEnd(content, m.start);
    TrimCR(if m.end <= end then content[m.end..end] else "")
  }

  /** The line of the match with the marker in place of the matched bytes. */
  function RedactedLine(content: string, m: Span): string
    requires InRange(content, m)
  {
    Before(content, m) + MARKER + Behind(content, m)
  }

  function WindowLeft(idx: int): int {
    if idx - HALF_WINDOW < 0 then 0 else idx - HALF_WINDOW
  }

  function WindowRight(s: string, idx: int): int {
    if idx + |MARKER| + HALF_WINDOW > |s| then |s| else idx + |MARKER| + HALF_WINDOW
  }

  function Framed(s: string, left: int, right: int): string
    requires 0 <= left <= right <= |s|
  {
    (if left > 0 then ELLIPSIS else "") + s[left..right] + (if right < |s| then ELLIPSIS else "")
  }

  /** At most 160 bytes around the first marker, with an ellipsis on each side that was cut. */
  function Cut(s: string): string {
    var idx := Index(s, MARKER);
    if |s| <= EXCERPT_MAX_LINE_BYTES then s
    else if idx < 0 then s[..EXCERPT_MAX_LINE_BYTES]
    else Framed(s, WindowLeft(idx), WindowRight(s, idx))
  }

  function Excerpt(content: string, m: Span): string
    requires InRange(content, m)
  {
    Cut(RedactedLine(content, m))
  }

  method CutExcerpt(s: string) returns (excerpt: string)
    ensures excerpt == Cut(s)
  {
    hide Index;
    if |s| > EXCERPT_MAX_LINE_BYTES {
      var idx := Index(s, MARKER);
      if idx < 0 {
        return s[..EXCERPT_MAX_LINE_BYTES];
      }
      var halfWindow := (EXCERPT_MAX_LINE_BYTES - |MARKER|) / 2;
      var left := idx - halfWindow;
      if left < 0 { left := 0; }
      var right := idx + |MARKER| + halfWindow;
      if right > |s| { right := |s|; }
      assert left == WindowLeft(idx) && right == WindowRight(s, idx);
      hide WindowLeft, WindowRight;
      var ell, tail := "", "";
      if left > 0 { ell := ELLIPSIS; }
      if right < |s| { tail := ELLIPSIS; }
      return ell + s[left..right] + tail;
    }
    return s;
  }

  method TrimRightCR(s: string) returns (t: string)
    ensures t == TrimCR(s)
  {
    t := s;
    while t != "" && t[|t| - 1] == '\r'
      invariant TrimCR(t) == TrimCR(s)
      decreases |t|
    {
      t := t[..|t| - 1];
    }
  }

  /** Every slice is in range whatever the span; for the line of an in-range match the result is its excerpt. */
  method RedactLine(content: string, starts: seq<int>, line: int, matchStart: int, matchEnd: int)
    returns (excerpt: string)
    requires starts == LineStarts(content) && line <= |starts|
    ensures line < 1 ==> excerpt == ""
    ensures InRange(content, Span(matchStart, matchEnd)) && line == LineOf(content, matchStart) ==>
      excerpt == Excerpt(content, Span(matchStart, matchEnd))
  {
    hide Cut, NewLines, LineStart, LineEnd, LineStarts, TrimCR;
    if line < 1 { return ""; }
    var startOff := starts[line - 1];
    var endOff := if line < |starts| then starts[line] - 1 else |content|;
    if endOff < startOff { return ""; }
    var mStart := matchStart;
    if mStart < startOff { mStart := startOff; }
    if mStart > endOff { mStart := endOff; }
    var mEnd := matchEnd;
    if mEnd > endOff { mEnd := endOff; }
    if mEnd < mStart { mEnd := mStart; }
    var pre := content[startOff..mStart];
    var post := TrimRightCR(content[mEnd..endOff]);
    excerpt := CutExcerpt(pre + MARKER + post);
    if InRange(content, Span(matchStart, matchEnd)) && line == LineOf(content, matchStart) {
      StartIsLineStart(content, matchStart);
      NextStartIsLineEnd(content, matchStart);
      var m := Span(matchStart, matchEnd);
      assert pre == Before(content, m);
      assert m.end > endOff ==> content[endOff..endOff] == "";
      assert post == Behind(content, m);
      assert pre + MARKER + post == RedactedLine(content, m);
    }
  }

  // ----- the scan

  function FindingOf(content: string, p: Pattern, m: Span): Finding
    requires InRange(content, m)
  {
    Finding(p.name, LineOf(content, m.start), Excerpt(content, m))
  }

  function Kept(p: Pattern, m: Span): bool {
    !(p.minMatchLen > 0 && m.end - m.start < p.minMatchLen)
  }

  /** One finding for every match that is long enough, in match order. */
  function FindingsOf(content: string, p: Pattern, matches: seq<Span>): seq<Finding>
    requires forall k | 0 <= k < |matches| :: InRange(content, matches[k])
  {
    if matches == [] then []
    else
      var last := matches[|matches| - 1];
      FindingsOf(content, p, matches[..|matches| - 1]) + (if Kept(p, last) then [FindingOf(content, p, last)] else [])
  }

  ghost predicate FindsInRange(p: Pattern) {
    forall c, k | 0 <= k < |p.find(c)| :: InRange(c, p.find(c)[k])
  }

  ghost predicate AllFindInRange(patterns: seq<Pattern>) {
    forall i | 0 <= i < |patterns| :: FindsInRange(patterns[i])
  }

  function AllFindings(content: string, patterns: seq<Pattern>): seq<Finding>
    requires AllFindInRange(patterns)
  {
    if patterns == [] then []
    else
      var last := patterns[|patterns| - 1];
      AllFindings(content, patterns[..|patterns| - 1]) + FindingsOf(content, last, last.find(content))
  }

  function Scanned(content: string, maxBytes: int): string {
    if maxBytes > 0 && |content| > maxBytes then content[..maxBytes] else content
  }

  method ScanPattern(content: string, starts: seq<int>, p: Pattern) returns (out: seq<Finding>)
    requires starts == LineStarts(content) && FindsInRange(p)
    ensures out == FindingsOf(content, p, p.find(content))
  {
    out := [];
    var matches := p.find(content);
    assert forall k | 0 <= k < |matches| :: InRange(content, matches[k]);
    for i := 0 to |matches|
      invariant out == FindingsOf(content, p, matches[..i])
    {
      assert matches[..i + 1][..i] == matches[..i];
      var m := matches[i];
      if p.minMatchLen > 0 && m.end - m.start < p.minMatchLen { continue; }
      var line := LineForOffset(starts, m.start);
      SearchGivesLine(content, m.start, line);
      var excerpt := RedactLine(content, starts, line, m.start, m.end);
      out := out + [Finding(p.name, line, excerpt)];
    }
    assert matches[..|matches|] == matches;
  }

  /** One finding per long-enough match of every pattern in the scanned prefix. */
  method Scan(content: string, patterns: seq<Pattern>, maxBytes: int) returns (out: seq<Finding>)
    requires AllFindInRange(patterns)
    ensures out == if content == "" then [] else AllFindings(Scanned(content, maxBytes), patterns)
  {
    if content == "" { return []; }
    var text := Scanned(content, maxBytes);
    var starts := BuildLineStarts(text);
    out := [];
    for i := 0 to |patterns|
      invariant out == AllFindings(text, patterns[..i])
    {
      assert patterns[..i + 1][..i] == patterns[..i];
      assert FindsInRange(patterns[i]);
      var more := ScanPattern(text, starts, patterns[i]);
      out := out + more;
    }
    assert patterns[..|patterns|] == patterns;
  }

  /** Finding f tells of match k of the pattern, which is as long as it asks. */
  ghost predicate TellsOf(text: string, f: Finding, p: Pattern, k: nat)
    requires FindsInRange(p)
  {
    && k < |p.find(text)|
    && (var m := p.find(text)[k];
        && InRange(text, m) && m.end - m.start >= p.minMatchLen
        && f.pattern == p.name && f.line == 1 + NewLines(text[..m.start]) && f.excerpt == Excerpt(text, m))
  }

  lemma {:induction false} FindingsOfIff(text: string, f: Finding, p: Pattern, n: nat)
    requires FindsInRange(p) && n <= |p.find(text)|
    requires forall k | 0 <= k < n :: InRange(text, p.find(text)[k])
    ensures f in FindingsOf(text, p, p.find(text)[..n]) <==> exists k | 0 <= k < n :: TellsOf(text, f, p, k)
  {
    hide Excerpt, NewLines;
    if n > 0 {
      var matches := p.find(text);
      FindingsOfIff(text, f, p, n - 1);
      assert matches[..n][..n - 1] == matches[..n - 1];
      assert InRange(text, matches[n - 1]);
      assert f in FindingsOf(text, p, matches[..n]) <==>
        f in FindingsOf(text, p, matches[..n - 1]) || TellsOf(text, f, p, n - 1);
    }
  }

  lemma {:induction false} AllFindingsIff(text: string, f: Finding, patterns: seq<Pattern>)
    requires AllFindInRange(patterns)
    ensures f in AllFindings(text, patterns) <==>
      exists i | 0 <= i < |patterns| :: FindsInRange(patterns[i]) && exists k: nat :: TellsOf(text, f, patterns[i], k)
  {
    hide FindingsOf, TellsOf;
    if patterns != [] {
      var init, last := patterns[..|patterns| - 1], patterns[|patterns| - 1];
      assert forall i | 0 <= i < |init| :: init[i] == patterns[i];
      AllFindingsIff(text, f, init);
      assert FindsInRange(last);
      var matches := last.find(text);
      assert matches[..|matches|] == matches;
      FindingsOfIff(text, f, last, |matches|);
      InMatches(text, f, last);
    }
  }

  lemma InMatches(text: string, f: Finding, p: Pattern)
    requires FindsInRange(p)
    ensures forall k: nat | TellsOf(text, f, p, k) :: k < |p.find(text)|
  {
  }

  /** The scan of the first maxBytes bytes, or of all of them, tells of every match of every pattern that is
      long enough, and of nothing else. */
  lemma FoundIff(content: string, patterns: seq<Pattern>, maxBytes: int, f: Finding)
    requires AllFindInRange(patterns)
    ensures var text := if 0 < maxBytes < |content| then content[..maxBytes] else content;
      f in AllFindings(Scanned(content, maxBytes), patterns) <==>
        exists i | 0 <= i < |patterns| :: FindsInRange(patterns[i]) && exists k: nat :: TellsOf(text, f, patterns[i], k)
  {
    var text := if 0 < maxBytes < |content| then content[..maxBytes] else content;
    assert Scanned(content, maxBytes) == text;
    AllFindingsIff(text, f, patterns);
  }

  // ----- where the window is

  ghost predicate IsWindow(excerpt: string, s: string, left: int, right: int) {
    0 <= left <= right <= |s| && right - left <= EXCERPT_MAX_LINE_BYTES && excerpt == Framed(s, left, right)
  }

  /** The marker does not overlap itself: none starts before the match and ends inside its marker. */
  lemma MarkersDoNotOverlap(pre: string, post: string, i: nat)
    requires i < |pre| < i + |MARKER| <= |pre + MARKER + post|
    ensures (pre + MARKER + post)[i..i + |MARKER|] != MARKER
  {
    var k := |pre| - i;
    assert (pre + MARKER + post)[i..i + |MARKER|][k] == '[';
    assert MARKER[k] != '[';
  }

  /** A marker found before the match is found at the same place in the whole line. */
  lemma EarlierMarker(pre: string, rest: string, i: nat)
    requires i + |MARKER| <= |pre| && (pre + rest)[i..i + |MARKER|] == MARKER
    ensures 0 <= Index(pre, MARKER) <= i
    ensures 0 <= Index(pre + rest, MARKER) <= Index(pre, MARKER)
  {
    hide Index;
    assert pre[i..i + |MARKER|] == (pre + rest)[i..i + |MARKER|];
    IndexIsFirst(pre, MARKER, i);
    var j := Index(pre, MARKER);
    assert (pre + rest)[j..j + |MARKER|] == pre[j..j + |MARKER|];
    IndexIsFirst(pre + rest, MARKER, j);
  }

  /** So the first marker of the line is the first one before the match, or else the match's own. */
  lemma FirstMarker(pre: string, post: string)
    ensures Index(pre + MARKER + post, MARKER) == if Index(pre, MARKER) >= 0 then Index(pre, MARKER) else |pre|
  {
    hide Index;
    var s := pre + MARKER + post;
    assert s == pre + (MARKER + post);
    assert s[|pre|..|pre| + |MARKER|] == MARKER;
    IndexIsFirst(s, MARKER, |pre|);
    var i, j := Index(s, MARKER), Index(pre, MARKER);
    if i < |pre| {
      if |pre| < i + |MARKER| {
        MarkersDoNotOverlap(pre, post, i);
        assert false;
      }
      EarlierMarker(pre, MARKER + post, i);
    } else if j >= 0 {
      assert s[j..j + |MARKER|] == pre[j..j + |MARKER|];
      EarlierMarker(pre, MARKER + post, j);
    }
  }

  /** The excerpt is a window of at most 160 bytes of the redacted line, plus the ellipses: the
      branch without a marker is never taken. */
  lemma ExcerptIsWindow(content: string, m: Span)
    requires InRange(content, m)
    ensures exists left, right :: IsWindow(Excerpt(content, m), RedactedLine(content, m), left, right)
    ensures |Excerpt(content, m)| <= EXCERPT_MAX_LINE_BYTES + 2 * |ELLIPSIS|
  {
    hide Index, Before, Behind, Cut, IsWindow;
    FirstMarker(Before(content, m), Behind(content, m));
    CutIsWindow(RedactedLine(content, m));
    var left, right :| IsWindow(Cut(RedactedLine(content, m)), RedactedLine(content, m), left, right);
    assert IsWindow(Excerpt(content, m), RedactedLine(content, m), left, right);
  }

  lemma CutIsWindow(s: string)
    requires Index(s, MARKER) >= 0
    ensures exists left, right :: IsWindow(Cut(s), s, left, right)
    ensures |Cut(s)| <= EXCERPT_MAX_LINE_BYTES + 2 * |ELLIPSIS|
  {
    hide Index;
    if |s| <= EXCERPT_MAX_LINE_BYTES {
      assert Framed(s, 0, |s|) == s;
      assert IsWindow(Cut(s), s, 0, |s|);
    } else {
      var idx := Index(s, MARKER);
      assert IsWindow(Cut(s), s, WindowLeft(idx), WindowRight(s, idx));
    }
  }

  /** The marker of the match is inside the window exactly when the line is short, no earlier text
      spells the marker, or the earliest that does starts at most 75 bytes before it. */
  lemma OwnMarkerShownIff(pre: string, post: string)
    ensures var s := pre + MARKER + post;
      var idx := Index(s, MARKER);
      |s| <= EXCERPT_MAX_LINE_BYTES || (WindowLeft(idx) <= |pre| && |pre| + |MARKER| <= WindowRight(s, idx))
      <==> |s| <= EXCERPT_MAX_LINE_BYTES || Index(pre, MARKER) < 0 || |pre| <= Index(pre, MARKER) + HALF_WINDOW
  {
    FirstMarker(pre, post);
  }

  /** A line that already spells the marker far before the match: the window misses the match. */
  lemma OwnMarkerCanBeMissed(fill: string)
    requires |fill| > 140
    ensures var pre := MARKER + fill;
      var s := pre + MARKER;
      |s| > EXCERPT_MAX_LINE_BYTES && WindowRight(s, Index(s, MARKER)) < |pre|
  {
    var pre := MARKER + fill;
    assert pre[0..|MARKER|] == MARKER;
    IndexIsFirst(pre, MARKER, 0);
    FirstMarker(pre, "");
    assert pre + MARKER + "" == pre + MARKER;
  }

  // ----- nothing of the match is shown

  lemma {:induction false} LineStartReadsBefore(c: string, d: string, off: nat)
    requires off <= |c| && off <= |d| && c[..off] == d[..off]
    ensures LineStart(c, off) == LineStart(d, off)
  {
    if off > 0 {
      assert c[off - 1] == c[..off][off - 1] && d[off - 1] == d[..off][off - 1];
      assert c[..off - 1] == c[..off][..off - 1] && d[..off - 1] == d[..off][..off - 1];
      LineStartReadsBefore(c, d, off - 1);
    }
  }

  lemma {:induction false} LineEndReadsBehind(c: string, d: string, off: nat)
    requires |c| == |d| && off <= |c| && c[off..] == d[off..]
    ensures LineEnd(c, off) == LineEnd(d, off)
    decreases |c| - off
  {
    if off < |c| {
      assert c[off] == c[off..][0] && d[off] == d[off..][0];
      assert c[off + 1..] == c[off..][1..] && d[off + 1..] == d[off..][1..];
      LineEndReadsBehind(c, d, off + 1);
    }
  }

  lemma {:induction false} LineEndPasses(c: string, i: nat, j: nat)
    requires i <= j <= |c|
    ensures '\n' in c[i..j] ==> LineEnd(c, i) < j
    ensures '\n' !in c[i..j] ==> LineEnd(c, i) == LineEnd(c, j)
    decreases j - i
  {
    if i < j {
      assert c[i..j] == [c[i]] + c[i + 1..j];
      LineEndPasses(c, i + 1, j);
    }
  }

  /** Two contents that differ only inside the match get the same excerpt, as long as both matches
      or neither run over a line end: no other fact about the matched bytes reaches the excerpt. */
  lemma ExcerptHidesMatch(c: string, d: string, m: Span)
    requires InRange(c, m) && |c| == |d| && c[..m.start] == d[..m.start] && c[m.end..] == d[m.end..]
    requires '\n' in c[m.start..m.end] <==> '\n' in d[m.start..m.end]
    ensures Excerpt(c, m) == Excerpt(d, m)
  {
    LineStartReadsBefore(c, d, m.start);
    LineEndPasses(c, m.start, m.end);
    LineEndPasses(d, m.start, m.end);
    LineEndReadsBehind(c, d, m.end);
    var start, end := LineStart(c, m.start), LineEnd(c, m.start);
    assert c[start..m.start] == c[..m.start][start..];
    assert d[start..m.start] == d[..m.start][start..];
    if '\n' !in c[m.start..m.end] {
      assert c[m.end..end] == c[m.end..][..end - m.end];
      assert d[m.end..end] == d[m.end..][..end - m.end];
    }
  }

  // ----- what an excerpt shows of another match

  /** Where a byte of the content stands in the redacted line, if it does. */
  function PlaceOf(content: string, m: Span, p: nat): Option<nat>
    requires InRange(content, m)
  {
    var start := LineStart(content, m.start);
    if start <= p < m.start then Some(p - start)
    else if m.end <= p < m.end + |Behind(content, m)| then Some(|Before(content, m)| + |MARKER| + p - m.end)
    else None
  }

  function CutLeft(s: string): int {
    if |s| <= EXCERPT_MAX_LINE_BYTES then 0 else WindowLeft(Index(s, MARKER))
  }

  function CutRight(s: string): int {
    if |s| <= EXCERPT_MAX_LINE_BYTES then |s| else WindowRight(s, Index(s, MARKER))
  }

  /** The byte is inside the window of the match's excerpt. */
  predicate Shows(content: string, m: Span, p: nat)
    requires InRange(content, m)
  {
    var s := RedactedLine(content, m);
    PlaceOf(content, m, p).Some? && CutLeft(s) <= PlaceOf(content, m, p).value < CutRight(s)
  }

  lemma {:induction false} TrimCRIsPrefix(s: string)
    ensures TrimCR(s) <= s
  {
    if s != "" && s[|s| - 1] == '\r' {
      TrimCRIsPrefix(s[..|s| - 1]);
    }
  }

  lemma PlaceHoldsByte(content: string, m: Span, p: nat)
    requires InRange(content, m) && PlaceOf(content, m, p).Some?
    ensures p < |content| && PlaceOf(content, m, p).value < |RedactedLine(content, m)|
    ensures RedactedLine(content, m)[PlaceOf(content, m, p).value] == content[p]
  {
    var end := LineEnd(content, m.start);
    TrimCRIsPrefix(if m.end <= end then content[m.end..end] else "");
    hide LineStart, LineEnd, TrimCR;
  }

  lemma FramedAt(s: string, left: int, right: int, k: int) returns (i: nat)
    requires 0 <= left <= k < right <= |s|
    ensures i < |Framed(s, left, right)| && Framed(s, left, right)[i] == s[k]
  {
    i := (if left > 0 then |ELLIPSIS| else 0) + k - left;
    assert Framed(s, left, right)[i] == s[left..right][k - left];
  }

  /** A byte in the window stands, as it is, in the excerpt. */
  lemma ShownByteIsThere(content: string, m: Span, p: nat)
    requires InRange(content, m) && Shows(content, m, p)
    ensures p < |content|
    ensures exists k :: 0 <= k < |Excerpt(content, m)| && Excerpt(content, m)[k] == content[p]
  {
    var s, place := RedactedLine(content, m), PlaceOf(content, m, p).value;
    PlaceHoldsByte(content, m, p);
    FirstMarker(Before(content, m), Behind(content, m));
    hide Index, PlaceOf, Before, Behind, Framed;
    if |s| <= EXCERPT_MAX_LINE_BYTES {
      assert Excerpt(content, m)[place] == content[p];
    } else {
      var i := FramedAt(s, CutLeft(s), CutRight(s), place);
      assert Excerpt(content, m) == Framed(s, CutLeft(s), CutRight(s));
      assert Excerpt(content, m)[i] == content[p];
    }
  }

  predicate Overlaps(other: Span, lo: int, hi: int) {
    other.start < hi && lo < other.end && lo < hi && other.start < other.end
  }

  ghost predicate Reveals(content: string, m: Span, other: Span)
    requires InRange(content, m)
  {
    exists p: nat | other.start <= p < other.end :: Shows(content, m, p)
  }

  function Clamp(x: int, lo: int, hi: int): int {
    if x < lo then lo else if hi < x then hi else x
  }

  /** The stretches of the content that the excerpt of a match shows: before it and after it. */
  function ShownBefore(content: string, m: Span): Span
    requires InRange(content, m)
  {
    var s, start, pre := RedactedLine(content, m), LineStart(content, m.start), |Before(content, m)|;
    Span(start + Clamp(CutLeft(s), 0, pre), start + Clamp(CutRight(s), 0, pre))
  }

  function ShownBehind(content: string, m: Span): Span
    requires InRange(content, m)
  {
    var s, skip, post := RedactedLine(content, m), |Before(content, m)| + |MARKER|, |Behind(content, m)|;
    Span(m.end + Clamp(CutLeft(s) - skip, 0, post), m.end + Clamp(CutRight(s) - skip, 0, post))
  }

  lemma ShowsIff(content: string, m: Span, p: nat)
    requires InRange(content, m)
    ensures var a, b := ShownBefore(content, m), ShownBehind(content, m);
      Shows(content, m, p) <==> a.start <= p < a.end || b.start <= p < b.end
  {
    assert |Before(content, m)| == m.start - LineStart(content, m.start);
    hide Before, Behind, RedactedLine, CutLeft, CutRight, LineStart;
  }

  /** An excerpt redacts its own match only: it shows bytes of another match exactly when that one
      reaches into the stretch of line shown before the marker or the stretch shown after it. */
  lemma RevealsIff(content: string, m: Span, other: Span)
    requires InRange(content, m) && InRange(content, other)
    ensures var a, b := ShownBefore(content, m), ShownBehind(content, m);
      Reveals(content, m, other) <==> Overlaps(other, a.start, a.end) || Overlaps(other, b.start, b.end)
  {
    hide ShownBefore, ShownBehind, Shows;
    var a, b := ShownBefore(content, m), ShownBehind(content, m);
    forall p: nat ensures Shows(content, m, p) <==> a.start <= p < a.end || b.start <= p < b.end {
      ShowsIff(content, m, p);
    }
    if Overlaps(other, a.start, a.end) {
      var p: nat := if other.start < a.start then a.start else other.start;
      assert Shows(content, m, p);
    }
    if Overlaps(other, b.start, b.end) {
      var p: nat := if other.start < b.start then b.start else other.start;
      assert Shows(content, m, p);
    }
  }

  /** Two matches on one line: each excerpt shows the other. */
  lemma OtherMatchCanBeRevealed()
    ensures Excerpt("AAA BBB", Span(0, 3)) == "[REDACTED] BBB"
    ensures Reveals("AAA BBB", Span(0, 3), Span(4, 7))
  {
    var content, m := "AAA BBB", Span(0, 3);
    assert LineEnd(content, 0) == LineEnd(content, 3) by { LineEndPasses(content, 0, 3); }
    assert LineEnd(content, 3) == LineEnd(content, 7) by { LineEndPasses(content, 3, 7); }
    assert Behind(content, m) == " BBB";
    assert RedactedLine(content, m) == "[REDACTED] BBB";
    assert PlaceOf(content, m, 4) == Some(11);
    assert Shows(content, m, 4);
  }
}
