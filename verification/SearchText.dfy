/** Byte-string helpers of the search grammar. A byte is modelled by the character with its code,
    and text is UTF-8, so a Unicode space may take one, two or three bytes. */
module SearchText {

  predicate IsSpace2(a: char, b: char) {
    a as int == 0xC2 && (b as int == 0x85 || b as int == 0xA0)
  }

  predicate IsSpace3(a: char, b: char, c: char) {
    || (a as int == 0xE1 && b as int == 0x9A && c as int == 0x80)
    || (a as int == 0xE2 && b as int == 0x80
        && (0x80 <= c as int <= 0x8A || c as int == 0xA8 || c as int == 0xA9 || c as int == 0xAF))
    || (a as int == 0xE2 && b as int == 0x81 && c as int == 0x9F)
    || (a as int == 0xE3 && b as int == 0x80 && c as int == 0x80)
  }

  predicate IsAsciiSpace(c: char) {
    9 <= c as int <= 13 || c == ' '
  }

  /** Length of the space encoded at the front, 0 when the text does not start with one. */
  function SpaceAtFront(s: string): (n: nat)
    ensures n <= |s|
  {
    if |s| >= 1 && IsAsciiSpace(s[0]) then 1
    else if |s| >= 2 && IsSpace2(s[0], s[1]) then 2
    else if |s| >= 3 && IsSpace3(s[0], s[1], s[2]) then 3
    else 0
  }

  function SpaceAtBack(s: string): (n: nat)
    ensures n <= |s|
  {
    var k := |s|;
    if k >= 1 && IsAsciiSpace(s[k - 1]) then 1
    else if k >= 2 && IsSpace2(s[k - 2], s[k - 1]) then 2
    else if k >= 3 && IsSpace3(s[k - 3], s[k - 2], s[k - 1]) then 3
    else 0
  }

  function TrimLeft(s: string): string {
    if SpaceAtFront(s) == 0 then s else TrimLeft(s[SpaceAtFront(s)..])
  }

  function TrimRight(s: string): string {
    if SpaceAtBack(s) == 0 then s else TrimRight(s[..|s| - SpaceAtBack(s)])
  }

  function TrimSpace(s: string): string {
    TrimRight(TrimLeft(s))
  }

  /** Text that starts with a visible byte is not trimmed away. */
  lemma {:induction false} TrimRightKeepsText(s: string)
    requires s != "" && SpaceAtFront(s) == 0
    ensures TrimRight(s) != ""
  {
    var n := SpaceAtBack(s);
    if n > 0 {
      var t := s[..|s| - n];
      assert t != "";
      assert SpaceAtFront(t) == 0;
      TrimRightKeepsText(t);
    }
  }

  lemma {:induction false} TrimLeftClears(s: string)
    ensures SpaceAtFront(TrimLeft(s)) == 0
  {
    if SpaceAtFront(s) != 0 {
      TrimLeftClears(s[SpaceAtFront(s)..]);
    }
  }

  lemma {:induction false} TrimRightIsPrefix(s: string)
    ensures TrimRight(s) <= s
  {
    if SpaceAtBack(s) != 0 {
      TrimRightIsPrefix(s[..|s| - SpaceAtBack(s)]);
    }
  }

  /** What trimming returns starts with a visible byte, unless nothing is left. */
  lemma TrimmedStartsVisible(s: string)
    ensures SpaceAtFront(TrimSpace(s)) == 0
  {
    TrimLeftClears(s);
    TrimRightIsPrefix(TrimLeft(s));
    var t := TrimSpace(s);
    assert forall k | 0 <= k < |t| :: t[k] == TrimLeft(s)[k];
  }

  lemma {:induction false} TrimRightClears(s: string)
    ensures SpaceAtBack(TrimRight(s)) == 0
  {
    if SpaceAtBack(s) != 0 {
      TrimRightClears(s[..|s| - SpaceAtBack(s)]);
    }
  }

  /** Trimming leaves nothing to trim. */
  lemma TrimmedIsTrimmed(s: string)
    ensures TrimSpace(TrimSpace(s)) == TrimSpace(s)
  {
    TrimmedStartsVisible(s);
    TrimRightClears(TrimLeft(s));
    hide SpaceAtFront, SpaceAtBack;
  }

  // ----- lower-casing, exact up to comparison with an ASCII word

  function LowerChar(c: char): char {
    if 'A' <= c <= 'Z' then (c as int + 32) as char else c
  }

  /** ASCII letters are lowered, and so are the two other characters whose lower case is an ASCII
      letter: the Kelvin sign and the dotted capital I. */
  function ToLower(s: string): string {
    if s == "" then ""
    else if |s| >= 3 && s[0] as int == 0xE2 && s[1] as int == 0x84 && s[2] as int == 0xAA then "k" + ToLower(s[3..])
    else if |s| >= 2 && s[0] as int == 0xC4 && s[1] as int == 0xB0 then "i" + ToLower(s[2..])
    else [LowerChar(s[0])] + ToLower(s[1..])
  }

  // ----- searching

  /** The first position of a byte, or the length of the text when it does not occur. */
  function IndexByte(s: string, c: char): (i: nat)
    ensures i <= |s| && (i < |s| ==> s[i] == c) && c !in s[..i]
  {
    if s == "" then 0 else if s[0] == c then 0 else
    var i := 1 + IndexByte(s[1..], c);
    assert s[..i] == [s[0]] + s[1..][..i - 1];
    i
  }

  predicate HasPrefix(s: string, prefix: string) {
    prefix <= s
  }

  function TrimPrefix(s: string, prefix: string): string {
    if prefix <= s then s[|prefix|..] else s
  }

  /** The first position of a substring, or -1. */
  function Index(s: string, sub: string): (i: int)
    ensures -1 <= i
    ensures i >= 0 ==> i + |sub| <= |s| && s[i..i + |sub|] == sub
    decreases |s|
  {
    if sub <= s then 0
    else if s == "" then -1
    else
      var i := Index(s[1..], sub);
      if i < 0 then -1 else
      assert s[1..][i..i + |sub|] == s[i + 1..i + 1 + |sub|];
      i + 1
  }

  lemma {:induction false} IndexIsFirst(s: string, sub: string, at: nat)
    requires at + |sub| <= |s| && s[at..at + |sub|] == sub
    ensures 0 <= Index(s, sub) <= at
    decreases |s|
  {
    if !(sub <= s) {
      assert at > 0;
      assert s[1..][at - 1..at - 1 + |sub|] == s[at..at + |sub|];
      IndexIsFirst(s[1..], sub, at - 1);
    }
  }
}
