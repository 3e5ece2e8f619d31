/** The query scanner: tokens separated by spaces, optional leading minus, double quotes that may
    open and close anywhere in a token, and backslash escapes inside quotes. */
module SearchScanner {
  import opened SearchText

  datatype Token = Token(value: string, quoted: bool, negated: bool)

  predicate IsSearchSpace(c: char) {
    c == ' ' || c == '\t' || c == '\n' || c == '\r'
  }

  function SkipSpaces(s: string): (t: string)
    ensures |t| <= |s| && (t != "" ==> !IsSearchSpace(t[0]))
  {
    if s != "" && IsSearchSpace(s[0]) then SkipSpaces(s[1..]) else s
  }

  datatype Scanned = Scanned(value: string, quoted: bool, rest: string)

  function Prepend(text: string, b: Scanned): Scanned {
    Scanned(text + b.value, b.quoted, b.rest)
  }

  lemma PrependMore(text: string, c: char, b: Scanned)
    ensures Prepend(text, Prepend([c], b)) == Prepend(text + [c], b)
  {
    assert text + ([c] + b.value) == text + [c] + b.value;
  }

  /** One token's text from here on, whether a quote was seen, and what follows the token. */
  function Body(s: string, quoted: bool, inQuote: bool): (b: Scanned)
    ensures |b.rest| <= |s|
    ensures s != "" && !(!inQuote && IsSearchSpace(s[0])) ==> |b.rest| < |s|
  {
    if s == "" then Scanned("", quoted, "")
    else if s[0] == '"' then Body(s[1..], true, !inQuote)
    else if !inQuote && IsSearchSpace(s[0]) then Scanned("", quoted, s)
    else if inQuote && s[0] == '\\' && |s| > 1 then
      Prepend([s[1]], Body(s[2..], quoted, inQuote))
    else
      Prepend([s[0]], Body(s[1..], quoted, inQuote))
  }

  function Emit(value: string, quoted: bool, negated: bool): seq<Token> {
    var trimmed := TrimSpace(value);
    if trimmed != "" then [Token(trimmed, quoted, negated)] else []
  }

  /** Every token of a query, in order. */
  function Scan(s: string): seq<Token>
    decreases |s|
  {
    var t := SkipSpaces(s);
    if t == "" then [] else
    var negated := t[0] == '-';
    var b := Body(if negated then t[1..] else t, false, false);
    Emit(b.value, b.quoted, negated) + Scan(b.rest)
  }

  /** The token text at an index, one byte at a time. */
  lemma BodyAt(raw: string, i: nat, quoted: bool, inQuote: bool)
    requires i <= |raw|
    ensures var here := Body(raw[i..], quoted, inQuote);
            if i == |raw| then here == Scanned("", quoted, "")
            else if raw[i] == '"' then here == Body(raw[i + 1..], true, !inQuote)
            else if !inQuote && IsSearchSpace(raw[i]) then here == Scanned("", quoted, raw[i..])
            else if inQuote && raw[i] == '\\' && i + 1 < |raw| then
              here == Prepend([raw[i + 1]], Body(raw[i + 2..], quoted, inQuote))
            else here == Prepend([raw[i]], Body(raw[i + 1..], quoted, inQuote))
  {
    if i < |raw| {
      assert raw[i..][0] == raw[i] && raw[i..][1..] == raw[i + 1..];
      if i + 1 < |raw| {
        assert raw[i..][2..] == raw[i + 2..];
      }
    }
  }

  /** The scanner's loop over one token, from index `first`. */
  method ScanBody(raw: string, first: nat) returns (value: string, quoted: bool, next: nat)
    requires first <= |raw|
    ensures first <= next <= |raw|
    ensures Body(raw[first..], false, false) == Scanned(value, quoted, raw[next..])
  {
    hide Body;
    var i := first;
    value, quoted := "", false;
    var inQuote := false;
    ghost var whole := Body(raw[first..], false, false);
    while i < |raw|
      invariant first <= i <= |raw|
      invariant whole == Prepend(value, Body(raw[i..], quoted, inQuote))
    {
      var ch := raw[i];
      BodyAt(raw, i, quoted, inQuote);
      if ch == '"' {
        quoted := true;
        inQuote := !inQuote;
        i := i + 1;
        continue;
      }
      if !inQuote && IsSearchSpace(ch) {
        break;
      }
      if inQuote && ch == '\\' && i + 1 < |raw| {
        i := i + 1;
        PrependMore(value, raw[i], Body(raw[i + 1..], quoted, inQuote));
        value := value + [raw[i]];
        i := i + 1;
        continue;
      }
      PrependMore(value, ch, Body(raw[i + 1..], quoted, inQuote));
      value := value + [ch];
      i := i + 1;
    }
    next := i;
    BodyAt(raw, i, quoted, inQuote);
    assert value + "" == value;
  }

  /** How the scan unfolds at the first byte of a token. */
  lemma ScanToken(s: string, t: string)
    requires t == SkipSpaces(s) && t != ""
    ensures var negated := t[0] == '-';
            var b := Body(if negated then t[1..] else t, false, false);
            Scan(s) == Emit(b.value, b.quoted, negated) + Scan(b.rest)
  {}

  /** The scanner's loops over an index into the raw bytes. */
  method ScanQueryTokens(raw: string) returns (tokens: seq<Token>)
    ensures tokens == Scan(raw)
  {
    hide Body, Scan, TrimSpace;
    tokens := [];
    var i := 0;
    assert raw[0..] == raw;
    while i < |raw|
      invariant 0 <= i <= |raw|
      invariant tokens + Scan(raw[i..]) == Scan(raw)
    {
      ghost var start := i;
      while i < |raw| && IsSearchSpace(raw[i])
        invariant start <= i <= |raw|
        invariant SkipSpaces(raw[i..]) == SkipSpaces(raw[start..])
      {
        assert raw[i..][1..] == raw[i + 1..];
        i := i + 1;
      }
      if i >= |raw| {
        assert SkipSpaces(raw[start..]) == "";
        NothingLeft(raw[start..]);
        return;
      }
      ghost var t := raw[i..];
      ScanToken(raw[start..], t);
      var negated := false;
      ghost var from := i;
      if raw[i] == '-' {
        negated := true;
        i := i + 1;
      }
      assert raw[i..] == if negated then t[1..] else t;
      var value, quoted, next := ScanBody(raw, i);
      assert next > from by {
        BodyConsumes(if negated then t[1..] else t, negated);
      }
      var trimmed := TrimSpace(value);
      if trimmed != "" {
        tokens := tokens + [Token(trimmed, quoted, negated)];
      }
      i := next;
    }
    NothingLeft(raw[i..]);
  }

  lemma NothingLeft(s: string)
    requires SkipSpaces(s) == ""
    ensures Scan(s) == []
  {}

  lemma BodyConsumes(s: string, negated: bool)
    requires negated || (s != "" && !IsSearchSpace(s[0]))
    ensures |Body(s, false, false).rest| <= |s|
    ensures !negated ==> |Body(s, false, false).rest| < |s|
  {}

  // ----- the printer and the round trip

  function Escape(value: string): string {
    if value == "" then ""
    else if value[0] == '"' || value[0] == '\\' then ['\\', value[0]] + Escape(value[1..])
    else [value[0]] + Escape(value[1..])
  }

  function Print(token: Token): string {
    (if token.negated then "-" else "") + "\"" + Escape(token.value) + "\""
  }

  function PrintAll(tokens: seq<Token>): string {
    if tokens == [] then ""
    else if |tokens| == 1 then Print(tokens[0])
    else Print(tokens[0]) + " " + PrintAll(tokens[1..])
  }

  /** A token the printer can show: quoted, and with a non-empty trimmed value. */
  predicate Printable(token: Token) {
    token.quoted && token.value != "" && TrimSpace(token.value) == token.value
  }

  lemma {:induction false} BodyReadsEscaped(value: string, rest: string)
    requires rest == "" || IsSearchSpace(rest[0])
    ensures Body(Escape(value) + "\"" + rest, true, true) == Scanned(value, true, rest)
  {
    hide Body;
    var s := Escape(value) + "\"" + rest;
    BodyAt(s, 0, true, true);
    assert s[0..] == s;
    if value == "" {
      assert s[1..] == rest;
      BodyAt(rest, 0, true, false);
      assert rest[0..] == rest;
    } else {
      BodyReadsEscaped(value[1..], rest);
      var tail := Escape(value[1..]) + "\"" + rest;
      if value[0] == '"' || value[0] == '\\' {
        assert s == ['\\', value[0]] + tail;
        assert s[2..] == tail;
      } else {
        assert s == [value[0]] + tail;
        assert s[1..] == tail;
      }
      assert [value[0]] + value[1..] == value;
    }
  }

  lemma ScanReadsPrinted(token: Token, rest: string)
    requires Printable(token) && (rest == "" || IsSearchSpace(rest[0]))
    ensures Scan(Print(token) + rest) == [token] + Scan(rest)
  {
    hide Scan, TrimSpace, Escape;
    var s := Print(token) + rest;
    var body := Escape(token.value) + "\"" + rest;
    var text := if token.negated then s[1..] else s;
    assert text == "\"" + body;
    assert text[1..] == body;
    BodyReadsEscaped(token.value, rest);
    assert Body(text, false, false) == Body(body, true, true);
    assert SkipSpaces(s) == s;
    ScanToken(s, s);
  }

  /** Printing tokens and scanning the text returns the same tokens in the same order. */
  lemma {:induction false} RoundTrip(tokens: seq<Token>)
    requires forall t | t in tokens :: Printable(t)
    ensures Scan(PrintAll(tokens)) == tokens
  {
    hide Scan, TrimSpace, Escape, Print;
    if |tokens| <= 1 {
      NothingLeft("");
    }
    if |tokens| == 1 {
      ScanReadsPrinted(tokens[0], "");
      assert Print(tokens[0]) + "" == Print(tokens[0]);
    } else if |tokens| > 1 {
      RoundTrip(tokens[1..]);
      var rest := " " + PrintAll(tokens[1..]);
      ScanReadsPrinted(tokens[0], rest);
      assert Print(tokens[0]) + rest == PrintAll(tokens);
      SpaceBeforeTokens(PrintAll(tokens[1..]));
    }
  }

  lemma SpaceBeforeTokens(s: string)
    ensures Scan(" " + s) == Scan(s)
  {
    assert (" " + s)[1..] == s;
  }

  /** Every token carries a non-empty trimmed value. */
  lemma {:induction false} TokensAreVisible(s: string, k: nat)
    requires k < |Scan(s)|
    ensures Scan(s)[k].value != "" && TrimSpace(Scan(s)[k].value) == Scan(s)[k].value
    ensures SpaceAtFront(Scan(s)[k].value) == 0
    decreases |s|
  {
    hide Scan, Body, TrimSpace;
    var t := SkipSpaces(s);
    if t == "" { NothingLeft(s); }
    ScanToken(s, t);
    var negated := t[0] == '-';
    var b := Body(if negated then t[1..] else t, false, false);
    BodyConsumes(if negated then t[1..] else t, negated);
    var first := Emit(b.value, b.quoted, negated);
    TrimmedStartsVisible(b.value);
    TrimmedIsTrimmed(b.value);
    if k >= |first| {
      TokensAreVisible(b.rest, k - |first|);
    }
  }

  /** The tokens as the printer writes them, in quotes. */
  function Quoted(tokens: seq<Token>): seq<Token> {
    seq(|tokens|, i requires 0 <= i < |tokens| => tokens[i].(quoted := true))
  }

  /** Printing what any text scans to, and scanning again, keeps every value and sign. */
  lemma RescanKeepsTokens(s: string)
    ensures Scan(PrintAll(Scan(s))) == Quoted(Scan(s))
  {
    hide Scan, TrimSpace, Print;
    var tokens := Scan(s);
    forall t | t in Quoted(tokens) ensures Printable(t) {
      var k :| 0 <= k < |tokens| && t == tokens[k].(quoted := true);
      TokensAreVisible(s, k);
    }
    RoundTrip(Quoted(tokens));
    PrintIgnoresQuotes(tokens);
  }

  lemma {:induction false} PrintIgnoresQuotes(tokens: seq<Token>)
    ensures PrintAll(Quoted(tokens)) == PrintAll(tokens)
  {
    hide Escape;
    if tokens != [] {
      PrintIgnoresQuotes(tokens[1..]);
      assert Quoted(tokens)[1..] == Quoted(tokens[1..]);
    }
  }
}
