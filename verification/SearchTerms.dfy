/** The full-text payload of a parsed query, told from its positive terms. */
module SearchTerms {
  import opened Prelude
  import opened SearchText
  import opened SearchScanner
  import opened SearchParse

  // ----- what the full text holds

  /** The values with a space between each two. */
  function Spaced(values: seq<string>): string {
    if values == [] then "" else if |values| == 1 then values[0]
    else Spaced(values[..|values| - 1]) + " " + values[|values| - 1]
  }

  function Values(terms: seq<Term>): seq<string> {
    seq(|terms|, k requires 0 <= k < |terms| => terms[k].value)
  }

  lemma {:induction false} JoinIsSpaced(values: seq<string>)
    ensures Join(values) == Spaced(values)
  {
    if |values| == 2 {
      assert values[1..] == [values[1]] && values[..1] == [values[0]];
    } else if |values| > 2 {
      var rest, init := values[1..], values[..|values| - 1];
      JoinIsSpaced(rest);
      JoinIsSpaced(init);
      assert rest[..|rest| - 1] == init[1..];
      JoinIsSpaced(rest[..|rest| - 1]);
    }
  }

  /** The position of the first quoted term, or the number of terms. */
  function FirstPhrase(terms: seq<Term>): (k: nat)
    ensures k <= |terms| && (k < |terms| ==> terms[k].phrase) && forall j | 0 <= j < k :: !terms[j].phrase
  {
    if terms == [] then 0
    else
      var init := terms[..|terms| - 1];
      var k := FirstPhrase(init);
      if k < |init| || terms[|init|].phrase then k else |terms|
  }

  /** The terms without the first quoted one. */
  function WithoutPhrase(terms: seq<Term>): seq<Term> {
    Without(terms, FirstPhrase(terms))
  }

  function Without(terms: seq<Term>, k: nat): seq<Term> {
    if k < |terms| then terms[..k] + terms[k + 1..] else terms
  }

  lemma WithoutOneMore(terms: seq<Term>, t: Term, k: nat)
    ensures k < |terms| ==> Without(terms + [t], k) == Without(terms, k) + [t]
    ensures k == |terms| ==> Without(terms + [t], k) == terms
    ensures k > |terms| ==> Without(terms + [t], k) == terms + [t]
    ensures k >= |terms| ==> Without(terms, k) == terms
  {
  }

  lemma FirstPhraseOneMore(terms: seq<Term>, t: Term)
    ensures var k := FirstPhrase(terms);
      FirstPhrase(terms + [t]) == if k < |terms| || t.phrase then k else |terms| + 1
  {
    assert (terms + [t])[..|terms|] == terms;
  }

  lemma OneMoreTerm(terms: seq<Term>, t: Term)
    ensures var more, k := terms + [t], FirstPhrase(terms);
      && FirstPhrase(more) == (if k < |terms| || t.phrase then k else |terms| + 1)
      && WithoutPhrase(more) == WithoutPhrase(terms) + (if k < |terms| || !t.phrase then [t] else [])
  {
    hide FirstPhrase, Without;
    FirstPhraseOneMore(terms, t);
    var k := FirstPhrase(terms);
    WithoutOneMore(terms, t, k);
    WithoutOneMore(terms, t, |terms| + 1);
    var rest := Without(terms, k);
    assert rest + [] == rest;
  }

  lemma ValuesOneMore(terms: seq<Term>, t: Term)
    ensures Values(terms + [t]) == Values(terms) + [t.value] && Values(terms + []) == Values(terms)
  {
    assert terms + [] == terms;
  }

  /** The phrase is the first quoted positive term, the free text all the others. */
  ghost predicate Holds(p: Partial, terms: seq<Term>) {
    var k := FirstPhrase(terms);
    p.q.phrase == (if k < |terms| then terms[k].value else "") && p.freeText == Values(WithoutPhrase(terms))
  }

  lemma TermHolds(p: Partial, terms: seq<Term>, token: Token)
    requires Holds(p, terms) && !token.negated && token.value != "" && forall t | t in terms :: t.value != ""
    ensures Holds(AddTerm(p, token), terms + [Term(token.value, token.quoted, token.negated)])
  {
    var t := Term(token.value, token.quoted, token.negated);
    OneMoreTerm(terms, t);
    ValuesOneMore(WithoutPhrase(terms), t);
    hide WithoutPhrase, Values;
  }

  lemma {:induction false} TokensHold(tokens: seq<Token>)
    requires forall t | t in tokens :: t.value != ""
    ensures Holds(AddTokens(tokens), TermsOf(tokens, false)) && forall t | t in TermsOf(tokens, false) :: t.value != ""
  {
    hide SplitQualifier, ApplyQualifier, KeyNamed, SetFilter;
    if tokens != [] {
      var init, last := tokens[..|tokens| - 1], tokens[|tokens| - 1];
      TokensHold(init);
      TokenHolds(AddTokens(init), TermsOf(init, false), last);
    }
  }

  lemma TokenHolds(p: Partial, terms: seq<Term>, token: Token)
    requires Holds(p, terms) && token.value != "" && forall t | t in terms :: t.value != ""
    ensures var one := if AsQualifier(token).None? && !token.negated
        then [Term(token.value, token.quoted, token.negated)] else [];
      Holds(AddToken(p, token), terms + one)
  {
    hide SetFilter, KeyNamed, SplitQualifier, Holds;
    var split := SplitQualifier(token.value);
    assert terms + [] == terms;
    if split.Some? {
      QualifierKeepsText(p.q, split.value.0, split.value.1, token.negated);
      AcceptanceIsStateless(p.q.filters, NO_FILTERS, split.value.0, split.value.1);
    }
    if AsQualifier(token).None? && !token.negated {
      TermHolds(p, terms, token);
    } else {
      SamePhraseHolds(p, AddToken(p, token), terms);
    }
  }

  lemma SamePhraseHolds(p: Partial, n: Partial, terms: seq<Term>)
    requires Holds(p, terms) && n.q.phrase == p.q.phrase && n.freeText == p.freeText
    ensures Holds(n, terms)
  {
  }

  /** Values without space at either end stay so when they are spaced. */
  lemma {:induction false} SpacedIsTrimmed(values: seq<string>)
    requires values != [] && forall v | v in values :: v != "" && SpaceAtFront(v) == 0 && SpaceAtBack(v) == 0
    ensures Spaced(values) != "" && SpaceAtFront(Spaced(values)) == 0 && SpaceAtBack(Spaced(values)) == 0
  {
    hide SpaceAtFront, SpaceAtBack;
    assert values[|values| - 1] in values;
    if |values| > 1 {
      var init := values[..|values| - 1];
      forall v | v in init ensures v in values {
      }
      SpacedIsTrimmed(init);
      SpacePutsNoSpace(Spaced(init), values[|values| - 1]);
    }
  }

  lemma SpacePutsNoSpace(s: string, t: string)
    requires s != "" && t != "" && SpaceAtFront(s) == 0 && SpaceAtBack(t) == 0
    ensures SpaceAtFront(s + " " + t) == 0 && SpaceAtBack(s + " " + t) == 0
  {
  }

  lemma TrimmedHasNoSpace(s: string)
    requires TrimSpace(s) == s
    ensures SpaceAtFront(s) == 0 && SpaceAtBack(s) == 0
  {
    TrimmedStartsVisible(s);
    TrimRightClears(TrimLeft(s));
    hide SpaceAtFront, SpaceAtBack;
  }

  lemma TextIsSpaced(values: seq<string>)
    requires forall v | v in values :: v != "" && TrimSpace(v) == v
    ensures TrimSpace(Join(values)) == Spaced(values)
  {
    JoinIsSpaced(values);
    if values != [] {
      forall v | v in values ensures SpaceAtFront(v) == 0 && SpaceAtBack(v) == 0 {
        TrimmedHasNoSpace(v);
      }
      SpacedIsTrimmed(values);
    }
  }

  lemma {:induction false} TermsAreTokens(tokens: seq<Token>)
    requires forall t | t in tokens :: t.value != "" && TrimSpace(t.value) == t.value
    ensures forall t | t in TermsOf(tokens, false) :: t.value != "" && TrimSpace(t.value) == t.value
  {
    hide TrimSpace, AsQualifier;
    if tokens != [] {
      TermsAreTokens(tokens[..|tokens| - 1]);
    }
  }

  lemma ScannedAreTrimmed(s: string)
    ensures forall t | t in Scan(s) :: t.value != "" && TrimSpace(t.value) == t.value
  {
    var tokens := Scan(s);
    forall t | t in tokens ensures t.value != "" && TrimSpace(t.value) == t.value {
      var k :| 0 <= k < |tokens| && tokens[k] == t;
      TokensAreVisible(s, k);
    }
  }

  lemma WithoutKeeps(terms: seq<Term>, k: nat)
    requires forall t | t in terms :: t.value != "" && TrimSpace(t.value) == t.value
    ensures forall v | v in Values(Without(terms, k)) :: v != "" && TrimSpace(v) == v
  {
    hide TrimSpace;
    var others := Without(terms, k);
    forall v | v in Values(others) ensures v != "" && TrimSpace(v) == v {
      var k :| 0 <= k < |others| && v == others[k].value;
      assert others[k] in terms;
    }
  }

  lemma ParsedText(raw: string)
    ensures var q, terms := Parse(raw), TermsOf(Scan(Cut(raw)), false);
      var k := FirstPhrase(terms);
      && q.phrase == (if k < |terms| then terms[k].value else "")
      && q.text == Spaced(Values(WithoutPhrase(terms)))
  {
    var tokens := Scan(Cut(raw));
    var terms := TermsOf(tokens, false);
    ScannedAreTrimmed(Cut(raw));
    hide Scan, Cut, TrimSpace, AddTokens, Join, Spaced, TermsOf, FirstPhrase, Values, Without;
    TokensHold(tokens);
    TermsAreTokens(tokens);
    WithoutKeeps(terms, FirstPhrase(terms));
    TextIsSpaced(Values(WithoutPhrase(terms)));
  }

  lemma FirstPhraseIs(terms: seq<Term>, k: nat)
    requires k <= |terms| && (k < |terms| ==> terms[k].phrase) && forall j | 0 <= j < k :: !terms[j].phrase
    ensures FirstPhrase(terms) == k
  {
  }

  /** What a text searches for: the phrase is the first quoted term, and the text all other positive terms
      in order with a space between each two; without a quoted term the phrase is empty. */
  lemma TextAndPhrase(raw: string)
    ensures var q, terms := Parse(raw), TermsOf(Scan(Cut(raw)), false);
      && (forall k | 0 <= k < |terms| && terms[k].phrase && (forall j | 0 <= j < k :: !terms[j].phrase) ::
            q.phrase == terms[k].value && q.text == Spaced(Values(terms[..k] + terms[k + 1..])))
      && ((forall k | 0 <= k < |terms| :: !terms[k].phrase) ==> q.phrase == "" && q.text == Spaced(Values(terms)))
  {
    ParsedText(raw);
    var terms := TermsOf(Scan(Cut(raw)), false);
    hide Parse, Scan, Cut, TermsOf, Spaced, Values;
    forall k | 0 <= k < |terms| && terms[k].phrase && forall j | 0 <= j < k :: !terms[j].phrase
      ensures FirstPhrase(terms) == k
    {
      FirstPhraseIs(terms, k);
    }
  }
}
