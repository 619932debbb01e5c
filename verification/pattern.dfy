/**
  * The regular expressions the collectors apply to command output, as a
  * sequence of literals and greedy runs of one character class, matched at
  * the leftmost position where the whole sequence matches.
  *
  * A run never gives characters back. For a pattern in which every run is
  * followed by a literal or run that cannot start with a character of its
  * class (or by the end of the pattern), this is exactly what the
  * JavaScript regex engine computes, including for lazy `.*?` followed by a
  * literal quote, which is written as a greedy run of non-quote characters.
  */
module Pattern {
  import opened Util
  import opened Text

  datatype Class =
    | Digit            // \d
    | Space            // \s
    | Word             // \w
    | DigitOrDot       // [\d\.]
    | SizeUnit         // [GMK]
    | Minus            // -
    | Blank            // a literal space, as in ` +`
    | NotComma         // [^,]
    | NotCommaOrSpace  // [^,\s]
    | NotQuoteInLine   // any character but '"' and the line terminators

  predicate InClass(c: char, k: Class)
  {
    match k
    case Digit => IsDigit(c)
    case Space => IsSpace(c)
    case Word => IsWordChar(c)
    case DigitOrDot => IsDigit(c) || c == '.'
    case SizeUnit => c == 'G' || c == 'M' || c == 'K'
    case Minus => c == '-'
    case Blank => c == ' '
    case NotComma => c != ','
    case NotCommaOrSpace => c != ',' && !IsSpace(c)
    case NotQuoteInLine => c != '"' && c != '\n' && c != '\r' && c != '\U{2028}' && c != '\U{2029}'
  }

  /** A literal, or a greedy run of a class: at least `least` characters,
      at most one when `atMostOne` (the `?` quantifier); `capture` makes the
      run a capturing group. */
  datatype Elem =
    | Lit(text: string)
    | Run(cls: Class, least: nat, atMostOne: bool, capture: bool)

  /** End of the greedy run of class k that starts at p. */
  function RunEnd(s: string, p: nat, k: Class, atMostOne: bool): (q: nat)
    requires p <= |s|
    ensures p <= q <= |s|
    ensures forall i :: p <= i < q ==> InClass(s[i], k)
    ensures q == |s| || !InClass(s[q], k) || (atMostOne && q == p + 1)
    ensures atMostOne ==> q <= p + 1
    decreases |s| - p
  {
    if p < |s| && InClass(s[p], k) then
      if atMostOne then p + 1 else RunEnd(s, p + 1, k, false)
    else p
  }

  /** The captured substrings when pat matches s at position p. */
  function MatchAt(s: string, p: nat, pat: seq<Elem>): Option<seq<string>>
    requires p <= |s|
    decreases |pat|
  {
    if pat == [] then Some([])
    else match pat[0]
      case Lit(t) =>
        if StartsWith(s[p..], t) then MatchAt(s, p + |t|, pat[1..]) else None
      case Run(k, least, one, cap) =>
        var q := RunEnd(s, p, k, one);
        if q - p < least then None
        else match MatchAt(s, q, pat[1..])
          case None => None
          case Some(caps) => Some(if cap then [s[p..q]] + caps else caps)
  }

  /** The leftmost match of pat in s at or after position p. */
  function SearchFrom(s: string, p: nat, pat: seq<Elem>): Option<seq<string>>
    requires p <= |s|
    decreases |s| - p
  {
    var m := MatchAt(s, p, pat);
    if m.Some? || p == |s| then m else SearchFrom(s, p + 1, pat)
  }

  /** The position where the search stops: the leftmost position at or
      after p where the pattern matches, or the end of s when there is
      none. The search returns the match found there. */
  function MatchPosition(s: string, p: nat, pat: seq<Elem>): (q: nat)
    requires p <= |s|
    ensures p <= q <= |s|
    ensures SearchFrom(s, p, pat) == MatchAt(s, q, pat)
    ensures forall q' :: p <= q' < q ==> MatchAt(s, q', pat).None?
    ensures q < |s| ==> MatchAt(s, q, pat).Some?
    decreases |s| - p
  {
    if MatchAt(s, p, pat).Some? || p == |s| then p else MatchPosition(s, p + 1, pat)
  }

  function Search(s: string, pat: seq<Elem>): Option<seq<string>>
  {
    SearchFrom(s, 0, pat)
  }

  /** A pattern that opens with a literal is found only in a text that
      contains the literal. */
  lemma LiteralFirst(s: string, t: string, rest: seq<Elem>)
    requires Search(s, [Lit(t)] + rest).Some?
    ensures Contains(s, t)
  {
    var pat := [Lit(t)] + rest;
    var q := MatchPosition(s, 0, pat);
    assert pat[0] == Lit(t);
    ContainsAt(s, q, t);
  }

  /** The capturing runs of pat, in order. */
  function Groups(pat: seq<Elem>): (g: seq<Elem>)
    ensures forall i :: 0 <= i < |g| ==> g[i].Run?
  {
    if pat == [] then []
    else if pat[0].Run? && pat[0].capture then [pat[0]] + Groups(pat[1..])
    else Groups(pat[1..])
  }

  lemma {:induction false} GroupsAppend(a: seq<Elem>, b: seq<Elem>)
    ensures Groups(a + b) == Groups(a) + Groups(b)
    decreases |a|
  {
    if a != [] {
      assert (a + b)[0] == a[0];
      assert (a + b)[1..] == a[1..] + b;
      GroupsAppend(a[1..], b);
    } else {
      assert a + b == b;
    }
  }

  /** A captured substring fits the run that captured it. */
  predicate Fits(text: string, e: Elem)
    requires e.Run?
  {
    |text| >= e.least && (e.atMostOne ==> |text| <= 1)
    && forall i :: 0 <= i < |text| ==> InClass(text[i], e.cls)
  }

  lemma {:induction false} MatchGroups(s: string, p: nat, pat: seq<Elem>)
    requires p <= |s|
    requires MatchAt(s, p, pat).Some?
    ensures |MatchAt(s, p, pat).value| == |Groups(pat)|
    ensures forall i :: 0 <= i < |Groups(pat)| ==> Fits(MatchAt(s, p, pat).value[i], Groups(pat)[i])
    decreases |pat|
  {
    if pat != [] {
      match pat[0]
      case Lit(t) =>
        MatchGroups(s, p + |t|, pat[1..]);
      case Run(k, least, one, cap) =>
        var q := RunEnd(s, p, k, one);
        MatchGroups(s, q, pat[1..]);
        if cap {
          var caps := MatchAt(s, q, pat[1..]).value;
          assert MatchAt(s, p, pat).value == [s[p..q]] + caps;
          assert Groups(pat) == [pat[0]] + Groups(pat[1..]);
          assert Fits(s[p..q], pat[0]);
        }
    }
  }

  lemma SearchGroups(s: string, pat: seq<Elem>)
    requires Search(s, pat).Some?
    ensures |Search(s, pat).value| == |Groups(pat)|
    ensures forall i :: 0 <= i < |Groups(pat)| ==> Fits(Search(s, pat).value[i], Groups(pat)[i])
  {
    MatchGroups(s, MatchPosition(s, 0, pat), pat);
  }

  /** `s.match(re)?.[1]` for a pattern with at least one group. */
  function FirstGroup(s: string, pat: seq<Elem>): (r: Option<string>)
    requires |Groups(pat)| >= 1
    ensures r.Some? ==> Fits(r.value, Groups(pat)[0])
  {
    var m := Search(s, pat);
    if m.None? then None
    else
      SearchGroups(s, pat);
      Some(m.value[0])
  }

  /** `label\s*(\d+)`: the number written after the first occurrence of the
      label that is followed by digits. */
  function NumberAfter(tag: string): (pat: seq<Elem>)
    ensures Groups(pat) == [Run(Digit, 1, false, true)]
  {
    var p := [Lit(tag), Run(Space, 0, false, false), Run(Digit, 1, false, true)];
    assert Groups(p[1..][1..][1..]) == [];
    assert Groups(p[1..][1..]) == [Run(Digit, 1, false, true)];
    p
  }

  /** `parseInt` of the first group of a pattern whose first group is a run
      of digits. */
  function FirstNumber(s: string, pat: seq<Elem>): (r: Option<nat>)
    requires |Groups(pat)| >= 1 && Groups(pat)[0].cls == Digit && Groups(pat)[0].least >= 1
    ensures r.Some? <==> FirstGroup(s, pat).Some?
  {
    match FirstGroup(s, pat)
    case None => None
    case Some(g) => Some(DigitsValue(g))
  }

  /** The number is what parseInt reads from the captured digits. */
  lemma FirstNumberParses(s: string, pat: seq<Elem>)
    requires |Groups(pat)| >= 1 && Groups(pat)[0].cls == Digit && Groups(pat)[0].least >= 1
    requires FirstNumber(s, pat).Some?
    ensures IsDigits(FirstGroup(s, pat).value)
    ensures ParseInt(FirstGroup(s, pat).value) == Some(FirstNumber(s, pat).value as int)
  {
    ParseIntOfDigits(FirstGroup(s, pat).value);
  }
}
