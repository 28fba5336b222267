/**
  The pieces of Go's `strings` and `strconv` packages that the notifiers rely on:
  prefix tests, trimming by a cutset, `strings.TrimSpace`, and the decimal rendering
  of an `int` produced by both `strconv.Itoa` and `fmt.Sprintf("%d", ...)`.
  `ParseInt` is a reference decoder, not used by the notifiers, that pins down
  what the rendering means.
 */
module GoStrings {
  import opened Wrappers

  predicate HasPrefix(s: string, prefix: string) {
    |prefix| <= |s| && s[..|prefix|] == prefix
  }

  predicate HasSuffix(s: string, suffix: string) {
    |suffix| <= |s| && s[|s| - |suffix|..] == suffix
  }

  /** Every character of `s` is in `cutset`. */
  predicate AllIn(s: string, cutset: set<char>) {
    forall i :: 0 <= i < |s| ==> s[i] in cutset
  }

  /*
    A Go cutset string is modelled by the set of its characters: only membership in
    it matters to the trimming functions.
   */

  /** `strings.TrimRight(s, cutset)`: drops the longest suffix made of cutset characters. */
  function TrimRight(s: string, cutset: set<char>): (r: string)
    ensures |r| <= |s| && r == s[..|r|]
    ensures AllIn(s[|r|..], cutset)
    ensures r == [] || r[|r| - 1] !in cutset
    decreases |s|
  {
    if s != [] && s[|s| - 1] in cutset then
      var r := TrimRight(s[..|s| - 1], cutset);
      assert s[|r|..] == s[..|s| - 1][|r|..] + [s[|s| - 1]];
      r
    else s
  }

  /** `strings.TrimLeft(s, cutset)`: drops the longest prefix made of cutset characters. */
  function TrimLeft(s: string, cutset: set<char>): (r: string)
    ensures |r| <= |s| && r == s[|s| - |r|..]
    ensures AllIn(s[..|s| - |r|], cutset)
    ensures r == [] || r[0] !in cutset
    decreases |s|
  {
    if s != [] && s[0] in cutset then TrimLeft(s[1..], cutset) else s
  }

  /**
    `strings.Trim(s, cutset)`: both ends trimmed. The result is empty exactly when
    `s` is made of cutset characters only, and a string whose ends are already
    outside the cutset comes back unchanged.
   */
  function Trim(s: string, cutset: set<char>): (r: string)
    ensures |r| <= |s|
    ensures r == [] || (r[0] !in cutset && r[|r| - 1] !in cutset)
    ensures r == [] <==> AllIn(s, cutset)
    ensures (s == [] || (s[0] !in cutset && s[|s| - 1] !in cutset)) ==> r == s
  {
    var left := TrimLeft(s, cutset);
    assert s == s[..|s| - |left|] + left;
    TrimRight(left, cutset)
  }

  /**
    `r` occurs in `s` at `i`, and every character of `s` before and after that
    occurrence is in `cutset`.
   */
  predicate TrimmedFrom(s: string, i: int, r: string, cutset: set<char>) {
    && 0 <= i && i + |r| <= |s|
    && r == s[i..i + |r|]
    && AllIn(s[..i], cutset)
    && AllIn(s[i + |r|..], cutset)
  }

  /**
    A prefix `r` of a suffix `left` of `s`, where `left` follows cutset characters
    and `r` is followed by them in `left`, is trimmed from `s` at the start of `left`.
   */
  lemma {:induction false} PrefixOfSuffix(s: string, left: string, r: string, cutset: set<char>)
    requires |left| <= |s| && left == s[|s| - |left|..]
    requires AllIn(s[..|s| - |left|], cutset)
    requires |r| <= |left| && r == left[..|r|]
    requires AllIn(left[|r|..], cutset)
    ensures TrimmedFrom(s, |s| - |left|, r, cutset)
  {
    var i := |s| - |left|;
    assert s[i + |r|..] == left[|r|..];
  }

  /**
    What `Trim` keeps: the input from the first character `TrimLeft` keeps, minus a
    suffix; everything removed before and after it is cutset characters. With the
    ends of the result outside the cutset, this fixes the result.
   */
  lemma TrimKeepsMiddle(s: string, cutset: set<char>)
    ensures TrimmedFrom(s, |s| - |TrimLeft(s, cutset)|, Trim(s, cutset), cutset)
  {
    var left := TrimLeft(s, cutset);
    var r := TrimRight(left, cutset);
    assert Trim(s, cutset) == r;
    PrefixOfSuffix(s, left, r, cutset);
  }

  /** The characters Go's `unicode.IsSpace` accepts. */
  const WhiteSpace: set<char> := {
    '\t', '\n', '\U{0B}', '\U{0C}', '\r', ' ', '\U{85}', '\U{A0}', '\U{1680}',
    '\U{2000}', '\U{2001}', '\U{2002}', '\U{2003}', '\U{2004}', '\U{2005}',
    '\U{2006}', '\U{2007}', '\U{2008}', '\U{2009}', '\U{200A}',
    '\U{2028}', '\U{2029}', '\U{202F}', '\U{205F}', '\U{3000}'
  }

  /** `strings.TrimSpace`: leading and trailing white space removed. */
  function TrimSpace(s: string): (r: string)
    ensures r == [] || (r[0] !in WhiteSpace && r[|r| - 1] !in WhiteSpace)
    ensures r == [] <==> AllIn(s, WhiteSpace)
  {
    Trim(s, WhiteSpace)
  }

  /** `TrimSpace` keeps the input minus its leading and trailing white space. */
  lemma TrimSpaceKeepsMiddle(s: string)
    ensures TrimmedFrom(s, |s| - |TrimLeft(s, WhiteSpace)|, TrimSpace(s), WhiteSpace)
  {
    TrimKeepsMiddle(s, WhiteSpace);
  }

  const Digits: string := "0123456789"
  const DigitSet: set<char> := {'0', '1', '2', '3', '4', '5', '6', '7', '8', '9'}

  /** Decimal digits of a natural number, most significant first, no leading zero. */
  function NatToDecimal(n: nat): (r: string)
    ensures r != [] && AllIn(r, DigitSet)
    ensures r == "0" <==> n == 0
    ensures |r| > 1 ==> r[0] != '0'
  {
    if n < 10 then [Digits[n]] else NatToDecimal(n / 10) + [Digits[n % 10]]
  }

  /** `strconv.Itoa(n)`, which is also what `fmt.Sprintf("%d", n)` gives for an `int`. */
  function Itoa(n: int): (r: string)
    ensures r != []
    ensures r[0] == '-' <==> n < 0
  {
    if n < 0 then "-" + NatToDecimal(-n) else NatToDecimal(n)
  }

  /** Value of a digit character. */
  function DigitValue(c: char): (d: nat)
    requires c in DigitSet
    ensures d < 10 && Digits[d] == c
  {
    if c == '0' then 0 else if c == '1' then 1 else if c == '2' then 2
    else if c == '3' then 3 else if c == '4' then 4 else if c == '5' then 5
    else if c == '6' then 6 else if c == '7' then 7 else if c == '8' then 8 else 9
  }

  /** Value of a string of decimal digits. */
  function DecimalValue(s: string): nat
    requires AllIn(s, DigitSet)
  {
    if s == [] then 0 else 10 * DecimalValue(s[..|s| - 1]) + DigitValue(s[|s| - 1])
  }

  /** Reference decoder: an optional `-` followed by one or more decimal digits. */
  function ParseInt(s: string): Option<int> {
    if s != [] && s[0] == '-' then
      (if |s| > 1 && AllIn(s[1..], DigitSet) then var v: int := DecimalValue(s[1..]); Some(-v) else None)
    else if s != [] && AllIn(s, DigitSet) then Some(DecimalValue(s))
    else None
  }

  lemma {:induction false} DecimalValueOfNat(n: nat)
    ensures DecimalValue(NatToDecimal(n)) == n
  {
    if n >= 10 {
      DecimalValueOfNat(n / 10);
      var s := NatToDecimal(n);
      assert s[..|s| - 1] == NatToDecimal(n / 10);
    }
  }

  /** Rendering a status code and reading it back gives the code again. */
  lemma ParseItoa(n: int)
    ensures ParseInt(Itoa(n)) == Some(n)
  {
    if n < 0 {
      DecimalValueOfNat(-n);
      assert Itoa(n)[1..] == NatToDecimal(-n);
    } else {
      DecimalValueOfNat(n);
    }
  }

  /** Distinct status codes are rendered as distinct label values. */
  lemma ItoaInjective(a: int, b: int)
    requires Itoa(a) == Itoa(b)
    ensures a == b
  {
    ParseItoa(a);
    ParseItoa(b);
  }
}
