/**
 * Decimal text of integers: what Go's fmt "%d" and strconv.Itoa print for a
 * non-negative int, and what strconv.Atoi accepts on a 64-bit platform.
 */
module Decimal {
  import opened Wrappers

  /** The range of Go's 64-bit int; strconv.Atoi reports a range error outside it. */
  const MinInt: int := -0x8000_0000_0000_0000
  const MaxInt: int := 0x7FFF_FFFF_FFFF_FFFF

  predicate IsDigit(c: char) {
    '0' <= c <= '9'
  }

  predicate AllDigits(s: string) {
    forall i :: 0 <= i < |s| ==> IsDigit(s[i])
  }

  function DigitChar(d: nat): (c: char)
    requires d < 10
    ensures IsDigit(c) && c as int - '0' as int == d
  {
    ('0' as int + d) as char
  }

  /** The value of a string of decimal digits, most significant digit first. */
  function DigitsValue(s: string): nat
    requires AllDigits(s)
  {
    if s == [] then 0
    else DigitsValue(s[..|s| - 1]) * 10 + (s[|s| - 1] as int - '0' as int)
  }

  /** The shortest decimal text of n: digits only, no leading zero unless n is 0. */
  function Format(n: nat): (s: string)
    ensures |s| > 0 && AllDigits(s)
    ensures s[0] == '0' ==> n == 0
  {
    if n < 10 then [DigitChar(n)] else Format(n / 10) + [DigitChar(n % 10)]
  }

  /** Reading back the text Format prints gives the number again. */
  lemma {:induction false} FormatValue(n: nat)
    ensures DigitsValue(Format(n)) == n
  {
    if n >= 10 {
      var s := Format(n);
      assert s[..|s| - 1] == Format(n / 10);
      FormatValue(n / 10);
    }
  }

  /** Distinct numbers are printed as distinct texts. */
  lemma FormatInjective(a: nat, b: nat)
    ensures Format(a) == Format(b) ==> a == b
  {
    FormatValue(a);
    FormatValue(b);
  }

  /** The text after an optional leading '+' or '-'. */
  function Unsigned(s: string): (d: string)
    ensures |d| <= |s|
  {
    if |s| > 0 && (s[0] == '+' || s[0] == '-') then s[1..] else s
  }

  /**
   * strconv.Atoi: an optional sign followed by one or more decimal digits
   * whose value fits in a 64-bit int; None is Atoi's non-nil error (syntax
   * or range error).
   */
  function Atoi(s: string): (r: Option<int>)
    ensures r.Some? ==> MinInt <= r.value <= MaxInt
    ensures r.Some? ==> |Unsigned(s)| > 0 && AllDigits(Unsigned(s))
  {
    var digits := Unsigned(s);
    if digits == [] || !AllDigits(digits) then None
    else
      var v: int := if s[0] == '-' then -(DigitsValue(digits) as int) else DigitsValue(digits);
      if MinInt <= v <= MaxInt then Some(v) else None
  }

  /** Atoi reads back what Format prints, for every value an int can hold. */
  lemma AtoiFormat(n: nat)
    requires n <= MaxInt
    ensures Atoi(Format(n)) == Some(n)
  {
    FormatValue(n);
  }

  /** A leading '-' negates, down to the most negative int. */
  lemma AtoiNegated(n: nat)
    requires n <= -MinInt
    ensures Atoi("-" + Format(n)) == Some(-(n as int))
  {
    var s := "-" + Format(n);
    assert Unsigned(s) == Format(n);
    FormatValue(n);
  }

  /** Digit strings whose every digit is '0' are exactly those of value 0. */
  lemma {:induction false} DigitsValueZero(s: string)
    requires AllDigits(s)
    ensures DigitsValue(s) == 0 <==> forall i :: 0 <= i < |s| ==> s[i] == '0'
  {
    if s != [] {
      var init := s[..|s| - 1];
      DigitsValueZero(init);
      assert forall i :: 0 <= i < |init| ==> init[i] == s[i];
    }
  }

  /**
   * Atoi gives exactly 0 for an optional sign followed by one or more '0'
   * digits ("0", "-0", "+000"), and for nothing else.
   */
  lemma AtoiZero(s: string)
    ensures Atoi(s) == Some(0) <==>
      |Unsigned(s)| > 0 && forall i :: 0 <= i < |Unsigned(s)| ==> Unsigned(s)[i] == '0'
  {
    var d := Unsigned(s);
    if |d| > 0 && forall i :: 0 <= i < |d| ==> d[i] == '0' {
      assert AllDigits(d);
      DigitsValueZero(d);
    } else if Atoi(s) == Some(0) {
      DigitsValueZero(d);
    }
  }
}
