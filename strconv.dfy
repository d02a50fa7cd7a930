/**
 * The three functions of Go's `strconv` package that the lot encoder and decoder use,
 * for the 64-bit `int` of the platforms the program targets.
 */
module Strconv {

  import opened Wrappers

  const MinInt64: int := -0x8000_0000_0000_0000
  const MaxInt64: int := 0x7FFF_FFFF_FFFF_FFFF

  /** Go's `int` on a 64-bit platform. */
  type Int64 = x: int | -0x8000_0000_0000_0000 <= x <= 0x7FFF_FFFF_FFFF_FFFF

  predicate IsDigit(c: char) {
    '0' <= c <= '9'
  }

  predicate AllDigits(s: string) {
    forall i | 0 <= i < |s| :: IsDigit(s[i])
  }

  function DigitValue(c: char): nat
    requires IsDigit(c)
  {
    c as int - '0' as int
  }

  function DigitChar(d: nat): char
    requires d < 10
  {
    ('0' as int + d) as char
  }

  /** The value of a run of decimal digits, most significant digit first. */
  function DecimalValue(s: string): nat
    requires AllDigits(s)
  {
    if s == [] then 0 else DecimalValue(s[..|s| - 1]) * 10 + DigitValue(s[|s| - 1])
  }

  /**
   * strconv.Atoi: an optional `+` or `-`, then one or more decimal digits (leading zeros
   * allowed, no underscores), whose value must fit in 64 bits; anything else is an error.
   */
  function Atoi(s: string): (r: Option<int>)
    ensures r.Some? ==> MinInt64 <= r.value <= MaxInt64
    ensures r.Some? ==> s != [] && (IsDigit(s[0]) || s[0] == '+' || s[0] == '-')
  {
    if s == [] then None
    else
      var digits := if s[0] == '+' || s[0] == '-' then s[1..] else s;
      if digits == [] || !AllDigits(digits) then None
      else
        var v: int := if s[0] == '-' then -(DecimalValue(digits) as int) else DecimalValue(digits);
        if MinInt64 <= v <= MaxInt64 then Some(v) else None
  }

  /** The decimal digits of a natural number, without leading zeros. */
  function Digits(n: nat): (r: string)
    ensures r != [] && AllDigits(r)
    ensures |r| == 1 <==> n < 10
  {
    if n < 10 then [DigitChar(n)] else Digits(n / 10) + [DigitChar(n % 10)]
  }

  /** strconv.Itoa: the decimal form of `n`, with a leading `-` for a negative number. */
  function Itoa(n: int): (r: string)
    ensures r != []
    ensures r[0] == '-' <==> n < 0
    ensures n >= 0 ==> AllDigits(r)
  {
    if n < 0 then "-" + Digits(-n) else Digits(n)
  }

  /** The spellings strconv.ParseBool reads as true, and those it reads as false. */
  const TrueSpellings: set<string> := {"1", "t", "T", "TRUE", "true", "True"}
  const FalseSpellings: set<string> := {"0", "f", "F", "FALSE", "false", "False"}

  /** strconv.ParseBool: the true spellings, the false spellings, and an error otherwise. */
  function ParseBool(s: string): (r: Option<bool>)
    ensures r == Some(true) <==> s in TrueSpellings
    ensures r == Some(false) <==> s in FalseSpellings
    ensures r.None? <==> s !in TrueSpellings + FalseSpellings
  {
    if s == "1" || s == "t" || s == "T" || s == "TRUE" || s == "true" || s == "True" then
      Some(true)
    else if s == "0" || s == "f" || s == "F" || s == "FALSE" || s == "false" || s == "False" then
      Some(false)
    else
      None
  }

  lemma {:induction false} DecimalValueOfDigits(n: nat)
    ensures DecimalValue(Digits(n)) == n
  {
    if n >= 10 {
      DecimalValueOfDigits(n / 10);
      var d := Digits(n);
      assert d[..|d| - 1] == Digits(n / 10);
    }
  }

  lemma AtoiDigits(m: nat)
    requires m <= MaxInt64
    ensures Atoi(Digits(m)) == Some(m)
  {
    DecimalValueOfDigits(m);
    assert IsDigit(Digits(m)[0]);
  }

  lemma AtoiNegative(m: nat)
    requires 0 < m <= -MinInt64
    ensures Atoi("-" + Digits(m)) == Some(-(m as int))
  {
    DecimalValueOfDigits(m);
    var s := "-" + Digits(m);
    assert s[0] == '-' && s[1..] == Digits(m);
  }

  /** Atoi reads back every 64-bit value Itoa writes. */
  lemma AtoiItoa(n: int)
    requires MinInt64 <= n <= MaxInt64
    ensures Atoi(Itoa(n)) == Some(n)
  {
    if n < 0 {
      AtoiNegative(-n);
    } else {
      AtoiDigits(n);
    }
  }

  /**
   * ParseBool accepts what Itoa writes only for 0 and 1: every other number, negative or
   * of two or more digits or a single digit from 2 to 9, is rejected.
   */
  lemma ParseBoolItoa(n: int)
    ensures ParseBool(Itoa(n)) == if n == 1 then Some(true) else if n == 0 then Some(false) else None
  {
    var s := Itoa(n);
    if n < 0 {
      assert s[0] == '-';
    } else if n >= 10 {
      assert |s| >= 2 && IsDigit(s[0]);
    } else {
      assert s == [DigitChar(n)];
    }
  }
}
