/**
 * Java's `Integer.toString(int)` and `Integer.parseInt(String)`: how a beam size
 * is written into a model manifest and read back from it.
 */
module Decimal {
  import opened Wrappers

  const IntMin: int := -0x8000_0000
  const IntMax: int := 0x7fff_ffff

  /** The values of a Java `int`. */
  predicate IsInt(n: int) {
    IntMin <= n <= IntMax
  }

  predicate IsDigit(c: char) {
    '0' <= c <= '9'
  }

  predicate AllDigits(s: string) {
    forall i :: 0 <= i < |s| ==> IsDigit(s[i])
  }

  function DigitChar(d: nat): (c: char)
    requires d < 10
    ensures IsDigit(c) && c as int - '0' as int == d
  {
    ('0' as int + d) as char
  }

  /** The value of a string of decimal digits, most significant first. */
  function DigitsValue(s: string): nat
    requires AllDigits(s)
  {
    if s == [] then 0
    else DigitsValue(s[..|s| - 1]) * 10 + (s[|s| - 1] as int - '0' as int)
  }

  /** The shortest decimal digits of `n`: no leading zero unless `n` is 0. */
  function NatDigits(n: nat): (s: string)
    ensures |s| >= 1 && AllDigits(s)
    ensures s[0] == '0' ==> n == 0
    decreases n
  {
    if n < 10 then [DigitChar(n)]
    else NatDigits(n / 10) + [DigitChar(n % 10)]
  }

  /** `Integer.toString(n)`: a minus sign for negative values, then the digits of |n|. */
  function ToString(n: int): (s: string)
    requires IsInt(n)
    ensures |s| >= 1
    ensures s[0] == '-' <==> n < 0
    ensures n >= 0 ==> AllDigits(s)
    ensures n < 0 ==> AllDigits(s[1..])
  {
    if n < 0 then "-" + NatDigits(-n) else NatDigits(n)
  }

  /**
   * `Integer.parseInt(s)`: an optional leading '-' or '+', then at least one
   * digit, and a value inside the `int` range. Every other string makes Java
   * throw `NumberFormatException`, modelled as `None`.
   */
  function ParseInt(s: string): (r: Option<int>)
    ensures r.Some? ==> IsInt(r.value)
    ensures r.Some? ==> |s| >= 1 && (s[0] == '-' || s[0] == '+' || IsDigit(s[0]))
    ensures r.Some? ==> (r.value < 0 ==> s[0] == '-')
    ensures s == [] || s == "-" || s == "+" ==> r.None?
    ensures (exists i :: 0 < i < |s| && !IsDigit(s[i])) ==> r.None?
    // a result is the signed value of the digits, so a value outside the int range throws
    ensures r.Some? ==>
      var digits := if s[0] == '-' || s[0] == '+' then s[1..] else s;
      AllDigits(digits) &&
      r.value == (if s[0] == '-' then 0 - DigitsValue(digits) as int else DigitsValue(digits) as int)
    // every well-formed decimal inside the int range is accepted, with its value
    ensures |s| >= 1 && AllDigits(s) && DigitsValue(s) <= IntMax ==> r == Some(DigitsValue(s))
    ensures |s| >= 2 && s[0] == '+' && AllDigits(s[1..]) && DigitsValue(s[1..]) <= IntMax ==>
      r == Some(DigitsValue(s[1..]))
    ensures |s| >= 2 && s[0] == '-' && AllDigits(s[1..]) && DigitsValue(s[1..]) <= -IntMin ==>
      r == Some(0 - DigitsValue(s[1..]) as int)
  {
    if |s| == 0 then None
    else
      var signed := s[0] == '-' || s[0] == '+';
      var digits := if signed then s[1..] else s;
      if |digits| == 0 || !AllDigits(digits) then None
      else
        var v: int := if s[0] == '-' then 0 - DigitsValue(digits) as int else DigitsValue(digits);
        if IsInt(v) then Some(v) else None
  }

  /** Reading the digits printed for `n` gives `n` back. */
  lemma {:induction false} DigitsValueOfNatDigits(n: nat)
    ensures DigitsValue(NatDigits(n)) == n
    decreases n
  {
    if n >= 10 {
      var s := NatDigits(n / 10);
      var t := s + [DigitChar(n % 10)];
      assert t[..|t| - 1] == s;
      DigitsValueOfNatDigits(n / 10);
    }
  }

  /** `Integer.parseInt(Integer.toString(n)) == n` for every Java `int`. */
  lemma ParseOfToString(n: int)
    requires IsInt(n)
    ensures ParseInt(ToString(n)) == Some(n)
  {
    if n < 0 {
      var d := NatDigits(-n);
      assert ToString(n) == "-" + d;
      assert ("-" + d)[1..] == d;
      DigitsValueOfNatDigits(-n);
    } else {
      var d := NatDigits(n);
      assert ToString(n) == d;
      assert IsDigit(d[0]);
      DigitsValueOfNatDigits(n);
    }
  }

  /** `d` without its leading zeros, keeping at least one digit. */
  function StripLeadingZeros(d: string): (r: string)
    ensures |d| >= 1 ==> |r| >= 1 && (r[0] == '0' ==> |r| == 1)
  {
    if |d| > 1 && d[0] == '0' then StripLeadingZeros(d[1..]) else d
  }

  /** A leading zero does not change the value. */
  lemma {:induction false} DigitsValueLeadingZero(d: string)
    requires AllDigits(d)
    ensures AllDigits(['0'] + d) && DigitsValue(['0'] + d) == DigitsValue(d)
  {
    var z := ['0'] + d;
    if |d| > 0 {
      assert z[..|z| - 1] == ['0'] + d[..|d| - 1];
      DigitsValueLeadingZero(d[..|d| - 1]);
    }
  }

  /** Digits that start with a non-zero digit have a positive value. */
  lemma {:induction false} DigitsValuePositive(d: string)
    requires |d| >= 1 && AllDigits(d) && d[0] != '0'
    ensures DigitsValue(d) >= 1
  {
    if |d| > 1 {
      DigitsValuePositive(d[..|d| - 1]);
    }
  }

  /** Printing the value of digits without a leading zero gives those digits. */
  lemma {:induction false} NatDigitsOfCanonical(d: string)
    requires |d| >= 1 && AllDigits(d) && (d[0] == '0' ==> |d| == 1)
    ensures NatDigits(DigitsValue(d)) == d
  {
    if |d| > 1 {
      var front := d[..|d| - 1];
      DigitsValuePositive(front);
      NatDigitsOfCanonical(front);
      assert d == front + [d[|d| - 1]];
    }
  }

  /** Printing the value of any digits gives them back without their leading zeros. */
  lemma {:induction false} NatDigitsOfDigitsValue(d: string)
    requires |d| >= 1 && AllDigits(d)
    ensures NatDigits(DigitsValue(d)) == StripLeadingZeros(d)
  {
    if |d| > 1 && d[0] == '0' {
      assert d == ['0'] + d[1..];
      DigitsValueLeadingZero(d[1..]);
      NatDigitsOfDigitsValue(d[1..]);
    } else {
      NatDigitsOfCanonical(d);
    }
  }

  /**
   * The reverse round trip: printing what `parseInt` read gives the input in
   * canonical form, without a '+', without leading zeros, and with a '-' only
   * for a negative value (so "+5", "05" and "-0" print as "5", "5" and "0").
   */
  lemma ToStringOfParseInt(s: string)
    requires ParseInt(s).Some?
    ensures var n := ParseInt(s).value;
      var digits := if s[0] == '-' || s[0] == '+' then s[1..] else s;
      ToString(n) == (if n < 0 then "-" else "") + StripLeadingZeros(digits)
  {
    var digits := if s[0] == '-' || s[0] == '+' then s[1..] else s;
    NatDigitsOfDigitsValue(digits);
  }
}
