/** Decimal rendering of integers, as JavaScript's template interpolation and
    `Number.prototype.toString()` print whole numbers, and its inverse. */
module Decimal {
  import opened Nullable

  predicate IsDigit(c: char) {
    '0' <= c <= '9'
  }

  predicate IsDigits(s: string) {
    forall i :: 0 <= i < |s| ==> IsDigit(s[i])
  }

  function DigitChar(d: nat): (c: char)
    requires d < 10
    ensures IsDigit(c)
  {
    ['0', '1', '2', '3', '4', '5', '6', '7', '8', '9'][d]
  }

  function DigitValue(c: char): (d: nat)
    requires IsDigit(c)
    ensures d < 10
  {
    (c as int - '0' as int) as nat
  }

  lemma DigitValueOfChar(d: nat)
    requires d < 10
    ensures DigitValue(DigitChar(d)) == d
  {
  }

  lemma CharOfDigitValue(c: char)
    requires IsDigit(c)
    ensures DigitChar(DigitValue(c)) == c
  {
  }

  /** A digit string in its shortest form: no leading zero unless it is "0" itself. */
  predicate Canonical(s: string) {
    |s| >= 1 && IsDigits(s) && (s[0] != '0' || |s| == 1)
  }

  /** The value of a string of decimal digits, most significant first. */
  function DigitsValue(s: string): (v: nat)
    requires IsDigits(s)
  {
    if |s| == 0 then 0 else DigitsValue(s[..|s| - 1]) * 10 + DigitValue(s[|s| - 1])
  }

  /** Shortest decimal spelling of a natural number. */
  function NatToString(n: nat): (s: string)
    ensures Canonical(s)
    ensures s[0] == '0' ==> n == 0
  {
    if n < 10 then [DigitChar(n)] else NatToString(n / 10) + [DigitChar(n % 10)]
  }

  /** `${i}` for an integer `i`: a leading minus sign for negatives, then the
      shortest digit string, which for a negative never starts with '0'. */
  function IntToString(i: int): (s: string)
    ensures |s| >= 1 && forall k :: 0 <= k < |s| ==> s[k] == '-' || IsDigit(s[k])
    ensures i >= 0 ==> Canonical(s)
    ensures i < 0 ==> |s| >= 2 && s[0] == '-' && Canonical(s[1..]) && s[1] != '0'
  {
    if i < 0 then "-" + NatToString(-i) else NatToString(i)
  }

  /** Reads an integer in its shortest spelling: an optional minus sign and
      digits without a leading zero; "-0" and "007" are refused. */
  function ParseInt(s: string): (r: Option<int>) {
    if |s| >= 2 && s[0] == '-' && Canonical(s[1..]) && s[1] != '0' then Some(0 - DigitsValue(s[1..]))
    else if Canonical(s) then Some(DigitsValue(s))
    else None
  }

  lemma {:induction false} NatRoundTrip(n: nat)
    ensures DigitsValue(NatToString(n)) == n
  {
    if n >= 10 {
      var s := NatToString(n);
      assert s[..|s| - 1] == NatToString(n / 10);
      NatRoundTrip(n / 10);
      DigitValueOfChar(n % 10);
    } else {
      DigitValueOfChar(n);
    }
  }

  lemma NegativeRoundTrip(n: nat)
    requires n > 0
    ensures ParseInt("-" + NatToString(n)) == Some(0 - n)
  {
    var s := "-" + NatToString(n);
    assert s[1..] == NatToString(n);
    NatRoundTrip(n);
  }

  lemma NonNegativeRoundTrip(n: nat)
    ensures ParseInt(NatToString(n)) == Some(n)
  {
    NatRoundTrip(n);
  }

  /** Printing an integer and reading it back gives the same integer. */
  lemma IntRoundTrip(i: int)
    ensures ParseInt(IntToString(i)) == Some(i)
  {
    if i < 0 {
      NegativeRoundTrip(-i);
    } else {
      NonNegativeRoundTrip(i);
    }
  }

  /** A digit string with a non-zero leading digit has a positive value. */
  lemma {:induction false} LeadingDigitPositive(s: string)
    requires |s| >= 1 && IsDigits(s) && s[0] != '0'
    ensures DigitsValue(s) >= 1
  {
    if |s| > 1 {
      LeadingDigitPositive(s[..|s| - 1]);
    }
  }

  /** Appending a digit multiplies by ten and adds it; division by ten takes it back off. */
  lemma DivModTen(a: nat, d: nat)
    requires d < 10
    ensures (a * 10 + d) / 10 == a && (a * 10 + d) % 10 == d
  {
  }

  /** A canonical digit string is the printing of its own value. */
  lemma {:induction false} CanonicalRoundTrip(s: string)
    requires Canonical(s)
    ensures NatToString(DigitsValue(s)) == s
  {
    var c := s[|s| - 1];
    CharOfDigitValue(c);
    if |s| > 1 {
      var t := s[..|s| - 1];
      assert Canonical(t);
      LeadingDigitPositive(t);
      CanonicalRoundTrip(t);
      var a, d := DigitsValue(t), DigitValue(c);
      DivModTen(a, d);
      assert NatToString(a * 10 + d) == NatToString(a) + [DigitChar(d)];
      assert s == t + [c];
    }
  }

  /** The reader accepts exactly one spelling per integer: the one that is printed. */
  lemma ParseIntExact(s: string)
    ensures ParseInt(s).Some? ==> s == IntToString(ParseInt(s).value)
  {
    if |s| >= 2 && s[0] == '-' && Canonical(s[1..]) && s[1] != '0' {
      var t := s[1..];
      LeadingDigitPositive(t);
      CanonicalRoundTrip(t);
      assert s == "-" + t;
    } else if Canonical(s) {
      CanonicalRoundTrip(s);
    }
  }

  /** Distinct integers print differently. */
  lemma IntToStringInjective(i: int, j: int)
    requires IntToString(i) == IntToString(j)
    ensures i == j
  {
    IntRoundTrip(i);
    IntRoundTrip(j);
  }
}
