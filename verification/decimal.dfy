/**
 Decimal text of integers, as produced by `std::to_string(int)` and by
 `operator<<(std::ostream&, int)` in the classic "C" locale: an optional
 leading `-`, then the digits of the magnitude, with no padding, no `+` sign
 and no leading zero (except for the number zero itself).

 `ParseInt` is the inverse reading, used to state that the text is a faithful,
 unambiguous rendering of the number.
 */
module Decimal {

  import opened Wrappers

  /** The values of a C++ `int`, taken as 32 bits, the usual width. */
  type Int32 = x: int | -0x8000_0000 <= x < 0x8000_0000

  predicate IsDigit(c: char) {
    '0' <= c <= '9'
  }

  predicate AllDigits(s: string) {
    forall i :: 0 <= i < |s| ==> IsDigit(s[i])
  }

  /** A non-empty run of digits without a superfluous leading zero. */
  predicate CanonicalNat(s: string) {
    && |s| > 0
    && AllDigits(s)
    && (s[0] == '0' ==> |s| == 1)
  }

  /** The texts `IntText` can produce: a canonical natural, or `-` followed
      by a canonical natural other than zero. */
  predicate Canonical(s: string) {
    || CanonicalNat(s)
    || (|s| >= 2 && s[0] == '-' && s[1] != '0' && CanonicalNat(s[1..]))
  }

  function DigitChar(d: nat): (c: char)
    requires d < 10
    ensures IsDigit(c)
    ensures c as int - '0' as int == d
  {
    ('0' as int + d) as char
  }

  function DigitValue(c: char): (d: nat)
    requires IsDigit(c)
    ensures d < 10
    ensures DigitChar(d) == c
  {
    c as int - '0' as int
  }

  /** Decimal digits of a natural number, most significant first. */
  function NatText(n: nat): (s: string)
    ensures CanonicalNat(s)
    ensures s[0] == '0' <==> n == 0
    decreases n
  {
    if n < 10 then [DigitChar(n)] else NatText(n / 10) + [DigitChar(n % 10)]
  }

  /** Decimal text of a (signed) integer: the minus sign is kept, never clamped. */
  function IntText(n: int): (s: string)
    ensures Canonical(s)
    ensures s[0] == '-' <==> n < 0
    ensures forall i :: 0 <= i < |s| ==> IsDigit(s[i]) || (i == 0 && s[i] == '-')
  {
    if n < 0 then "-" + NatText(-n) else NatText(n)
  }

  /** Value of a run of digits read most significant first. */
  function DigitsValue(s: string): nat
    requires AllDigits(s)
    decreases |s|
  {
    if |s| == 0 then 0 else DigitsValue(s[..|s| - 1]) * 10 + DigitValue(s[|s| - 1])
  }

  /** Reads back exactly the canonical texts; anything else is rejected. */
  function ParseInt(s: string): Option<int> {
    if CanonicalNat(s) then Some(DigitsValue(s))
    else if |s| >= 2 && s[0] == '-' && s[1] != '0' && CanonicalNat(s[1..]) then Some(-(DigitsValue(s[1..]) as int))
    else None
  }

  lemma {:induction false} NatTextValue(n: nat)
    ensures DigitsValue(NatText(n)) == n
    decreases n
  {
    if n >= 10 {
      var p := NatText(n / 10);
      var s := NatText(n);
      assert s == p + [DigitChar(n % 10)];
      assert s[..|s| - 1] == p;
      NatTextValue(n / 10);
    }
  }

  /** Reading the text of `n` gives back `n`. */
  lemma ParseIntText(n: int)
    ensures ParseInt(IntText(n)) == Some(n)
  {
    if n < 0 {
      var s := IntText(n);
      assert s[1..] == NatText(-n);
      NatTextValue(-n);
    } else {
      NatTextValue(n);
    }
  }

  /** Distinct integers have distinct texts. */
  lemma IntTextInjective(m: int, n: int)
    requires IntText(m) == IntText(n)
    ensures m == n
  {
    ParseIntText(m);
    ParseIntText(n);
  }

  lemma {:induction false} LeadingDigitBound(s: string)
    requires |s| > 0 && AllDigits(s)
    ensures DigitsValue(s) >= DigitValue(s[0])
    decreases |s|
  {
    if |s| > 1 {
      LeadingDigitBound(s[..|s| - 1]);
    }
  }

  lemma {:induction false} NatTextOfDigits(s: string)
    requires CanonicalNat(s)
    ensures NatText(DigitsValue(s)) == s
    decreases |s|
  {
    if |s| > 1 {
      var p := s[..|s| - 1];
      var c := s[|s| - 1];
      assert p[0] == s[0];
      LeadingDigitBound(p);
      NatTextOfDigits(p);
      var v := DigitsValue(s);
      assert v == DigitsValue(p) * 10 + DigitValue(c);
      assert v / 10 == DigitsValue(p) && v % 10 == DigitValue(c);
      assert s == p + [c];
    }
  }

  /** Every text `ParseInt` accepts is the text of the number it reads, so
      together with `ParseIntText` the canonical texts and the integers are
      in one-to-one correspondence. */
  lemma IntTextOfParse(s: string, n: int)
    requires ParseInt(s) == Some(n)
    ensures IntText(n) == s
  {
    if CanonicalNat(s) {
      NatTextOfDigits(s);
    } else {
      NatTextOfDigits(s[1..]);
      LeadingDigitBound(s[1..]);
      assert s == "-" + s[1..];
    }
  }
}
