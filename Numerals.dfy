/** Decimal text of integers as Python's `str(n)` and `format(n, "04d")`
    produce it, with the digit-string value used to read such text back. */
module Numerals {

  predicate IsDigit(c: char) {
    '0' <= c <= '9'
  }

  predicate AllDigits(s: string) {
    forall i :: 0 <= i < |s| ==> IsDigit(s[i])
  }

  function DigitChar(d: nat): (c: char)
    requires d < 10
    ensures IsDigit(c) && c as int - '0' as int == d
  {
    ('0' as int + d) as char
  }

  function Pow10(k: nat): (p: nat)
    ensures p >= 1
  {
    if k == 0 then 1 else 10 * Pow10(k - 1)
  }

  /** The number a string of decimal digits denotes (0 for the empty string). */
  function DigitsValue(s: string): (v: nat)
    requires AllDigits(s)
    ensures v < Pow10(|s|)
  {
    if s == [] then 0 else DigitsValue(s[..|s| - 1]) * 10 + (s[|s| - 1] as int - '0' as int)
  }

  /** `str(n)` for a non-negative n: canonical digits, no leading zero. */
  function NatToString(n: nat): (s: string)
    ensures 1 <= |s| && AllDigits(s)
    ensures DigitsValue(s) == n
    ensures s[0] == '0' ==> s == "0"
  {
    if n < 10 then [DigitChar(n)]
    else
      var p := NatToString(n / 10);
      var s := p + [DigitChar(n % 10)];
      assert s[..|s| - 1] == p;
      s
  }

  /** `str(i)` for any integer. */
  function IntToString(i: int): string {
    if i < 0 then "-" + NatToString(-i) else NatToString(i)
  }

  function Zeros(k: nat): (z: string)
    ensures |z| == k && forall i :: 0 <= i < k ==> z[i] == '0'
  {
    if k == 0 then "" else "0" + Zeros(k - 1)
  }

  /** Left-pads `s` with zeros up to `width` characters; never truncates. */
  function ZeroPad(s: string, width: nat): string {
    Zeros(if |s| < width then width - |s| else 0) + s
  }

  /** The padded text is the original preceded by just enough zeros. */
  lemma ZeroPadShape(s: string, width: nat)
    ensures var r := ZeroPad(s, width);
      && |r| == (if |s| < width then width else |s|)
      && r[|r| - |s|..] == s
      && forall i :: 0 <= i < |r| - |s| ==> r[i] == '0'
  {
    var r := ZeroPad(s, width);
    assert r[|r| - |s|..] == s;
  }

  /** `format(n, "04d")`: at least four digits, the sign counting toward the width. */
  function Pad04(n: int): string {
    if n < 0 then "-" + ZeroPad(NatToString(-n), 3) else ZeroPad(NatToString(n), 4)
  }

  /** What `format(n, "04d")` prints: four digits for 0..9999 reading back as n,
      `str(n)` beyond, and a minus sign before at least three digits below 0. */
  lemma Pad04Value(n: int)
    ensures var r := Pad04(n);
      && (0 <= n < 10000 ==> |r| == 4 && AllDigits(r) && DigitsValue(r) == n)
      && (n >= 10000 ==> r == NatToString(n))
      && (n < 0 ==> |r| >= 4 && r[0] == '-' && AllDigits(r[1..]) && DigitsValue(r[1..]) == -n)
  {
    if n < 0 {
      var r := Pad04(n);
      ZeroPadShape(NatToString(-n), 3);
      assert r[1..] == ZeroPad(NatToString(-n), 3);
      LeadingZerosValue(NatToString(-n), 3);
    } else {
      FourDigitsAtMost(n);
      ZeroPadShape(NatToString(n), 4);
      LeadingZerosValue(NatToString(n), 4);
      if n >= 10000 {
        assert Zeros(0) + NatToString(n) == NatToString(n);
      }
    }
  }

  lemma {:induction false} NatToStringLength(n: nat, k: nat)
    requires k >= 1 && n < Pow10(k)
    ensures |NatToString(n)| <= k
    decreases n
  {
    if n >= 10 {
      assert k >= 2;
      NatToStringLength(n / 10, k - 1);
    }
  }

  lemma FourDigitsAtMost(n: nat)
    ensures n < 10000 ==> |NatToString(n)| <= 4
  {
    if n < 10000 {
      assert Pow10(4) == 10000;
      NatToStringLength(n, 4);
    }
  }

  lemma {:induction false} LeadingZeroValue(s: string)
    requires AllDigits(s)
    ensures AllDigits("0" + s) && DigitsValue("0" + s) == DigitsValue(s)
    decreases |s|
  {
    var z := "0" + s;
    assert AllDigits(z) by {
      forall i | 0 <= i < |z| ensures IsDigit(z[i]) {
        if i > 0 { assert z[i] == s[i - 1]; }
      }
    }
    if s != [] {
      var p := s[..|s| - 1];
      LeadingZeroValue(p);
      assert z[..|z| - 1] == "0" + p;
    }
  }

  /** Zero padding does not change the value of a digit string. */
  lemma {:induction false} LeadingZerosValue(s: string, width: nat)
    requires AllDigits(s)
    ensures AllDigits(ZeroPad(s, width)) && DigitsValue(ZeroPad(s, width)) == DigitsValue(s)
    decreases width
  {
    if |s| < width {
      LeadingZerosValue(s, width - 1);
      var shorter := ZeroPad(s, width - 1);
      LeadingZeroValue(shorter);
      var k := width - |s|;
      assert Zeros(k) == "0" + Zeros(k - 1);
      assert ZeroPad(s, width) == "0" + shorter;
    } else {
      assert ZeroPad(s, width) == Zeros(0) + s == s;
    }
  }

  lemma {:induction false} PositiveValue(s: string)
    requires AllDigits(s) && |s| >= 1 && s[0] != '0'
    ensures DigitsValue(s) >= 1
    decreases |s|
  {
    if |s| > 1 {
      var p := s[..|s| - 1];
      PositiveValue(p);
    }
  }

  /** Canonical digit text is exactly what `str` prints for its value. */
  lemma {:induction false} CanonicalDigits(s: string)
    requires AllDigits(s) && |s| >= 1 && (s[0] != '0' || |s| == 1)
    ensures NatToString(DigitsValue(s)) == s
    decreases |s|
  {
    var v := DigitsValue(s);
    if |s| == 1 {
      assert [DigitChar(v)] == s;
    } else {
      var p := s[..|s| - 1];
      PositiveValue(p);
      CanonicalDigits(p);
      var d := s[|s| - 1] as int - '0' as int;
      assert v == DigitsValue(p) * 10 + d;
      assert v / 10 == DigitsValue(p) && v % 10 == d;
      assert NatToString(v) == NatToString(v / 10) + [DigitChar(v % 10)];
      assert s == p + [s[|s| - 1]];
    }
  }

  /** Any digit string is the zero-padded `str` of its value, padded to its own length. */
  lemma {:induction false} PaddedDigits(s: string)
    requires AllDigits(s) && |s| >= 1
    ensures ZeroPad(NatToString(DigitsValue(s)), |s|) == s
    decreases |s|
  {
    if s[0] != '0' || |s| == 1 {
      CanonicalDigits(s);
    } else {
      var rest := s[1..];
      assert s == "0" + rest;
      LeadingZeroValue(rest);
      PaddedDigits(rest);
      var t := NatToString(DigitsValue(rest));
      assert |t| <= |rest|;
      assert ZeroPad(t, |s|) == "0" + ZeroPad(t, |rest|);
    }
  }
}
