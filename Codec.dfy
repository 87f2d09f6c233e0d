/** The pump's "type-2" number text: the four significant digits of the
    `.3e` scientific form with the point removed, followed by the decimal
    exponent with an explicit sign and no padding ("2500-3" for 2.5e-3).

    The float-to-`.3e` rounding is not modelled: a value enters here already
    rounded, as the sign, the digits d.ddd read as one integer, and the exponent. */
module Codec {
  import opened PumpTypes
  import opened Numerals

  type Mantissa = m: nat | m < 10000

  /** A value as `f"{v:.3e}"` renders it: sign, d.ddd as the integer dddd, exponent. */
  datatype Sci = Sci(negative: bool, mantissa: Mantissa, exponent: int)

  function Abs(e: int): nat {
    if e < 0 then -e else e
  }

  /** The four mantissa digits, leading zeros kept ("0.000" gives "0000"). */
  function MantissaText(m: Mantissa): (s: string)
    ensures |s| == 4 && AllDigits(s) && DigitsValue(s) == m
  {
    FourDigitsAtMost(m);
    LeadingZerosValue(NatToString(m), 4);
    ZeroPad(NatToString(m), 4)
  }

  /** `f"{e:+1d}"`: explicit sign, then as many digits as the magnitude needs. */
  function ExponentText(e: int): string {
    (if e < 0 then "-" else "+") + NatToString(Abs(e))
  }

  /** `_format_vol_type2`. */
  function FormatVolType2(x: Sci): (s: string)
    ensures |s| == (if x.negative then 1 else 0) + 5 + |NatToString(Abs(x.exponent))|
    ensures Abs(x.exponent) < 10 ==> |s| == (if x.negative then 7 else 6)
    ensures 10 <= Abs(x.exponent) < 100 ==> |s| == (if x.negative then 8 else 7)
  {
    ExponentDigits(Abs(x.exponent));
    (if x.negative then "-" else "") + MantissaText(x.mantissa) + ExponentText(x.exponent)
  }

  /** `_format_discrete_type2`: the source repeats the body of `_format_vol_type2`. */
  function FormatDiscreteType2(x: Sci): (s: string)
    ensures ParseType2(s) == Some(x)
  {
    ParseFormatted(x);
    FormatVolType2(x)
  }

  lemma ExponentDigits(n: nat)
    ensures n < 10 ==> |NatToString(n)| == 1
    ensures 10 <= n < 100 ==> |NatToString(n)| == 2
  {
    if 10 <= n < 100 {
      assert NatToString(n) == NatToString(n / 10) + [DigitChar(n % 10)];
    }
  }

  /** Reads type-2 text back: optional "-", four digits, "+" or "-", then the
      exponent magnitude written without leading zeros (zero only as "+0"). */
  function ParseType2(s: string): (r: Option<Sci>)
  {
    if |s| > 0 && s[0] == '-' then ParseBody(true, s[1..]) else ParseBody(false, s)
  }

  function ParseBody(negative: bool, t: string): Option<Sci> {
    if |t| < 6 then None else ParseParts(negative, t[..4], t[4], t[5..])
  }

  predicate CanonicalExponent(sign: char, e: string) {
    && (sign == '+' || sign == '-')
    && |e| >= 1 && AllDigits(e)
    && (e[0] == '0' ==> e == "0")
    && (sign == '-' ==> e != "0")
  }

  function ParseParts(negative: bool, m: string, sign: char, e: string): Option<Sci> {
    if !AllDigits(m) || |m| != 4 || !CanonicalExponent(sign, e) then None
    else
      var v: int := DigitsValue(e);
      assert Pow10(4) == 10000;
      Some(Sci(negative, DigitsValue(m), if sign == '-' then -v else v))
  }

  /** Every encoded value reads back as itself: the encoding loses nothing. */
  lemma {:induction false} ParseFormatted(x: Sci)
    ensures ParseType2(FormatVolType2(x)) == Some(x)
  {
    var m := MantissaText(x.mantissa);
    var sign := if x.exponent < 0 then '-' else '+';
    var e := NatToString(Abs(x.exponent));
    var t := m + [sign] + e;
    assert t[..4] == m && t[4] == sign && t[5..] == e;
    assert DigitsValue("0") == 0;
    assert sign == '-' ==> e != "0";
    assert CanonicalExponent(sign, e);
    assert ParseBody(x.negative, t) == Some(x);
    var lead: string := if x.negative then "-" else "";
    assert ExponentText(x.exponent) == [sign] + e;
    var s := FormatVolType2(x);
    assert s == lead + t;
    TailAfter(lead, t);
    if x.negative {
      assert s[0] == '-' && s[1..] == t;
      assert ParseType2(s) == ParseBody(true, t);
    } else {
      assert s == t && IsDigit(s[0]);
      assert ParseType2(s) == ParseBody(false, t);
    }
  }

  lemma TailAfter(a: string, b: string)
    ensures (a + b)[|a|..] == b
  {
  }

  /** Only encoder output is accepted: whatever parses is re-encoded to the same text. */
  lemma {:induction false} FormattedParse(s: string)
    requires ParseType2(s).Some?
    ensures FormatVolType2(ParseType2(s).value) == s
  {
    var neg := |s| > 0 && s[0] == '-';
    var t := if neg then s[1..] else s;
    assert ParseType2(s) == ParseBody(neg, t);
    FormattedParts(neg, t[..4], t[4], t[5..]);
    assert t == t[..4] + [t[4]] + t[5..];
    if neg { assert s == "-" + t; }
  }

  lemma {:induction false} FormattedParts(negative: bool, m: string, sign: char, e: string)
    requires ParseParts(negative, m, sign, e).Some?
    ensures FormatVolType2(ParseParts(negative, m, sign, e).value)
         == (if negative then "-" else "") + m + [sign] + e
  {
    var x := ParseParts(negative, m, sign, e).value;
    PaddedDigits(m);
    CanonicalDigits(e);
    assert MantissaText(x.mantissa) == m;
    var v := DigitsValue(e);
    if sign == '-' {
      assert NatToString(0) == "0";
      assert v != 0;
      assert Abs(x.exponent) == v;
    } else {
      assert Abs(x.exponent) == v;
    }
    assert ExponentText(x.exponent) == [sign] + e;
  }

  /** Distinct rounded values never share an encoding. */
  lemma FormatInjective(x: Sci, y: Sci)
    requires FormatVolType2(x) == FormatVolType2(y)
    ensures x == y
  {
    ParseFormatted(x);
    ParseFormatted(y);
  }

  /** The usage example's volume, 2.5e-3, and the encoding of 1.0. */
  lemma QuotedEncodings()
    ensures FormatVolType2(Sci(false, 2500, -3)) == "2500-3"
    ensures FormatVolType2(Sci(false, 1000, 0)) == "1000+0"
  {
    QuotedEncoding(2, 5, -3);
    QuotedEncoding(1, 0, 0);
    assert [DigitChar(2), DigitChar(5), '0', '0'] + ['-', DigitChar(3)] == "2500-3";
    assert [DigitChar(1), DigitChar(0), '0', '0'] + ['+', DigitChar(0)] == "1000+0";
  }

  lemma QuotedEncoding(d: nat, e: nat, x: int)
    requires 1 <= d < 10 && e < 10 && -10 < x < 10
    ensures FormatVolType2(Sci(false, d * 1000 + e * 100, x))
         == [DigitChar(d), DigitChar(e), '0', '0'] + [if x < 0 then '-' else '+', DigitChar(Abs(x))]
  {
    QuotedMantissa(d, e);
    assert NatToString(Abs(x)) == [DigitChar(Abs(x))];
  }

  /** The mantissa text of d.e00 is its four digits. */
  lemma QuotedMantissa(d: nat, e: nat)
    requires 1 <= d < 10 && e < 10
    ensures MantissaText(d * 1000 + e * 100) == [DigitChar(d), DigitChar(e), '0', '0']
  {
    var n := d * 1000 + e * 100;
    assert NatToString(d) == [DigitChar(d)];
    assert NatToString(d * 10 + e) == [DigitChar(d), DigitChar(e)];
    assert NatToString(d * 100 + e * 10) == [DigitChar(d), DigitChar(e), DigitChar(0)];
    assert NatToString(n) == [DigitChar(d), DigitChar(e), DigitChar(0), DigitChar(0)];
    assert DigitChar(0) == '0';
    assert MantissaText(n) == Zeros(0) + NatToString(n);
  }
}
