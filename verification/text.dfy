/** The two text encodings the renderer relies on: Python's `str` of an
    integer (decimal, with a leading '-' when negative) and `encode_hex` of a
    byte string ("0x" followed by two lower-case hex digits per byte). Each
    comes with its parser, and the round-trip lemmas show that neither loses
    information. */
module Text {
  import opened Wrappers
  import opened Schema

  predicate IsDigit(c: char) {
    '0' <= c <= '9'
  }

  function DigitChar(d: nat): (c: char)
    requires d < 10
    ensures IsDigit(c)
  {
    ('0' as int + d) as char
  }

  /** Lower-case hex digit. */
  function HexChar(d: nat): char
    requires d < 16
  {
    if d < 10 then ('0' as int + d) as char else ('a' as int + d - 10) as char
  }

  /** Decimal digits of a natural number, without leading zeros. */
  function NatToDecimal(n: nat): (r: string)
    ensures |r| >= 1
    ensures forall k :: 0 <= k < |r| ==> IsDigit(r[k])
    ensures |r| > 1 ==> r[0] != '0'
    ensures r[0] == '0' <==> n == 0
    decreases n
  {
    if n < 10 then [DigitChar(n)] else NatToDecimal(n / 10) + [DigitChar(n % 10)]
  }

  /** Python's `str(i)` for an int. */
  function IntToDecimal(i: int): (r: string)
    ensures |r| >= 1
    ensures forall k :: 0 <= k < |r| ==> IsDigit(r[k]) || (k == 0 && r[k] == '-')
    ensures (r[0] == '-') <==> i < 0
    ensures i >= 0 && |r| > 1 ==> r[0] != '0'
    ensures i < 0 ==> |r| > 1 && r[1] != '0'
  {
    if i < 0 then "-" + NatToDecimal(-i) else NatToDecimal(i)
  }

  function DigitValue(c: char): Option<nat> {
    if '0' <= c <= '9' then Some(c as int - '0' as int) else None
  }

  /** Reads a non-empty string of decimal digits. */
  function ParseNat(s: string): Option<nat>
    decreases |s|
  {
    if |s| == 0 then None
    else
      match DigitValue(s[|s| - 1])
      case None => None
      case Some(d) =>
        if |s| == 1 then Some(d)
        else
          match ParseNat(s[..|s| - 1])
          case None => None
          case Some(p) => Some(10 * p + d)
  }

  /** Reads an optionally '-'-prefixed decimal integer. */
  function ParseInt(s: string): Option<int> {
    var magnitude := if |s| > 0 && s[0] == '-' then ParseNat(s[1..]) else ParseNat(s);
    match magnitude
    case None => None
    case Some(n) => if |s| > 0 && s[0] == '-' then Some(-(n as int)) else Some(n as int)
  }

  lemma {:induction false} NatToDecimalRoundTrip(n: nat)
    ensures ParseNat(NatToDecimal(n)) == Some(n)
    decreases n
  {
    if n >= 10 {
      var p := NatToDecimal(n / 10);
      var s := NatToDecimal(n);
      assert s == p + [DigitChar(n % 10)];
      assert s[..|s| - 1] == p;
      NatToDecimalRoundTrip(n / 10);
    }
  }

  /** `str` on integers is read back exactly by ParseInt. */
  lemma IntToDecimalRoundTrip(i: int)
    ensures ParseInt(IntToDecimal(i)) == Some(i)
  {
    if i < 0 {
      NatToDecimalRoundTrip(-i);
      assert IntToDecimal(i)[1..] == NatToDecimal(-i);
    } else {
      NatToDecimalRoundTrip(i);
    }
  }

  /** Distinct integers have distinct decimal renderings. */
  lemma IntToDecimalInjective(a: int, b: int)
    requires IntToDecimal(a) == IntToDecimal(b)
    ensures a == b
  {
    IntToDecimalRoundTrip(a);
    IntToDecimalRoundTrip(b);
  }

  function HexDigitsOf(bs: Bytes): (r: string)
    ensures |r| == 2 * |bs|
  {
    if |bs| == 0 then ""
    else [HexChar(bs[0] / 16), HexChar(bs[0] % 16)] + HexDigitsOf(bs[1..])
  }

  /** eth_utils' `encode_hex`. */
  function EncodeHex(bs: Bytes): (r: string)
    ensures |r| == 2 + 2 * |bs|
    ensures r[..2] == "0x"
  {
    "0x" + HexDigitsOf(bs)
  }

  function HexValue(c: char): Option<nat> {
    if '0' <= c <= '9' then Some(c as int - '0' as int)
    else if 'a' <= c <= 'f' then Some(c as int - 'a' as int + 10)
    else None
  }

  function ParseHexDigits(s: string): Option<Bytes>
    decreases |s|
  {
    if |s| == 0 then Some([])
    else if |s| == 1 then None
    else
      match (HexValue(s[0]), HexValue(s[1]), ParseHexDigits(s[2..]))
      case (Some(hi), Some(lo), Some(rest)) =>
        if hi < 16 && lo < 16 then Some([hi * 16 + lo] + rest) else None
      case _ => None
  }

  /** Reads "0x"-prefixed lower-case hex back into bytes. */
  function DecodeHex(s: string): Option<Bytes> {
    if |s| >= 2 && s[..2] == "0x" then ParseHexDigits(s[2..]) else None
  }

  lemma {:induction false} HexDigitsRoundTrip(bs: Bytes)
    ensures ParseHexDigits(HexDigitsOf(bs)) == Some(bs)
  {
    if |bs| > 0 {
      var s := HexDigitsOf(bs);
      assert s[2..] == HexDigitsOf(bs[1..]);
      HexDigitsRoundTrip(bs[1..]);
      assert [bs[0] / 16 * 16 + bs[0] % 16] + bs[1..] == bs;
    }
  }

  /** `encode_hex` is read back exactly by DecodeHex. */
  lemma EncodeHexRoundTrip(bs: Bytes)
    ensures DecodeHex(EncodeHex(bs)) == Some(bs)
  {
    assert EncodeHex(bs)[2..] == HexDigitsOf(bs);
    HexDigitsRoundTrip(bs);
  }
}
