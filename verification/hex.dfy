/** Bytes and their hexadecimal text form, as Python's `bytes.hex()` and
    `bytes.fromhex()` produce and read it. The user model stores its salt
    and hash this way. */
module Hex {
  import opened Wrappers

  newtype byte = x: int | 0 <= x < 256

  const Digits: string := "0123456789abcdef"

  /** `bytes.hex()`: two lower-case digits per byte, high nibble first. */
  function ToHex(bs: seq<byte>): (s: string)
    ensures |s| == 2 * |bs|
  {
    if |bs| == 0 then ""
    else [Digits[bs[0] as int / 16], Digits[bs[0] as int % 16]] + ToHex(bs[1..])
  }

  /** The value of a hexadecimal digit of either case. */
  function DigitValue(c: char): (r: Option<int>)
    ensures r.Some? ==> 0 <= r.value < 16
    ensures r.Some? ==> !IsAsciiSpace(c)
  {
    if '0' <= c <= '9' then Some(c as int - '0' as int)
    else if 'a' <= c <= 'f' then Some(c as int - 'a' as int + 10)
    else if 'A' <= c <= 'F' then Some(c as int - 'A' as int + 10)
    else None
  }

  /** The ASCII whitespace `bytes.fromhex` skips. */
  predicate IsAsciiSpace(c: char) {
    c == ' ' || c == '\t' || c == '\n' || c == '\r' || c as int == 11 || c as int == 12
  }

  /** `bytes.fromhex(s)`: pairs of hexadecimal digits, with whitespace
      allowed before a pair; anything else raises (`None`). */
  function FromHex(s: string): (r: Option<seq<byte>>)
    ensures r.Some? ==> 2 * |r.value| <= |s|
    decreases |s|
  {
    if |s| == 0 then Some([])
    else if IsAsciiSpace(s[0]) then FromHex(s[1..])
    else if |s| < 2 then None
    else
      match (DigitValue(s[0]), DigitValue(s[1]), FromHex(s[2..]))
      case (Some(hi), Some(lo), Some(rest)) => Some([(hi * 16 + lo) as byte] + rest)
      case _ => None
  }

  lemma DigitValueOfDigit(k: int)
    requires 0 <= k < 16
    ensures DigitValue(Digits[k]) == Some(k)
  {
  }

  /** Reading one pair of digits in front of readable text. */
  lemma FromHexPair(c1: char, c2: char, rest: string)
    requires DigitValue(c1).Some? && DigitValue(c2).Some? && FromHex(rest).Some?
    ensures FromHex([c1, c2] + rest) ==
      Some([(DigitValue(c1).value * 16 + DigitValue(c2).value) as byte] + FromHex(rest).value)
  {
    var s := [c1, c2] + rest;
    assert s[0] == c1 && s[1] == c2 && s[2..] == rest;
  }

  lemma NibblesRebuildByte(bs: seq<byte>)
    requires |bs| > 0
    ensures [((bs[0] as int / 16) * 16 + bs[0] as int % 16) as byte] + bs[1..] == bs
  {
    assert (bs[0] as int / 16) * 16 + bs[0] as int % 16 == bs[0] as int;
  }

  /** Reading back what `hex()` wrote gives the original bytes. */
  lemma {:induction false} FromHexToHex(bs: seq<byte>)
    ensures FromHex(ToHex(bs)) == Some(bs)
  {
    if |bs| > 0 {
      var hi, lo := bs[0] as int / 16, bs[0] as int % 16;
      assert ToHex(bs) == [Digits[hi], Digits[lo]] + ToHex(bs[1..]);
      DigitValueOfDigit(hi);
      DigitValueOfDigit(lo);
      FromHexToHex(bs[1..]);
      FromHexPair(Digits[hi], Digits[lo], ToHex(bs[1..]));
      NibblesRebuildByte(bs);
    }
  }

  /** Distinct byte strings have distinct hexadecimal forms. */
  lemma ToHexInjective(a: seq<byte>, b: seq<byte>)
    requires ToHex(a) == ToHex(b)
    ensures a == b
  {
    FromHexToHex(a);
    FromHexToHex(b);
  }
}
