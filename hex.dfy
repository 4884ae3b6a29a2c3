/** Hexadecimal text as Node.js handles it: `digest("hex")` writes two lower-case digits per
    byte; `Buffer.from(text, "hex")` reads pairs of digits of either case and stops at the
    first pair that is not two digits, dropping a final unpaired digit. */
module Hex {
  import opened Common

  const HexDigits := "0123456789abcdef"

  function HexValue(c: char): (r: Option<nat>)
    ensures r.Some? ==> r.value < 16
  {
    if '0' <= c <= '9' then Some(c as int - '0' as int)
    else if 'a' <= c <= 'f' then Some(c as int - 'a' as int + 10)
    else if 'A' <= c <= 'F' then Some(c as int - 'A' as int + 10)
    else None
  }

  /** `digest("hex")` of a byte string. */
  function HexEncode(b: seq<byte>): (s: string)
    ensures |s| == 2 * |b|
  {
    if b == [] then ""
    else [HexDigits[b[0] as int / 16], HexDigits[b[0] as int % 16]] + HexEncode(b[1..])
  }

  /** `Buffer.from(s, "hex")`. */
  function HexDecode(s: string): (b: seq<byte>)
    ensures |b| <= |s| / 2
  {
    if |s| < 2 then []
    else
      match (HexValue(s[0]), HexValue(s[1]))
      case (Some(hi), Some(lo)) => [(hi * 16 + lo) as byte] + HexDecode(s[2..])
      case _ => []
  }

  lemma HexValueOfDigit(n: nat)
    requires n < 16
    ensures HexValue(HexDigits[n]) == Some(n)
  {
  }

  /** The two digits written for one byte decode back to it, whatever follows them. */
  lemma DecodeOneByte(x: byte, rest: string)
    ensures HexDecode(HexEncode([x]) + rest) == [x] + HexDecode(rest)
  {
    HexValueOfDigit(x as int / 16);
    HexValueOfDigit(x as int % 16);
    var s := HexEncode([x]) + rest;
    assert s[2..] == rest;
  }

  /** Decoding stops after the encoded part: text after a full encoding only adds what
      it decodes to on its own (nothing, when it starts with a non-digit or is one digit). */
  lemma {:induction false} HexDecodeAfterEncoding(b: seq<byte>, tail: string)
    ensures HexDecode(HexEncode(b) + tail) == b + HexDecode(tail)
  {
    if b != [] {
      assert HexEncode(b) + tail == HexEncode([b[0]]) + (HexEncode(b[1..]) + tail);
      DecodeOneByte(b[0], HexEncode(b[1..]) + tail);
      HexDecodeAfterEncoding(b[1..], tail);
      assert b == [b[0]] + b[1..];
    } else {
      assert HexEncode(b) + tail == tail;
    }
  }

  /** Decoding what `digest("hex")` wrote gives the digest back. */
  lemma HexRoundTrip(b: seq<byte>)
    ensures HexDecode(HexEncode(b)) == b
  {
    HexDecodeAfterEncoding(b, "");
    assert HexEncode(b) + "" == HexEncode(b);
  }
}
