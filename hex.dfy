/**
 * The device-identity text: six address bytes printed with the format
 * "%02X%02X%02X%02X%02X%02X", i.e. two upper-case hexadecimal digits per byte,
 * high nibble first, zero padded.  A decoder is given as the partner of the
 * encoder so that the encoding can be shown to lose nothing.
 */
module Hex {
  import opened Optional

  /** An unsigned 8-bit value (`uint8_t`). */
  type Byte = x: int | 0 <= x < 256

  /** A six-byte hardware (MAC) address. */
  type MacAddress = s: seq<Byte> | |s| == 6 witness [0, 0, 0, 0, 0, 0]

  /** Size of the `char[18]` buffers the formatted address is written into. */
  const MacTextBufferSize: nat := 18

  /** The characters `%X` can produce. */
  predicate IsUpperHexChar(c: char) {
    '0' <= c <= '9' || 'A' <= c <= 'F'
  }

  /** The `%X` digit for a nibble. */
  function HexDigit(n: int): (c: char)
    requires 0 <= n < 16
    ensures IsUpperHexChar(c)
  {
    if n < 10 then (n + '0' as int) as char else (n - 10 + 'A' as int) as char
  }

  /** The nibble an upper-case hexadecimal digit stands for; None for any other character. */
  function DigitValue(c: char): (r: Option<int>)
    ensures r.Some? <==> IsUpperHexChar(c)
    ensures r.Some? ==> 0 <= r.value < 16
  {
    if '0' <= c <= '9' then Some(c as int - '0' as int)
    else if 'A' <= c <= 'F' then Some(c as int - 'A' as int + 10)
    else None
  }

  lemma DigitValueOfHexDigit(n: int)
    requires 0 <= n < 16
    ensures DigitValue(HexDigit(n)) == Some(n)
  {
  }

  lemma HexDigitOfDigitValue(c: char)
    requires IsUpperHexChar(c)
    ensures HexDigit(DigitValue(c).value) == c
  {
  }

  /** One byte as "%02X": exactly two digits, high nibble first. */
  function HexByte(b: Byte): string {
    [HexDigit(b / 16), HexDigit(b % 16)]
  }

  /** The bytes printed one after another with "%02X". */
  function HexEncode(bytes: seq<Byte>): (s: string)
    ensures |s| == 2 * |bytes|
    ensures forall k :: 0 <= k < |s| ==> IsUpperHexChar(s[k])
    ensures forall i :: 0 <= i < |bytes| ==>
              s[2 * i] == HexDigit(bytes[i] / 16) && s[2 * i + 1] == HexDigit(bytes[i] % 16)
  {
    if bytes == [] then [] else HexByte(bytes[0]) + HexEncode(bytes[1..])
  }

  /** Reads text made of digit pairs back into bytes; None unless every pair is two upper-case hex digits. */
  function HexDecode(s: string): (r: Option<seq<Byte>>)
    ensures r.Some? ==> 2 * |r.value| == |s|
    decreases |s|
  {
    if |s| == 0 then Some([])
    else if |s| == 1 then None
    else
      match (DigitValue(s[0]), DigitValue(s[1]), HexDecode(s[2..]))
      case (Some(hi), Some(lo), Some(rest)) => Some([hi * 16 + lo] + rest)
      case _ => None
  }

  /** Decoding the encoding gives back the bytes. */
  lemma {:induction false} DecodeEncode(bytes: seq<Byte>)
    ensures HexDecode(HexEncode(bytes)) == Some(bytes)
  {
    if bytes != [] {
      var s := HexEncode(bytes);
      var b := bytes[0];
      DecodeEncode(bytes[1..]);
      assert s[2..] == HexEncode(bytes[1..]);
      DigitValueOfHexDigit(b / 16);
      DigitValueOfHexDigit(b % 16);
      assert (b / 16) * 16 + b % 16 == b;
      assert [b] + bytes[1..] == bytes;
    }
  }

  /** Everything the decoder accepts is the encoding of what it returns. */
  lemma {:induction false} EncodeDecode(s: string)
    requires HexDecode(s).Some?
    ensures HexEncode(HexDecode(s).value) == s
    decreases |s|
  {
    if |s| >= 2 {
      var hi, lo := DigitValue(s[0]).value, DigitValue(s[1]).value;
      var rest := HexDecode(s[2..]).value;
      EncodeDecode(s[2..]);
      var b: Byte := hi * 16 + lo;
      assert b / 16 == hi && b % 16 == lo;
      HexDigitOfDigitValue(s[0]);
      HexDigitOfDigitValue(s[1]);
      assert HexDecode(s).value == [b] + rest;
      assert ([b] + rest)[1..] == rest;
      assert s == s[..2] + s[2..];
    }
  }

  /** The decoder accepts exactly the even-length strings of upper-case hex digits. */
  lemma {:induction false} HexDecodeAccepts(s: string)
    ensures HexDecode(s).Some? <==> (|s| % 2 == 0 && forall k :: 0 <= k < |s| ==> IsUpperHexChar(s[k]))
    decreases |s|
  {
    if |s| >= 2 {
      HexDecodeAccepts(s[2..]);
      assert forall k :: 2 <= k < |s| ==> s[k] == s[2..][k - 2];
    }
  }

  /** Different byte strings never print the same. */
  lemma HexEncodeInjective(a: seq<Byte>, b: seq<Byte>)
    requires HexEncode(a) == HexEncode(b)
    ensures a == b
  {
    DecodeEncode(a);
    DecodeEncode(b);
  }

  /**
   * The address as `sprintf(buf, "%02X%02X%02X%02X%02X%02X", ...)` writes it:
   * twelve upper-case hex digits that fit, with their terminator, in the 18-byte
   * buffer, and that read back as the address.
   */
  function FormatMac(mac: MacAddress): (s: string)
    ensures |s| == 12 && |s| + 1 <= MacTextBufferSize
    ensures forall k :: 0 <= k < |s| ==> IsUpperHexChar(s[k])
    ensures forall i :: 0 <= i < 6 ==> s[2 * i] == HexDigit(mac[i] / 16) && s[2 * i + 1] == HexDigit(mac[i] % 16)
    ensures HexDecode(s) == Some(mac)
  {
    DecodeEncode(mac);
    HexEncode(mac)
  }

  /** Two formattings agree exactly when the addresses do. */
  lemma FormatMacInjective(a: MacAddress, b: MacAddress)
    ensures FormatMac(a) == FormatMac(b) <==> a == b
  {
    if FormatMac(a) == FormatMac(b) {
      HexEncodeInjective(a, b);
    }
  }
}
