/** UTF-8 encoding of text (section 3 of RFC 3629), as far as the digest needs
    it: the encoded length, and the fact that no two texts share their bytes. */
module Utf8 {

  type Byte = b: int | 0 <= b < 256

  function EncodeChar(c: char): (bytes: seq<Byte>)
    ensures 1 <= |bytes| <= 4
  {
    var n := c as int;
    if n < 0x80 then [n]
    else if n < 0x800 then [0xC0 + n / 64, 0x80 + n % 64]
    else if n < 0x10000 then [0xE0 + n / 4096, 0x80 + n / 64 % 64, 0x80 + n % 64]
    else [0xF0 + n / 262144, 0x80 + n / 4096 % 64, 0x80 + n / 64 % 64, 0x80 + n % 64]
  }

  function Encode(text: string): (bytes: seq<Byte>)
    ensures |bytes| >= |text|
  {
    if text == "" then [] else EncodeChar(text[0]) + Encode(text[1..])
  }

  /** How many bytes the character starting with this lead byte takes. */
  function LeadLength(lead: Byte): (n: nat)
  {
    if lead < 0xC0 then 1 else if lead < 0xE0 then 2 else if lead < 0xF0 then 3 else 4
  }

  /** The code point held by one encoded character. */
  function CodePoint(bytes: seq<Byte>): (n: int)
    requires 1 <= |bytes| <= 4
  {
    var tail := (i: int) requires 0 < i < |bytes| => bytes[i] as int - 0x80;
    var lead := bytes[0] as int;
    if |bytes| == 1 then lead
    else if |bytes| == 2 then (lead - 0xC0) * 64 + tail(1)
    else if |bytes| == 3 then (lead - 0xE0) * 4096 + tail(1) * 64 + tail(2)
    else (lead - 0xF0) * 262144 + tail(1) * 4096 + tail(2) * 64 + tail(3)
  }

  lemma EncodedCharDecodes(c: char)
    ensures LeadLength(EncodeChar(c)[0]) == |EncodeChar(c)|
    ensures CodePoint(EncodeChar(c)) == c as int
  {
    var n := c as int;
    assert n < 0x110000;
    if n >= 0x10000 {
      assert n / 262144 < 8;
      assert n / 64 == n / 4096 * 64 + n / 64 % 64;
      assert n / 4096 == n / 262144 * 64 + n / 4096 % 64;
    } else if n >= 0x800 {
      assert n / 64 == n / 4096 * 64 + n / 64 % 64;
    }
  }

  /** The shortest form, and only bytes 0x80 to 0xBF behind the first. */
  lemma ShortestBytes(c: char)
    ensures |EncodeChar(c)| == 1 <==> c as int <= 0x7F
    ensures |EncodeChar(c)| == 2 <==> 0x80 <= c as int <= 0x7FF
    ensures |EncodeChar(c)| == 3 <==> 0x800 <= c as int <= 0xFFFF
    ensures forall i :: 0 < i < |EncodeChar(c)| ==> 0x80 <= EncodeChar(c)[i] <= 0xBF
  {
  }

  lemma {:induction false} EncodeInjective(a: string, b: string)
    requires Encode(a) == Encode(b)
    ensures a == b
  {
    if a == "" || b == "" {
    } else {
      var x, y := EncodeChar(a[0]), EncodeChar(b[0]);
      EncodedCharDecodes(a[0]);
      EncodedCharDecodes(b[0]);
      assert x[0] == Encode(a)[0] == Encode(b)[0] == y[0];
      assert x == Encode(a)[..|x|] == Encode(b)[..|y|] == y;
      assert Encode(a[1..]) == Encode(a)[|x|..] == Encode(b)[|y|..] == Encode(b[1..]);
      EncodeInjective(a[1..], b[1..]);
      assert a == [a[0]] + a[1..] && b == [b[0]] + b[1..];
    }
  }
}
