/**
  `sha256(_:)`: hash the UTF-8 bytes of a string and render the 32-byte digest
  as `%02x` per byte, joined: base 16 (section 8 of RFC 4648) with lowercase
  digits. The SHA-256 compression function (FIPS 180-4) is a parameter.
 */
module DigestHex {
  import opened SignInTypes
  import Utf8

  /** A SHA-256 digest: 32 bytes. */
  type Digest = s: seq<uint8> | |s| == 32 witness seq(32, _ => 0 as uint8)

  predicate IsLowerHexDigit(c: char)
  {
    '0' <= c <= '9' || 'a' <= c <= 'f'
  }

  /** The lowercase hex digit for a value below 16. */
  function HexDigit(d: int): (c: char)
    requires 0 <= d < 16
    ensures IsLowerHexDigit(c)
  {
    if d < 10 then ('0' as int + d) as char else ('a' as int + d - 10) as char
  }

  /** The value of a lowercase hex digit, or None: the inverse of `HexDigit`. */
  function DigitValue(c: char): (r: Option<int>)
    ensures r.Some? <==> IsLowerHexDigit(c)
    ensures r.Some? ==> 0 <= r.value < 16 && HexDigit(r.value) == c
  {
    if '0' <= c <= '9' then Some(c as int - '0' as int)
    else if 'a' <= c <= 'f' then Some(c as int - 'a' as int + 10)
    else None
  }

  /** `HexDigit` is one-to-one: `DigitValue` reads each digit back. */
  lemma DigitValueHexDigit(d: int)
    requires 0 <= d < 16
    ensures DigitValue(HexDigit(d)) == Some(d)
  {
  }

  /** `String(format: "%02x", b)`: two lowercase digits, high nibble first, whose value is `b`. */
  function HexByte(b: uint8): (r: string)
    ensures |r| == 2 && IsLowerHexDigit(r[0]) && IsLowerHexDigit(r[1])
    ensures DigitValue(r[0]).value * 16 + DigitValue(r[1]).value == b
  {
    DigitValueHexDigit(b / 16);
    DigitValueHexDigit(b % 16);
    [HexDigit(b / 16), HexDigit(b % 16)]
  }

  /** The `compactMap { %02x }.joined()` rendering: two lowercase digits per byte. */
  function Hex(bytes: seq<uint8>): (r: string)
    ensures |r| == 2 * |bytes|
    ensures forall i :: 0 <= i < |r| ==> IsLowerHexDigit(r[i])
  {
    if bytes == [] then "" else HexByte(bytes[0]) + Hex(bytes[1..])
  }

  /** The rendering keeps byte order: byte i becomes characters 2i and 2i+1. */
  lemma {:induction false} HexAt(bytes: seq<uint8>, i: int)
    requires 0 <= i < |bytes|
    ensures Hex(bytes)[2 * i..2 * i + 2] == HexByte(bytes[i])
  {
    var head, tail := HexByte(bytes[0]), Hex(bytes[1..]);
    assert Hex(bytes) == head + tail;
    if i == 0 {
      assert (head + tail)[..2] == head;
    } else {
      HexAt(bytes[1..], i - 1);
      assert bytes[1..][i - 1] == bytes[i];
      assert (head + tail)[2 * i..2 * i + 2] == tail[2 * i - 2..2 * i];
    }
  }

  /** The byte whose high and low hex digits have values `h` and `l`. */
  function ByteOf(h: int, l: int): (b: uint8)
    requires 0 <= h < 16 && 0 <= l < 16
    ensures b / 16 == h && b % 16 == l
  {
    h * 16 + l
  }

  /** Decoder for lowercase base 16: None on odd length or a character outside [0-9a-f]. */
  function Unhex(s: string): (r: Option<seq<uint8>>)
    ensures r.Some? ==> 2 * |r.value| == |s|
  {
    if s == [] then Some([])
    else if |s| == 1 || DigitValue(s[0]).None? || DigitValue(s[1]).None? then None
    else
      match Unhex(s[2..])
      case None => None
      case Some(rest) => Some([ByteOf(DigitValue(s[0]).value, DigitValue(s[1]).value)] + rest)
  }

  /** Decoding the rendering gives the digest back, byte for byte. */
  lemma {:induction false} UnhexHex(bytes: seq<uint8>)
    ensures Unhex(Hex(bytes)) == Some(bytes)
  {
    if bytes != [] {
      var s := Hex(bytes);
      assert s[..2] == HexByte(bytes[0]) && s[2..] == Hex(bytes[1..]);
      UnhexHex(bytes[1..]);
      assert [bytes[0]] + bytes[1..] == bytes;
    }
  }

  /** Conversely, whatever decodes is the rendering of what it decodes to: the encoding is canonical. */
  lemma {:induction false} HexUnhex(s: string, bytes: seq<uint8>)
    requires Unhex(s) == Some(bytes)
    ensures Hex(bytes) == s
  {
    if s != [] {
      var h, l := DigitValue(s[0]).value, DigitValue(s[1]).value;
      var rest := Unhex(s[2..]).value;
      assert bytes == [ByteOf(h, l)] + rest;
      HexUnhex(s[2..], rest);
      assert HexByte(bytes[0]) == [HexDigit(h), HexDigit(l)] == s[..2];
      assert bytes[1..] == rest;
      assert Hex(bytes) == s[..2] + s[2..];
    }
  }

  /**
    `sha256(input)`: 64 lowercase hex characters that decode to the digest of
    the input's UTF-8 bytes.
   */
  function Sha256(input: string, hash: seq<uint8> -> Digest): (r: string)
    ensures |r| == 64 && forall i :: 0 <= i < |r| ==> IsLowerHexDigit(r[i])
    ensures Unhex(r) == Some(hash(Utf8.Encode(input)))
  {
    UnhexHex(hash(Utf8.Encode(input)));
    Hex(hash(Utf8.Encode(input)))
  }
}
