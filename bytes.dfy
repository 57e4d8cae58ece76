/** Byte strings, Go's `[]byte(s)` conversion and `hex.EncodeToString`. */
module Bytes {

  newtype Byte = b: int | 0 <= b < 256

  type Bytes = seq<Byte>

  /** The UTF-8 encoding of one Unicode scalar value. */
  function EncodeChar(c: char): (r: Bytes)
    ensures 1 <= |r| <= 4
    ensures (c as int < 0x80) <==> |r| == 1
    ensures c as int < 0x80 ==> r == [c as int as Byte]
  {
    var n := c as int;
    if n < 0x80 then [n as Byte]
    else if n < 0x800 then [(0xC0 + n / 0x40) as Byte, (0x80 + n % 0x40) as Byte]
    else if n < 0x10000 then
      [(0xE0 + n / 0x1000) as Byte, (0x80 + n / 0x40 % 0x40) as Byte, (0x80 + n % 0x40) as Byte]
    else
      [(0xF0 + n / 0x40000) as Byte, (0x80 + n / 0x1000 % 0x40) as Byte,
       (0x80 + n / 0x40 % 0x40) as Byte, (0x80 + n % 0x40) as Byte]
  }

  /** Go's `[]byte(s)`: the UTF-8 encoding of a string. */
  function Utf8(s: string): (r: Bytes)
    ensures |r| >= |s|
    ensures s == [] <==> r == []
  {
    if s == [] then [] else EncodeChar(s[0]) + Utf8(s[1..])
  }

  /** Encoding a concatenation concatenates the encodings. */
  lemma {:induction false} Utf8Concat(a: string, b: string)
    ensures Utf8(a + b) == Utf8(a) + Utf8(b)
  {
    if a == [] {
      assert a + b == b;
    } else {
      assert (a + b)[0] == a[0] && (a + b)[1..] == a[1..] + b;
      Utf8Concat(a[1..], b);
    }
  }

  const HexDigits: string := "0123456789abcdef"

  /** The two lower-case hexadecimal digits of one byte, high nibble first. */
  function HexByte(b: Byte): (r: string)
    ensures |r| == 2 && r[0] in HexDigits && r[1] in HexDigits
  {
    [HexDigits[b as int / 16], HexDigits[b as int % 16]]
  }

  /** Go's `hex.EncodeToString`: the digits of each byte in turn. */
  function Hex(bs: Bytes): (r: string)
    ensures |r| == 2 * |bs|
  {
    if bs == [] then "" else HexByte(bs[0]) + Hex(bs[1..])
  }

  /** Distinct byte strings have distinct hexadecimal encodings. */
  lemma {:induction false} HexInjective(a: Bytes, b: Bytes)
    requires Hex(a) == Hex(b)
    ensures a == b
  {
    if a != [] {
      var ha, hb := Hex(a), Hex(b);
      assert ha[..2] == HexByte(a[0]) && hb[..2] == HexByte(b[0]);
      assert ha[2..] == Hex(a[1..]) && hb[2..] == Hex(b[1..]);
      HexByteInjective(a[0], b[0]);
      HexInjective(a[1..], b[1..]);
    }
  }

  lemma HexByteInjective(x: Byte, y: Byte)
    requires HexByte(x) == HexByte(y)
    ensures x == y
  {
    var hx, hy := HexByte(x), HexByte(y);
    assert hx[0] == hy[0] && hx[1] == hy[1];
    DigitIndex(x as int / 16, y as int / 16);
    DigitIndex(x as int % 16, y as int % 16);
  }

  lemma DigitIndex(x: int, y: int)
    requires 0 <= x < 16 && 0 <= y < 16
    requires HexDigits[x] == HexDigits[y]
    ensures x == y
  {
  }
}
