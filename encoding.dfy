/**
 * The two encodings the Basic authentication header is built from:
 * UTF-8 (section 3 of RFC 3629), as `String.getBytes("UTF-8")` produces it,
 * and Base64 with padding (section 4 of RFC 4648), as `CryptoStreams.base64`
 * produces it. Each comes with a decoder and a round-trip lemma.
 */
module Encoding {
  import opened Results

  newtype byte = x: int | 0 <= x < 256

  // ---------------------------------------------------------------- UTF-8

  /** True of the code points a Dafny `char` can hold (Unicode scalar values). */
  predicate IsScalar(n: int)
  {
    (0 <= n < 0xD800) || (0xE000 <= n < 0x11_0000)
  }

  /** True of a UTF-8 continuation byte, 10xxxxxx. */
  predicate IsContinuation(b: byte)
  {
    0x80 <= b < 0xC0
  }

  /** The one to four bytes that encode one character. */
  function EncodeChar(c: char): (r: seq<byte>)
    ensures 1 <= |r| <= 4
  {
    var n := c as int;
    if n < 0x80 then [n as byte]
    else if n < 0x800 then [(0xC0 + n / 0x40) as byte, (0x80 + n % 0x40) as byte]
    else if n < 0x1_0000 then
      [(0xE0 + n / 0x1000) as byte, (0x80 + n / 0x40 % 0x40) as byte, (0x80 + n % 0x40) as byte]
    else
      [(0xF0 + n / 0x4_0000) as byte, (0x80 + n / 0x1000 % 0x40) as byte,
       (0x80 + n / 0x40 % 0x40) as byte, (0x80 + n % 0x40) as byte]
  }

  /** `String.getBytes("UTF-8")`. */
  function Utf8Encode(s: string): seq<byte>
  {
    if s == [] then [] else EncodeChar(s[0]) + Utf8Encode(s[1..])
  }

  /** Reads one character from the front of `b`: the character and the number of bytes it took. */
  function DecodeChar(b: seq<byte>): (r: Option<(char, nat)>)
    ensures r.Some? ==> 1 <= r.value.1 <= |b|
  {
    if |b| == 0 then None
    else if b[0] < 0x80 then Some((b[0] as int as char, 1))
    else if b[0] < 0xC0 then None
    else if b[0] < 0xE0 then
      if |b| < 2 || !IsContinuation(b[1]) then None
      else
        var n := (b[0] as int - 0xC0) * 0x40 + (b[1] as int - 0x80);
        if IsScalar(n) then Some((n as char, 2)) else None
    else if b[0] < 0xF0 then
      if |b| < 3 || !IsContinuation(b[1]) || !IsContinuation(b[2]) then None
      else
        var n := (b[0] as int - 0xE0) * 0x1000 + (b[1] as int - 0x80) * 0x40 + (b[2] as int - 0x80);
        if IsScalar(n) then Some((n as char, 3)) else None
    else
      if |b| < 4 || !IsContinuation(b[1]) || !IsContinuation(b[2]) || !IsContinuation(b[3]) then None
      else
        var n := (b[0] as int - 0xF0) * 0x4_0000 + (b[1] as int - 0x80) * 0x1000
          + (b[2] as int - 0x80) * 0x40 + (b[3] as int - 0x80);
        if IsScalar(n) then Some((n as char, 4)) else None
  }

  /** Decodes a whole byte sequence, or fails on a malformed one. */
  function Utf8Decode(b: seq<byte>): Option<string>
    decreases |b|
  {
    if b == [] then Some([])
    else match DecodeChar(b)
      case None => None
      case Some((c, k)) =>
        match Utf8Decode(b[k..])
        case None => None
        case Some(rest) => Some([c] + rest)
  }

  /** The bit arithmetic of a three-byte character: its three six-bit parts put back together give the code point. */
  lemma ThreeByteArithmetic(n: int)
    requires 0 <= n
    ensures (n / 0x1000) * 0x1000 + (n / 0x40 % 0x40) * 0x40 + n % 0x40 == n
  {
    var q := n / 0x40;
    assert q / 0x40 == n / 0x1000;
  }

  /** The bit arithmetic of a four-byte character. */
  lemma FourByteArithmetic(n: int)
    requires 0 <= n
    ensures (n / 0x4_0000) * 0x4_0000 + (n / 0x1000 % 0x40) * 0x1000 + (n / 0x40 % 0x40) * 0x40 + n % 0x40 == n
  {
    var q := n / 0x40;
    var h := n / 0x1000;
    assert q / 0x40 == h && h / 0x40 == n / 0x4_0000;
  }

  /** Decoding the front of an encoded character gives the character back and consumes its bytes. */
  lemma DecodeEncodedChar(c: char, rest: seq<byte>)
    ensures DecodeChar(EncodeChar(c) + rest) == Some((c, |EncodeChar(c)|))
  {
    var n := c as int;
    var e := EncodeChar(c) + rest;
    if n < 0x80 {
    } else if n < 0x800 {
      assert e[0] as int == 0xC0 + n / 0x40 && e[1] as int == 0x80 + n % 0x40;
    } else if n < 0x1_0000 {
      ThreeByteArithmetic(n);
      assert e[0] as int == 0xE0 + n / 0x1000 && e[1] as int == 0x80 + n / 0x40 % 0x40 && e[2] as int == 0x80 + n % 0x40;
    } else {
      FourByteArithmetic(n);
      assert e[0] as int == 0xF0 + n / 0x4_0000 && e[1] as int == 0x80 + n / 0x1000 % 0x40;
      assert e[2] as int == 0x80 + n / 0x40 % 0x40 && e[3] as int == 0x80 + n % 0x40;
    }
  }

  /** UTF-8 round trip: decoding the encoding of any string gives the string back. */
  lemma {:induction false} Utf8RoundTrip(s: string)
    ensures Utf8Decode(Utf8Encode(s)) == Some(s)
    decreases |s|
  {
    if s != [] {
      var e := EncodeChar(s[0]);
      var rest := Utf8Encode(s[1..]);
      DecodeEncodedChar(s[0], rest);
      assert (e + rest)[|e|..] == rest;
      Utf8RoundTrip(s[1..]);
      assert [s[0]] + s[1..] == s;
    }
  }

  // --------------------------------------------------------------- Base64

  /** The character of the Base64 alphabet for a six-bit value. */
  function Base64Digit(v: int): (c: char)
    requires 0 <= v < 64
    ensures c != '='
  {
    if v < 26 then (v + 'A' as int) as char
    else if v < 52 then (v - 26 + 'a' as int) as char
    else if v < 62 then (v - 52 + '0' as int) as char
    else if v == 62 then '+'
    else '/'
  }

  /** The six-bit value of a Base64 alphabet character; none for any other character. */
  function Base64Value(c: char): (r: Option<int>)
    ensures r.Some? ==> 0 <= r.value < 64
  {
    if 'A' <= c <= 'Z' then Some(c as int - 'A' as int)
    else if 'a' <= c <= 'z' then Some(c as int - 'a' as int + 26)
    else if '0' <= c <= '9' then Some(c as int - '0' as int + 52)
    else if c == '+' then Some(62)
    else if c == '/' then Some(63)
    else None
  }

  /** The four digits of a full group of three bytes. */
  function EncodeGroup(x0: byte, x1: byte, x2: byte): (r: string)
    ensures |r| == 4
  {
    var b0, b1, b2 := x0 as int, x1 as int, x2 as int;
    [Base64Digit(b0 / 4), Base64Digit(b0 % 4 * 16 + b1 / 16), Base64Digit(b1 % 16 * 4 + b2 / 64), Base64Digit(b2 % 64)]
  }

  /** Two trailing bytes: three digits and one pad character. */
  function EncodeTwo(x0: byte, x1: byte): (r: string)
    ensures |r| == 4
  {
    var b0, b1 := x0 as int, x1 as int;
    [Base64Digit(b0 / 4), Base64Digit(b0 % 4 * 16 + b1 / 16), Base64Digit(b1 % 16 * 4), '=']
  }

  /** One trailing byte: two digits and two pad characters. */
  function EncodeOne(x0: byte): (r: string)
    ensures |r| == 4
  {
    var b0 := x0 as int;
    [Base64Digit(b0 / 4), Base64Digit(b0 % 4 * 16), '=', '=']
  }

  /** Base64 encoding with `=` padding (section 4 of RFC 4648): every three bytes become four characters. */
  function Base64Encode(b: seq<byte>): (r: string)
    ensures |r| == (|b| + 2) / 3 * 4
    decreases |b|
  {
    if |b| == 0 then []
    else if |b| == 1 then EncodeOne(b[0])
    else if |b| == 2 then EncodeTwo(b[0], b[1])
    else EncodeGroup(b[0], b[1], b[2]) + Base64Encode(b[3..])
  }

  /** The three bytes that four six-bit values carry. */
  function Byte0(v0: int, v1: int): byte
    requires 0 <= v0 < 64 && 0 <= v1 < 64
  {
    (v0 * 4 + v1 / 16) as byte
  }

  function Byte1(v1: int, v2: int): byte
    requires 0 <= v1 < 64 && 0 <= v2 < 64
  {
    (v1 % 16 * 16 + v2 / 4) as byte
  }

  function Byte2(v2: int, v3: int): byte
    requires 0 <= v2 < 64 && 0 <= v3 < 64
  {
    (v2 % 4 * 64 + v3) as byte
  }

  /** Decodes padded Base64, or fails on a character outside the alphabet or a bad length. */
  function Base64Decode(s: string): Option<seq<byte>>
    decreases |s|
  {
    if |s| == 0 then Some([])
    else if |s| < 4 then None
    else
      var v0, v1, v2, v3 := Base64Value(s[0]), Base64Value(s[1]), Base64Value(s[2]), Base64Value(s[3]);
      if v0.None? || v1.None? then None
      else if |s| == 4 && s[2] == '=' && s[3] == '=' then Some([Byte0(v0.value, v1.value)])
      else if v2.None? then None
      else if |s| == 4 && s[3] == '=' then Some([Byte0(v0.value, v1.value), Byte1(v1.value, v2.value)])
      else if v3.None? then None
      else
        var rest := Base64Decode(s[4..]);
        if rest.None? then None
        else Some([Byte0(v0.value, v1.value), Byte1(v1.value, v2.value), Byte2(v2.value, v3.value)] + rest.value)
  }

  /** Every Base64 digit decodes to the value it encodes. */
  lemma DigitValue(v: int)
    requires 0 <= v < 64
    ensures Base64Value(Base64Digit(v)) == Some(v)
  {
  }

  /** The bit arithmetic of one group: the six-bit values the encoder forms give the bytes back. */
  lemma GroupArithmetic(x0: byte, x1: byte, x2: byte)
    ensures var b0, b1, b2 := x0 as int, x1 as int, x2 as int;
      Byte0(b0 / 4, b0 % 4 * 16 + b1 / 16) == x0
      && Byte1(b0 % 4 * 16 + b1 / 16, b1 % 16 * 4 + b2 / 64) == x1
      && Byte2(b1 % 16 * 4 + b2 / 64, b2 % 64) == x2
  {
    var b0, b1, b2 := x0 as int, x1 as int, x2 as int;
    var v1 := b0 % 4 * 16 + b1 / 16;
    var v2 := b1 % 16 * 4 + b2 / 64;
    assert v1 / 16 == b0 % 4 && v1 % 16 == b1 / 16;
    assert v2 / 4 == b1 % 16 && v2 % 4 == b2 / 64;
  }

  lemma RoundTripOne(x0: byte)
    ensures Base64Decode(EncodeOne(x0)) == Some([x0])
  {
    var b0 := x0 as int;
    var v0, v1 := b0 / 4, b0 % 4 * 16;
    DigitValue(v0);
    DigitValue(v1);
    GroupArithmetic(x0, 0, 0);
    assert Byte0(v0, v1) == x0;
  }

  lemma RoundTripTwo(x0: byte, x1: byte)
    ensures Base64Decode(EncodeTwo(x0, x1)) == Some([x0, x1])
  {
    var b0, b1 := x0 as int, x1 as int;
    var v0, v1, v2 := b0 / 4, b0 % 4 * 16 + b1 / 16, b1 % 16 * 4;
    DigitValue(v0);
    DigitValue(v1);
    DigitValue(v2);
    GroupArithmetic(x0, x1, 0);
    assert Byte0(v0, v1) == x0 && Byte1(v1, v2) == x1;
  }

  /** Four digits decode to the three bytes they carry, in front of whatever follows decodes to. */
  lemma DecodeDigits(v0: int, v1: int, v2: int, v3: int, rest: string, tail: seq<byte>)
    requires 0 <= v0 < 64 && 0 <= v1 < 64 && 0 <= v2 < 64 && 0 <= v3 < 64
    requires Base64Decode(rest) == Some(tail)
    ensures Base64Decode([Base64Digit(v0), Base64Digit(v1), Base64Digit(v2), Base64Digit(v3)] + rest)
      == Some([Byte0(v0, v1), Byte1(v1, v2), Byte2(v2, v3)] + tail)
  {
    var s := [Base64Digit(v0), Base64Digit(v1), Base64Digit(v2), Base64Digit(v3)] + rest;
    DigitValue(v0);
    DigitValue(v1);
    DigitValue(v2);
    DigitValue(v3);
    assert s[4..] == rest;
  }

  /** A full group decodes to its three bytes, in front of whatever follows decodes to. */
  lemma RoundTripGroup(x0: byte, x1: byte, x2: byte, rest: string, tail: seq<byte>)
    requires Base64Decode(rest) == Some(tail)
    ensures Base64Decode(EncodeGroup(x0, x1, x2) + rest) == Some([x0, x1, x2] + tail)
  {
    var b0, b1, b2 := x0 as int, x1 as int, x2 as int;
    DecodeDigits(b0 / 4, b0 % 4 * 16 + b1 / 16, b1 % 16 * 4 + b2 / 64, b2 % 64, rest, tail);
    GroupArithmetic(x0, x1, x2);
  }

  /** Base64 round trip: decoding the encoding of any byte sequence gives the bytes back. */
  lemma {:induction false} Base64RoundTrip(b: seq<byte>)
    ensures Base64Decode(Base64Encode(b)) == Some(b)
    decreases |b|
  {
    if |b| == 1 {
      RoundTripOne(b[0]);
      assert [b[0]] == b;
    } else if |b| == 2 {
      RoundTripTwo(b[0], b[1]);
      assert [b[0], b[1]] == b;
    } else if |b| >= 3 {
      Base64RoundTrip(b[3..]);
      RoundTripGroup(b[0], b[1], b[2], Base64Encode(b[3..]), b[3..]);
      assert [b[0], b[1], b[2]] + b[3..] == b;
    }
  }
}
