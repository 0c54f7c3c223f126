/** UTF-8 (RFC 3629): how `Buffer.from(string)` turns text into bytes and `toString('utf-8')` back. */
module Utf8 {
  import opened Wrappers
  import opened Strings

  predicate IsContinuation(x: byte) {
    0x80 <= x as int <= 0xBF
  }

  /** A code point in the range Dafny's `char` covers: a Unicode scalar value. */
  predicate IsScalar(n: int) {
    (0 <= n < 0xD800) || (0xE000 <= n < 0x11_0000)
  }

  /** The one to four bytes encoding one character. */
  function EncodeChar(c: char): (b: seq<byte>)
    ensures 1 <= |b| <= 4
  {
    var n := c as int;
    if n < 0x80 then [n as byte]
    else if n < 0x800 then [(0xC0 + n / 64) as byte, (0x80 + n % 64) as byte]
    else if n < 0x1_0000 then
      [(0xE0 + n / 4096) as byte, (0x80 + n / 64 % 64) as byte, (0x80 + n % 64) as byte]
    else
      [(0xF0 + n / 262144) as byte, (0x80 + n / 4096 % 64) as byte, (0x80 + n / 64 % 64) as byte, (0x80 + n % 64) as byte]
  }

  function Encode(s: string): (b: seq<byte>)
    ensures |s| <= |b| <= 4 * |s|
  {
    if s == [] then [] else EncodeChar(s[0]) + Encode(s[1..])
  }

  /** The character at the front of `b` and the number of bytes it takes, or `None` if `b` does not
      start with a well-formed sequence (overlong forms, surrogates and code points past U+10FFFF
      are ill-formed, section 3 of RFC 3629). */
  function DecodeFirst(b: seq<byte>): (r: Option<(char, nat)>)
    requires |b| > 0
    ensures r.Some? ==> 1 <= r.value.1 <= |b|
  {
    var x := b[0] as int;
    if x < 0x80 then Some((x as char, 1))
    else if 0xC2 <= x <= 0xDF && |b| >= 2 && IsContinuation(b[1]) then
      var n := (x - 0xC0) * 64 + (b[1] as int - 0x80);
      Some((n as char, 2))
    else if 0xE0 <= x <= 0xEF && |b| >= 3 && IsContinuation(b[1]) && IsContinuation(b[2]) then
      var n := (x - 0xE0) * 4096 + (b[1] as int - 0x80) * 64 + (b[2] as int - 0x80);
      if 0x800 <= n && IsScalar(n) then Some((n as char, 3)) else None
    else if 0xF0 <= x <= 0xF4 && |b| >= 4 && IsContinuation(b[1]) && IsContinuation(b[2]) && IsContinuation(b[3]) then
      var n := (x - 0xF0) * 262144 + (b[1] as int - 0x80) * 4096 + (b[2] as int - 0x80) * 64 + (b[3] as int - 0x80);
      if 0x1_0000 <= n && IsScalar(n) then Some((n as char, 4)) else None
    else None
  }

  /** A strict decoder: `None` unless `b` is well-formed UTF-8. */
  function Decode(b: seq<byte>): Option<string>
    decreases |b|
  {
    if b == [] then Some("")
    else match DecodeFirst(b)
      case None => None
      case Some((c, k)) =>
        match Decode(b[k..])
        case None => None
        case Some(rest) => Some([c] + rest)
  }

  lemma DecodeTwoBytes(c: char, rest: seq<byte>)
    requires 0x80 <= c as int < 0x800
    ensures DecodeFirst(EncodeChar(c) + rest) == Some((c, 2))
  {
    var n := c as int;
    var b := EncodeChar(c) + rest;
    assert b[0] as int == 0xC0 + n / 64 && b[1] as int == 0x80 + n % 64;
    assert (b[0] as int - 0xC0) * 64 + (b[1] as int - 0x80) == n;
  }

  lemma DecodeThreeBytes(c: char, rest: seq<byte>)
    requires 0x800 <= c as int < 0x1_0000
    ensures DecodeFirst(EncodeChar(c) + rest) == Some((c, 3))
  {
    var n := c as int;
    var b := EncodeChar(c) + rest;
    var x0, x1, x2 := n / 4096, n / 64 % 64, n % 64;
    assert b[0] as int == 0xE0 + x0 && b[1] as int == 0x80 + x1 && b[2] as int == 0x80 + x2;
    assert x0 * 4096 + x1 * 64 + x2 == n;
  }

  lemma DecodeFourBytes(c: char, rest: seq<byte>)
    requires 0x1_0000 <= c as int
    ensures DecodeFirst(EncodeChar(c) + rest) == Some((c, 4))
  {
    var n := c as int;
    var b := EncodeChar(c) + rest;
    var q1, x3 := n / 64, n % 64;
    var q2, x2 := q1 / 64, q1 % 64;
    var q3, x1 := q2 / 64, q2 % 64;
    assert n == q1 * 64 + x3 && q1 == q2 * 64 + x2 && q2 == q3 * 64 + x1;
    assert n / 4096 == q2 && n / 262144 == q3;
    assert q3 <= 4;
    assert b[0] as int == 0xF0 + q3 && b[1] as int == 0x80 + x1;
    assert b[2] as int == 0x80 + x2 && b[3] as int == 0x80 + x3;
    assert q3 * 262144 + x1 * 4096 + x2 * 64 + x3 == n;
  }

  lemma DecodeEncodedChar(c: char, rest: seq<byte>)
    ensures DecodeFirst(EncodeChar(c) + rest) == Some((c, |EncodeChar(c)|))
  {
    var n := c as int;
    if n < 0x80 {
    } else if n < 0x800 {
      DecodeTwoBytes(c, rest);
    } else if n < 0x1_0000 {
      DecodeThreeBytes(c, rest);
    } else {
      DecodeFourBytes(c, rest);
    }
  }

  /** Decoding undoes encoding, for every string. */
  lemma {:induction false} RoundTrip(s: string)
    ensures Decode(Encode(s)) == Some(s)
  {
    if s != [] {
      var head := EncodeChar(s[0]);
      var b := Encode(s);
      assert b == head + Encode(s[1..]);
      DecodeEncodedChar(s[0], Encode(s[1..]));
      assert b[|head|..] == Encode(s[1..]);
      RoundTrip(s[1..]);
      assert [s[0]] + s[1..] == s;
    }
  }

  lemma FirstCanonical(b: seq<byte>)
    requires |b| > 0 && DecodeFirst(b).Some?
    ensures EncodeChar(DecodeFirst(b).value.0) == b[..DecodeFirst(b).value.1]
  {
    var x := b[0] as int;
    var k := DecodeFirst(b).value.1;
    if x < 0x80 {
      assert b[..1] == [b[0]];
    } else if k == 2 {
      TwoCanonical(b[0], b[1]);
      assert b[..2] == [b[0], b[1]];
    } else if k == 3 {
      ThreeCanonical(b[0], b[1], b[2]);
      assert b[..3] == [b[0], b[1], b[2]];
    } else {
      FourCanonical(b[0], b[1], b[2], b[3]);
      assert b[..4] == [b[0], b[1], b[2], b[3]];
    }
  }

  lemma TwoCanonical(b0: byte, b1: byte)
    requires 0xC2 <= b0 as int <= 0xDF && IsContinuation(b1)
    ensures var n := (b0 as int - 0xC0) * 64 + (b1 as int - 0x80);
      IsScalar(n) && EncodeChar(n as char) == [b0, b1]
  {
  }

  lemma ThreeCanonical(b0: byte, b1: byte, b2: byte)
    requires 0xE0 <= b0 as int <= 0xEF && IsContinuation(b1) && IsContinuation(b2)
    requires var n := (b0 as int - 0xE0) * 4096 + (b1 as int - 0x80) * 64 + (b2 as int - 0x80);
      0x800 <= n && IsScalar(n)
    ensures var n := (b0 as int - 0xE0) * 4096 + (b1 as int - 0x80) * 64 + (b2 as int - 0x80);
      EncodeChar(n as char) == [b0, b1, b2]
  {
    var y0, y1, y2 := b0 as int - 0xE0, b1 as int - 0x80, b2 as int - 0x80;
    var n := y0 * 4096 + y1 * 64 + y2;
    assert n / 4096 == y0 && n / 64 % 64 == y1 && n % 64 == y2;
  }

  lemma FourCanonical(b0: byte, b1: byte, b2: byte, b3: byte)
    requires 0xF0 <= b0 as int <= 0xF4 && IsContinuation(b1) && IsContinuation(b2) && IsContinuation(b3)
    requires var n := (b0 as int - 0xF0) * 262144 + (b1 as int - 0x80) * 4096 + (b2 as int - 0x80) * 64 + (b3 as int - 0x80);
      0x1_0000 <= n && IsScalar(n)
    ensures var n := (b0 as int - 0xF0) * 262144 + (b1 as int - 0x80) * 4096 + (b2 as int - 0x80) * 64 + (b3 as int - 0x80);
      EncodeChar(n as char) == [b0, b1, b2, b3]
  {
    var y0, y1, y2, y3 := b0 as int - 0xF0, b1 as int - 0x80, b2 as int - 0x80, b3 as int - 0x80;
    var n := y0 * 262144 + y1 * 4096 + y2 * 64 + y3;
    var m1 := y0 * 64 + y1;
    var m2 := m1 * 64 + y2;
    assert n == m2 * 64 + y3;
    DivMod64(m2, y3);
    DivMod64(m1, y2);
    DivMod64(y0, y1);
    assert n / 64 == m2 && n % 64 == y3;
    assert n / 4096 == m1 by {
      assert n / 4096 == n / 64 / 64;
    }
    assert n / 262144 == y0 by {
      assert n / 262144 == n / 4096 / 64;
    }
  }

  lemma DivMod64(q: int, r: int)
    requires 0 <= q && 0 <= r < 64
    ensures (q * 64 + r) / 64 == q && (q * 64 + r) % 64 == r
  {
  }

  /** One step of the decoder: the first character, then the decoding of the bytes after it. */
  lemma DecodeStep(b: seq<byte>)
    requires b != [] && Decode(b).Some?
    ensures DecodeFirst(b).Some?
    ensures var k := DecodeFirst(b).value.1;
      Decode(b[k..]).Some? && Decode(b).value == [DecodeFirst(b).value.0] + Decode(b[k..]).value
  {
  }

  /** A character's encoding followed by a string's encoding is the encoding of both. */
  lemma CanonicalStep(b: seq<byte>, c: char, k: nat, d: string)
    requires k <= |b| && EncodeChar(c) == b[..k] && Encode(d) == b[k..]
    ensures Encode([c] + d) == b
  {
    assert ([c] + d)[0] == c && ([c] + d)[1..] == d;
    assert b == b[..k] + b[k..];
  }

  /** The decoder accepts nothing but encodings: whatever it decodes re-encodes to the same bytes. */
  lemma {:induction false} DecodeCanonical(b: seq<byte>)
    requires Decode(b).Some?
    ensures Encode(Decode(b).value) == b
    decreases |b|
  {
    if b != [] {
      DecodeStep(b);
      var c, k := DecodeFirst(b).value.0, DecodeFirst(b).value.1;
      FirstCanonical(b);
      DecodeCanonical(b[k..]);
      CanonicalStep(b, c, k, Decode(b[k..]).value);
    }
  }
}
