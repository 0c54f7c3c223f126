/** Base64 as defined in section 4 of RFC 4648: the standard alphabet with '=' padding. */
module Base64 {
  import opened Wrappers
  import opened Strings

  /** The character standing for the 6-bit value `i` (Table 1 of RFC 4648). */
  function IndexChar(i: nat): (c: char)
    requires i < 64
  {
    if i < 26 then ('A' as int + i) as char
    else if i < 52 then ('a' as int + (i - 26)) as char
    else if i < 62 then ('0' as int + (i - 52)) as char
    else if i == 62 then '+'
    else '/'
  }

  /** The 6-bit value a character stands for, or `None` outside the alphabet. */
  function CharIndex(c: char): (r: Option<nat>)
    ensures r.Some? ==> r.value < 64 && IndexChar(r.value) == c
  {
    if 'A' <= c <= 'Z' then Some(c as int - 'A' as int)
    else if 'a' <= c <= 'z' then Some(c as int - 'a' as int + 26)
    else if '0' <= c <= '9' then Some(c as int - '0' as int + 52)
    else if c == '+' then Some(62)
    else if c == '/' then Some(63)
    else None
  }

  lemma CharIndexInverse(i: nat)
    requires i < 64
    ensures CharIndex(IndexChar(i)) == Some(i)
  {
  }

  predicate IsAlphabetChar(c: char) {
    CharIndex(c).Some?
  }

  function Sextet(c: char): nat
    requires IsAlphabetChar(c)
  {
    CharIndex(c).value
  }

  /** Three bytes as four characters. */
  function EncodeBlock(b0: byte, b1: byte, b2: byte): (s: string)
    ensures |s| == 4
  {
    var x0, x1, x2 := b0 as int, b1 as int, b2 as int;
    [IndexChar(x0 / 4), IndexChar(x0 % 4 * 16 + x1 / 16), IndexChar(x1 % 16 * 4 + x2 / 64), IndexChar(x2 % 64)]
  }

  /** The final quantum of one byte: two characters and two pad characters. */
  function EncodeOne(b0: byte): (s: string)
    ensures |s| == 4
  {
    var x0 := b0 as int;
    [IndexChar(x0 / 4), IndexChar(x0 % 4 * 16), '=', '=']
  }

  /** The final quantum of two bytes: three characters and one pad character. */
  function EncodeTwo(b0: byte, b1: byte): (s: string)
    ensures |s| == 4
  {
    var x0, x1 := b0 as int, b1 as int;
    [IndexChar(x0 / 4), IndexChar(x0 % 4 * 16 + x1 / 16), IndexChar(x1 % 16 * 4), '=']
  }

  /** `Buffer.from(bytes).toString('base64')`: four characters per started group of three bytes. */
  function Encode(b: seq<byte>): (s: string)
    ensures |s| == 4 * ((|b| + 2) / 3)
    decreases |b|
  {
    if |b| == 0 then ""
    else if |b| == 1 then EncodeOne(b[0])
    else if |b| == 2 then EncodeTwo(b[0], b[1])
    else
      GroupStep(|b|);
      EncodeBlock(b[0], b[1], b[2]) + Encode(b[3..])
  }

  /** Four alphabet characters as three bytes. */
  function DecodeBlock(s: string): Option<seq<byte>>
    requires |s| == 4
  {
    if IsAlphabetChar(s[0]) && IsAlphabetChar(s[1]) && IsAlphabetChar(s[2]) && IsAlphabetChar(s[3]) then
      var c0, c1, c2, c3 := Sextet(s[0]), Sextet(s[1]), Sextet(s[2]), Sextet(s[3]);
      Some([(c0 * 4 + c1 / 16) as byte, (c1 % 16 * 16 + c2 / 4) as byte, (c2 % 4 * 64 + c3) as byte])
    else None
  }

  /** The final quantum, which may carry padding; pad bits must be zero (section 3.5 of RFC 4648). */
  function DecodeFinal(s: string): Option<seq<byte>>
    requires |s| == 4
  {
    if IsAlphabetChar(s[0]) && IsAlphabetChar(s[1]) && s[2] == '=' && s[3] == '=' then
      var c0, c1 := Sextet(s[0]), Sextet(s[1]);
      if c1 % 16 == 0 then Some([(c0 * 4 + c1 / 16) as byte]) else None
    else if IsAlphabetChar(s[0]) && IsAlphabetChar(s[1]) && IsAlphabetChar(s[2]) && s[3] == '=' then
      var c0, c1, c2 := Sextet(s[0]), Sextet(s[1]), Sextet(s[2]);
      if c2 % 4 == 0 then Some([(c0 * 4 + c1 / 16) as byte, (c1 % 16 * 16 + c2 / 4) as byte]) else None
    else DecodeBlock(s)
  }

  /** A strict decoder: `None` for any text that is not the encoding of some bytes. */
  function Decode(s: string): Option<seq<byte>>
    decreases |s|
  {
    if |s| == 0 then Some([])
    else if |s| < 4 then None
    else if |s| == 4 then DecodeFinal(s)
    else match DecodeBlock(s[..4])
      case None => None
      case Some(head) =>
        match Decode(s[4..])
        case None => None
        case Some(tail) => Some(head + tail)
  }

  /** One more group of three bytes is one more quantum. */
  lemma GroupStep(n: int)
    requires n > 2
    ensures (n + 2) / 3 == (n - 3 + 2) / 3 + 1
  {
  }

  lemma IndexCharInAlphabet(i: nat)
    requires i < 64
    ensures IsAlphabetChar(IndexChar(i))
  {
    CharIndexInverse(i);
  }

  /** The characters of a quantum that are not padding are alphabet characters. */
  lemma QuantumAlphabet(b: seq<byte>)
    requires 1 <= |b|
    ensures var q := if |b| == 1 then EncodeOne(b[0]) else if |b| == 2 then EncodeTwo(b[0], b[1]) else EncodeBlock(b[0], b[1], b[2]);
      && (forall i :: 0 <= i < 4 ==> IsAlphabetChar(q[i]) || q[i] == '=')
      && (forall i :: 0 <= i < 2 ==> IsAlphabetChar(q[i]))
      && (|b| >= 3 ==> forall i :: 0 <= i < 4 ==> IsAlphabetChar(q[i]))
  {
    var x0 := b[0] as int;
    IndexCharInAlphabet(x0 / 4);
    if |b| == 1 {
      IndexCharInAlphabet(x0 % 4 * 16);
    } else {
      var x1 := b[1] as int;
      IndexCharInAlphabet(x0 % 4 * 16 + x1 / 16);
      if |b| == 2 {
        IndexCharInAlphabet(x1 % 16 * 4);
      } else {
        var x2 := b[2] as int;
        IndexCharInAlphabet(x1 % 16 * 4 + x2 / 64);
        IndexCharInAlphabet(x2 % 64);
      }
    }
  }

  /** The handle is made of alphabet characters followed by at most two pad characters. */
  lemma {:induction false} EncodeAlphabet(b: seq<byte>)
    ensures forall i :: 0 <= i < |Encode(b)| ==> IsAlphabetChar(Encode(b)[i]) || Encode(b)[i] == '='
    ensures forall i :: 0 <= i < |Encode(b)| - 2 ==> IsAlphabetChar(Encode(b)[i])
    decreases |b|
  {
    if |b| > 0 {
      QuantumAlphabet(b);
    }
    if |b| > 2 {
      EncodeAlphabet(b[3..]);
      var s := Encode(b);
      var head := EncodeBlock(b[0], b[1], b[2]);
      assert s == head + Encode(b[3..]);
      forall i | 0 <= i < |s|
        ensures IsAlphabetChar(s[i]) || s[i] == '='
        ensures i < |s| - 2 ==> IsAlphabetChar(s[i])
      {
        if i >= 4 {
          assert s[i] == Encode(b[3..])[i - 4];
        } else {
          assert s[i] == head[i];
        }
      }
    }
  }

  lemma BlockRoundTrip(b0: byte, b1: byte, b2: byte)
    ensures DecodeBlock(EncodeBlock(b0, b1, b2)) == Some([b0, b1, b2])
  {
    var x0, x1, x2 := b0 as int, b1 as int, b2 as int;
    var s := EncodeBlock(b0, b1, b2);
    CharIndexInverse(x0 / 4);
    CharIndexInverse(x0 % 4 * 16 + x1 / 16);
    CharIndexInverse(x1 % 16 * 4 + x2 / 64);
    CharIndexInverse(x2 % 64);
    var c1 := x0 % 4 * 16 + x1 / 16;
    var c2 := x1 % 16 * 4 + x2 / 64;
    assert c1 / 16 == x0 % 4 && c1 % 16 == x1 / 16;
    assert c2 / 4 == x1 % 16 && c2 % 4 == x2 / 64;
  }

  lemma OneRoundTrip(b0: byte)
    ensures DecodeFinal(EncodeOne(b0)) == Some([b0])
  {
    var x0 := b0 as int;
    CharIndexInverse(x0 / 4);
    CharIndexInverse(x0 % 4 * 16);
  }

  lemma TwoRoundTrip(b0: byte, b1: byte)
    ensures DecodeFinal(EncodeTwo(b0, b1)) == Some([b0, b1])
  {
    var x0, x1 := b0 as int, b1 as int;
    CharIndexInverse(x0 / 4);
    CharIndexInverse(x0 % 4 * 16 + x1 / 16);
    CharIndexInverse(x1 % 16 * 4);
    var c1 := x0 % 4 * 16 + x1 / 16;
    assert c1 / 16 == x0 % 4 && c1 % 16 == x1 / 16;
  }

  lemma FinalRoundTrip(b: seq<byte>)
    requires 1 <= |b| <= 3
    ensures |Encode(b)| == 4 && DecodeFinal(Encode(b)) == Some(b)
  {
    if |b| == 1 {
      assert Encode(b) == EncodeOne(b[0]);
      OneRoundTrip(b[0]);
      assert [b[0]] == b;
    } else if |b| == 2 {
      assert Encode(b) == EncodeTwo(b[0], b[1]);
      TwoRoundTrip(b[0], b[1]);
      assert [b[0], b[1]] == b;
    } else {
      assert Encode(b) == EncodeBlock(b[0], b[1], b[2]) + Encode(b[3..]);
      assert b[3..] == [];
      assert Encode(b) == EncodeBlock(b[0], b[1], b[2]);
      BlockIsFinal(b[0], b[1], b[2]);
      assert [b[0], b[1], b[2]] == b;
    }
  }

  lemma BlockIsFinal(b0: byte, b1: byte, b2: byte)
    ensures DecodeFinal(EncodeBlock(b0, b1, b2)) == Some([b0, b1, b2])
  {
    BlockRoundTrip(b0, b1, b2);
    var s := EncodeBlock(b0, b1, b2);
    assert s[3] != '=' && s[2] != '=';
  }

  /** Decoding undoes encoding. */
  lemma {:induction false} RoundTrip(b: seq<byte>)
    ensures Decode(Encode(b)) == Some(b)
    decreases |b|
  {
    if 1 <= |b| <= 3 {
      FinalRoundTrip(b);
    } else if |b| > 3 {
      var s := Encode(b);
      var head := EncodeBlock(b[0], b[1], b[2]);
      assert s == head + Encode(b[3..]);
      assert s[..4] == head && s[4..] == Encode(b[3..]);
      BlockRoundTrip(b[0], b[1], b[2]);
      RoundTrip(b[3..]);
      assert [b[0], b[1], b[2]] + b[3..] == b;
    }
  }

  lemma BlockCanonical(s: string)
    requires |s| == 4 && DecodeBlock(s).Some?
    ensures var b := DecodeBlock(s).value; |b| == 3 && EncodeBlock(b[0], b[1], b[2]) == s
  {
    var c0, c1, c2, c3 := Sextet(s[0]), Sextet(s[1]), Sextet(s[2]), Sextet(s[3]);
    var b := DecodeBlock(s).value;
    assert b[0] as int / 4 == c0 && b[0] as int % 4 == c1 / 16;
    assert b[1] as int / 16 == c1 % 16 && b[1] as int % 16 == c2 / 4;
    assert b[2] as int / 64 == c2 % 4 && b[2] as int % 64 == c3;
  }

  lemma FinalCanonical(s: string)
    requires |s| == 4 && DecodeFinal(s).Some?
    ensures 1 <= |DecodeFinal(s).value| <= 3 && Encode(DecodeFinal(s).value) == s
  {
    var b := DecodeFinal(s).value;
    if IsAlphabetChar(s[0]) && IsAlphabetChar(s[1]) && s[2] == '=' && s[3] == '=' {
      var c0, c1 := Sextet(s[0]), Sextet(s[1]);
      assert b[0] as int / 4 == c0 && b[0] as int % 4 * 16 == c1;
      assert Encode(b) == EncodeOne(b[0]);
    } else if IsAlphabetChar(s[0]) && IsAlphabetChar(s[1]) && IsAlphabetChar(s[2]) && s[3] == '=' {
      var c0, c1, c2 := Sextet(s[0]), Sextet(s[1]), Sextet(s[2]);
      assert b[0] as int / 4 == c0 && b[0] as int % 4 == c1 / 16;
      assert b[1] as int / 16 == c1 % 16 && b[1] as int % 16 * 4 == c2;
      assert Encode(b) == EncodeTwo(b[0], b[1]);
    } else {
      BlockCanonical(s);
      assert Encode(b) == EncodeBlock(b[0], b[1], b[2]) + Encode(b[3..]);
    }
  }

  /** The decoder accepts nothing but encodings: whatever it decodes re-encodes to the same text. */
  lemma {:induction false} DecodeCanonical(s: string)
    requires Decode(s).Some?
    ensures Encode(Decode(s).value) == s
    decreases |s|
  {
    if |s| == 4 {
      FinalCanonical(s);
    } else if |s| > 4 {
      var head := DecodeBlock(s[..4]).value;
      var tail := Decode(s[4..]).value;
      BlockCanonical(s[..4]);
      DecodeCanonical(s[4..]);
      var b := head + tail;
      assert b[..3] == head && b[3..] == tail;
      assert Encode(b) == EncodeBlock(b[0], b[1], b[2]) + Encode(b[3..]);
      assert s == s[..4] + s[4..];
    }
  }
}
