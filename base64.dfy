/** The standard base64 encoding of section 4 of RFC 4648 (Go's
    `base64.StdEncoding`), which turns the 16 random bytes of a lock token
    into text: every 3 bytes become 4 characters of the alphabet A-Z, a-z,
    0-9, '+', '/', and a final group of 1 or 2 bytes is padded with "==" or
    "=". Decoding is given so that the encoding can be shown injective. */
module Base64 {

  type Byte = x: int | 0 <= x < 256

  /** A 6-bit group, the index of one alphabet character. */
  type Sextet = x: int | 0 <= x < 64

  const Pad: char := '='

  /** The alphabet character for a 6-bit value. */
  function Char(v: Sextet): (c: char)
    ensures c != Pad
    ensures Value(c) == v
  {
    if v < 26 then ('A' as int + v) as char
    else if v < 52 then ('a' as int + v - 26) as char
    else if v < 62 then ('0' as int + v - 52) as char
    else if v == 62 then '+'
    else '/'
  }

  /** The 6-bit value of an alphabet character (0 for anything else). */
  function Value(c: char): Sextet {
    if 'A' <= c <= 'Z' then c as int - 'A' as int
    else if 'a' <= c <= 'z' then c as int - 'a' as int + 26
    else if '0' <= c <= '9' then c as int - '0' as int + 52
    else if c == '+' then 62
    else if c == '/' then 63
    else 0
  }

  /** Three bytes, 24 bits, as four characters. */
  function Quad(b0: Byte, b1: Byte, b2: Byte): string {
    [Char(b0 / 4), Char((b0 % 4) * 16 + b1 / 16), Char((b1 % 16) * 4 + b2 / 64), Char(b2 % 64)]
  }

  /** `base64.StdEncoding.EncodeToString`: the length is 4 characters per
      started group of 3 bytes, and padding appears only at the end, two
      characters of it when one byte is left over and one when two are. */
  function Encode(b: seq<Byte>): (s: string)
    ensures |s| == 4 * ((|b| + 2) / 3)
    decreases |b|
  {
    if |b| == 0 then ""
    else if |b| == 1 then [Char(b[0] / 4), Char((b[0] % 4) * 16), Pad, Pad]
    else if |b| == 2 then [Char(b[0] / 4), Char((b[0] % 4) * 16 + b[1] / 16), Char((b[1] % 16) * 4), Pad]
    else Quad(b[0], b[1], b[2]) + Encode(b[3..])
  }

  /** The inverse of `Encode` on its outputs. */
  function Decode(s: string): seq<Byte>
    decreases |s|
  {
    if |s| < 4 then []
    else
      var v0, v1, v2, v3 := Value(s[0]), Value(s[1]), Value(s[2]), Value(s[3]);
      if s[2] == Pad then [v0 * 4 + v1 / 16]
      else if s[3] == Pad then [v0 * 4 + v1 / 16, (v1 % 16) * 16 + v2 / 4]
      else [v0 * 4 + v1 / 16, (v1 % 16) * 16 + v2 / 4, (v2 % 4) * 64 + v3] + Decode(s[4..])
  }

  /** The three bytes packed into four sextets come back out. */
  lemma QuadDecodes(b0: Byte, b1: Byte, b2: Byte)
    ensures var q := Quad(b0, b1, b2);
      q[2] != Pad && q[3] != Pad &&
      Decode(q) == [b0, b1, b2]
  {
    var v1 := (b0 % 4) * 16 + b1 / 16;
    var v2 := (b1 % 16) * 4 + b2 / 64;
    assert v1 / 16 == b0 % 4 && v1 % 16 == b1 / 16;
    assert v2 / 4 == b1 % 16 && v2 % 4 == b2 / 64;
    var q := Quad(b0, b1, b2);
    assert Decode(q[4..]) == [];
  }

  /** A full group in front decodes on its own. */
  lemma DecodeFront(q: string, rest: string)
    requires |q| == 4 && q[2] != Pad && q[3] != Pad
    ensures Decode(q + rest) == Decode(q) + Decode(rest)
  {
    assert (q + rest)[4..] == rest;
    assert q[4..] == [];
    assert (q + rest)[..4] == q;
  }

  lemma DecodeOne(b0: Byte)
    ensures Decode(Encode([b0])) == [b0]
  {
    var s := Encode([b0]);
    var v0, v1 := b0 / 4, (b0 % 4) * 16;
    assert s == [Char(v0), Char(v1), Pad, Pad];
    assert v1 / 16 == b0 % 4;
    assert Decode(s) == [Value(s[0]) * 4 + Value(s[1]) / 16];
  }

  lemma DecodeTwo(b0: Byte, b1: Byte)
    ensures Decode(Encode([b0, b1])) == [b0, b1]
  {
    var s := Encode([b0, b1]);
    var v0, v1, v2 := b0 / 4, (b0 % 4) * 16 + b1 / 16, (b1 % 16) * 4;
    assert s == [Char(v0), Char(v1), Char(v2), Pad];
    assert v1 / 16 == b0 % 4 && v1 % 16 == b1 / 16;
    assert v2 / 4 == b1 % 16;
    assert Decode(s) == [Value(s[0]) * 4 + Value(s[1]) / 16, (Value(s[1]) % 16) * 16 + Value(s[2]) / 4];
  }

  /** Decoding undoes encoding. */
  lemma {:induction false} DecodeEncode(b: seq<Byte>)
    ensures Decode(Encode(b)) == b
    decreases |b|
  {
    if |b| == 1 {
      DecodeOne(b[0]);
      assert b == [b[0]];
    } else if |b| == 2 {
      DecodeTwo(b[0], b[1]);
      assert b == [b[0], b[1]];
    } else if |b| >= 3 {
      var q := Quad(b[0], b[1], b[2]);
      assert Encode(b) == q + Encode(b[3..]);
      QuadDecodes(b[0], b[1], b[2]);
      DecodeFront(q, Encode(b[3..]));
      DecodeEncode(b[3..]);
      assert b == [b[0], b[1], b[2]] + b[3..];
    }
  }

  /** Padding: two '=' end the text when one byte is left over after the
      groups of three, one '=' (after a character of the alphabet) when two
      are, none when no byte is left over. */
  lemma {:induction false} EncodePadding(b: seq<Byte>)
    ensures var s := Encode(b);
      (|b| % 3 == 1 ==> s[|s| - 2..] == [Pad, Pad]) &&
      (|b| % 3 == 2 ==> s[|s| - 2] != Pad && s[|s| - 1] == Pad) &&
      (|b| % 3 == 0 && |b| > 0 ==> s[|s| - 1] != Pad)
    decreases |b|
  {
    var s := Encode(b);
    if |b| == 1 {
      assert s == [Char(b[0] / 4), Char((b[0] % 4) * 16), Pad, Pad];
    } else if |b| == 2 {
      assert s == [Char(b[0] / 4), Char((b[0] % 4) * 16 + b[1] / 16), Char((b[1] % 16) * 4), Pad];
    } else if |b| == 3 {
      assert s == Quad(b[0], b[1], b[2]) + Encode([]);
    } else if |b| > 3 {
      var rest := Encode(b[3..]);
      assert s == Quad(b[0], b[1], b[2]) + rest;
      assert |b[3..]| % 3 == |b| % 3;
      EncodePadding(b[3..]);
      assert |rest| >= 4;
      assert s[|s| - 2..] == rest[|rest| - 2..];
    }
  }

  /** Different byte strings never encode to the same text. */
  lemma EncodeInjective(a: seq<Byte>, b: seq<Byte>)
    ensures Encode(a) == Encode(b) ==> a == b
  {
    DecodeEncode(a);
    DecodeEncode(b);
  }
}
