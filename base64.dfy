/** The base64 encoding of section 4 of RFC 4648 (alphabet `A-Z a-z 0-9 + /`, `=` padding), as `btoa`
    produces it from a string of byte-valued characters, with a decoder that undoes it. */
module Base64 {
  import opened Common

  type byte = x: int | 0 <= x < 256
  type sextet = x: int | 0 <= x < 64

  const Pad: char := '='

  /** Table 1 of RFC 4648: the character that encodes a 6-bit value. */
  function CharOf(i: sextet): (c: char)
    ensures c != Pad
  {
    if i < 26 then ('A' as int + i) as char
    else if i < 52 then ('a' as int + (i - 26)) as char
    else if i < 62 then ('0' as int + (i - 52)) as char
    else if i == 62 then '+'
    else '/'
  }

  /** The 6-bit value a character encodes, if it is in the alphabet. */
  function ValueOf(c: char): (r: Option<sextet>)
    ensures r.Some? ==> CharOf(r.value) == c
  {
    if 'A' <= c <= 'Z' then Some(c as int - 'A' as int)
    else if 'a' <= c <= 'z' then Some(c as int - 'a' as int + 26)
    else if '0' <= c <= '9' then Some(c as int - '0' as int + 52)
    else if c == '+' then Some(62)
    else if c == '/' then Some(63)
    else None
  }

  lemma ValueOfCharOf(i: sextet)
    ensures ValueOf(CharOf(i)) == Some(i)
  {
  }

  /** Three bytes (24 bits) as four characters. */
  function EncodeTriple(b0: byte, b1: byte, b2: byte): string {
    [CharOf(b0 / 4), CharOf((b0 % 4) * 16 + b1 / 16), CharOf((b1 % 16) * 4 + b2 / 64), CharOf(b2 % 64)]
  }

  /** The base64 text of `bytes`: four characters per started group of three bytes, the last group
      padded with `=` when it is short. */
  function Encode(bytes: seq<byte>): (s: string)
    ensures |s| == 4 * ((|bytes| + 2) / 3)
  {
    if |bytes| == 0 then ""
    else if |bytes| == 1 then [CharOf(bytes[0] / 4), CharOf((bytes[0] % 4) * 16), Pad, Pad]
    else if |bytes| == 2 then
      [CharOf(bytes[0] / 4), CharOf((bytes[0] % 4) * 16 + bytes[1] / 16), CharOf((bytes[1] % 16) * 4), Pad]
    else EncodeTriple(bytes[0], bytes[1], bytes[2]) + Encode(bytes[3..])
  }

  /** The three bytes whose 24 bits are four 6-bit values, most significant first. */
  function Regroup(v0: sextet, v1: sextet, v2: sextet, v3: sextet): (b: seq<byte>)
    ensures |b| == 3
  {
    [v0 * 4 + v1 / 16, (v1 % 16) * 16 + v2 / 4, (v2 % 4) * 64 + v3]
  }

  /** One group of four characters; padding is accepted only in the final group, and only when the
      bits it leaves unused are zero (section 3.5 of RFC 4648), so that each byte string has one text. */
  function DecodeQuad(q: string, last: bool): Option<seq<byte>>
    requires |q| == 4
  {
    var v0, v1, v2, v3 := ValueOf(q[0]), ValueOf(q[1]), ValueOf(q[2]), ValueOf(q[3]);
    if v0.None? || v1.None? then None
    else if last && q[2] == Pad && q[3] == Pad then
      if v1.value % 16 != 0 then None
      else Some(Regroup(v0.value, v1.value, 0, 0)[..1])
    else if v2.None? then None
    else if last && q[3] == Pad then
      if v2.value % 4 != 0 then None
      else Some(Regroup(v0.value, v1.value, v2.value, 0)[..2])
    else if v3.None? then None
    else Some(Regroup(v0.value, v1.value, v2.value, v3.value))
  }

  /** The bytes a base64 text stands for, or None when it is not well formed. */
  function Decode(s: string): Option<seq<byte>>
    decreases |s|
  {
    if |s| == 0 then Some([])
    else if |s| < 4 then None
    else
      match DecodeQuad(s[..4], |s| == 4)
      case None => None
      case Some(head) =>
        match Decode(s[4..])
        case None => None
        case Some(tail) => Some(head + tail)
  }

  /** The characters of three bytes regroup to those bytes. */
  lemma RegroupEncoded(b0: byte, b1: byte, b2: byte)
    ensures Regroup(b0 / 4, (b0 % 4) * 16 + b1 / 16, (b1 % 16) * 4 + b2 / 64, b2 % 64) == [b0, b1, b2]
  {
    var s1, s2 := (b0 % 4) * 16 + b1 / 16, (b1 % 16) * 4 + b2 / 64;
    assert s1 / 16 == b0 % 4 && s1 % 16 == b1 / 16;
    assert s2 / 4 == b1 % 16 && s2 % 4 == b2 / 64;
  }

  lemma DecodeTriple(b0: byte, b1: byte, b2: byte, last: bool)
    ensures DecodeQuad(EncodeTriple(b0, b1, b2), last) == Some([b0, b1, b2])
  {
    var s0, s1, s2, s3 := b0 / 4, (b0 % 4) * 16 + b1 / 16, (b1 % 16) * 4 + b2 / 64, b2 % 64;
    ValueOfCharOf(s0);
    ValueOfCharOf(s1);
    ValueOfCharOf(s2);
    ValueOfCharOf(s3);
    RegroupEncoded(b0, b1, b2);
  }

  lemma DecodeSingle(b0: byte)
    ensures Decode(Encode([b0])) == Some([b0])
  {
    var s := Encode([b0]);
    ValueOfCharOf(b0 / 4);
    ValueOfCharOf((b0 % 4) * 16);
    RegroupEncoded(b0, 0, 0);
    assert Regroup(b0 / 4, (b0 % 4) * 16, 0, 0)[..1] == [b0];
    assert ((b0 % 4) * 16) % 16 == 0;
    assert s[..4] == s && s[4..] == [];
    assert DecodeQuad(s[..4], |s| == 4) == Some([b0]);
    assert Decode(s[4..]) == Some([]);
    assert [b0] + [] == [b0];
  }

  lemma DecodePair(b0: byte, b1: byte)
    ensures Decode(Encode([b0, b1])) == Some([b0, b1])
  {
    var s := Encode([b0, b1]);
    ValueOfCharOf(b0 / 4);
    ValueOfCharOf((b0 % 4) * 16 + b1 / 16);
    ValueOfCharOf((b1 % 16) * 4);
    RegroupEncoded(b0, b1, 0);
    assert Regroup(b0 / 4, (b0 % 4) * 16 + b1 / 16, (b1 % 16) * 4, 0)[..2] == [b0, b1];
    assert ((b1 % 16) * 4) % 4 == 0;
    assert s[..4] == s && s[4..] == [];
    assert DecodeQuad(s[..4], |s| == 4) == Some([b0, b1]);
    assert Decode(s[4..]) == Some([]);
    assert [b0, b1] + [] == [b0, b1];
  }

  /** Decoding the encoding gives back the bytes. */
  lemma {:induction false} DecodeEncode(bytes: seq<byte>)
    ensures Decode(Encode(bytes)) == Some(bytes)
    decreases |bytes|
  {
    if |bytes| == 0 {
    } else if |bytes| == 1 {
      assert bytes == [bytes[0]];
      DecodeSingle(bytes[0]);
    } else if |bytes| == 2 {
      assert bytes == [bytes[0], bytes[1]];
      DecodePair(bytes[0], bytes[1]);
    } else {
      var s := Encode(bytes);
      var rest := Encode(bytes[3..]);
      assert s == EncodeTriple(bytes[0], bytes[1], bytes[2]) + rest;
      assert s[..4] == EncodeTriple(bytes[0], bytes[1], bytes[2]);
      assert s[4..] == rest;
      DecodeTriple(bytes[0], bytes[1], bytes[2], |s| == 4);
      DecodeEncode(bytes[3..]);
      assert [bytes[0], bytes[1], bytes[2]] + bytes[3..] == bytes;
    }
  }

  /** The 6-bit values of a group are recovered from the three bytes they make. */
  lemma RegroupSextets(v0: sextet, v1: sextet, v2: sextet, v3: sextet)
    ensures var b := Regroup(v0, v1, v2, v3);
            b[0] / 4 == v0 && (b[0] % 4) * 16 + b[1] / 16 == v1 && (b[1] % 16) * 4 + b[2] / 64 == v2 && b[2] % 64 == v3
  {
    var b0: int, b1: int, b2: int := v0 * 4 + v1 / 16, (v1 % 16) * 16 + v2 / 4, (v2 % 4) * 64 + v3;
    assert b0 / 4 == v0 && b0 % 4 == v1 / 16;
    assert b1 / 16 == v1 % 16 && b1 % 16 == v2 / 4;
    assert b2 / 64 == v2 % 4 && b2 % 64 == v3;
  }

  /** A full group re-encodes to its own characters. */
  lemma EncodeFullQuad(q: string, last: bool)
    requires |q| == 4 && DecodeQuad(q, last).Some? && |DecodeQuad(q, last).value| == 3
    ensures var b := DecodeQuad(q, last).value; EncodeTriple(b[0], b[1], b[2]) == q
  {
    var v0, v1, v2, v3 := ValueOf(q[0]).value, ValueOf(q[1]).value, ValueOf(q[2]).value, ValueOf(q[3]).value;
    assert DecodeQuad(q, last).value == Regroup(v0, v1, v2, v3);
    RegroupSextets(v0, v1, v2, v3);
    assert [CharOf(v0), CharOf(v1), CharOf(v2), CharOf(v3)] == q;
  }

  /** A final group with one `=` re-encodes to its own characters. */
  lemma EncodePairQuad(q: string)
    requires |q| == 4 && DecodeQuad(q, true).Some? && |DecodeQuad(q, true).value| == 2
    ensures Encode(DecodeQuad(q, true).value) == q
  {
    var v0, v1, v2 := ValueOf(q[0]).value, ValueOf(q[1]).value, ValueOf(q[2]).value;
    assert DecodeQuad(q, true).value == Regroup(v0, v1, v2, 0)[..2];
    RegroupSextets(v0, v1, v2, 0);
    assert [CharOf(v0), CharOf(v1), CharOf(v2), Pad] == q;
  }

  /** A final group with two `=` re-encodes to its own characters. */
  lemma EncodeSingleQuad(q: string)
    requires |q| == 4 && DecodeQuad(q, true).Some? && |DecodeQuad(q, true).value| == 1
    ensures Encode(DecodeQuad(q, true).value) == q
  {
    var v0, v1 := ValueOf(q[0]).value, ValueOf(q[1]).value;
    assert DecodeQuad(q, true).value == Regroup(v0, v1, 0, 0)[..1];
    RegroupSextets(v0, v1, 0, 0);
    assert [CharOf(v0), CharOf(v1), Pad, Pad] == q;
  }

  /** A group decodes to one, two or three bytes, and to fewer than three only when it is the last. */
  lemma DecodeQuadLength(q: string, last: bool)
    requires |q| == 4 && DecodeQuad(q, last).Some?
    ensures 1 <= |DecodeQuad(q, last).value| <= 3
    ensures !last ==> |DecodeQuad(q, last).value| == 3
  {
  }

  /** Encoding what a text decodes to gives back that text: the decoder accepts only the encoder's
      output, so no two texts decode to the same bytes. */
  lemma {:induction false} EncodeDecode(s: string)
    requires Decode(s).Some?
    ensures Encode(Decode(s).value) == s
    decreases |s|
  {
    if |s| == 0 {
    } else {
      var q, last := s[..4], |s| == 4;
      var head := DecodeQuad(q, last).value;
      var tail := Decode(s[4..]).value;
      assert Decode(s).value == head + tail;
      DecodeQuadLength(q, last);
      if last {
        assert s[4..] == [];
        assert tail == [];
        assert head + tail == head;
        if |head| == 3 {
          EncodeFullQuad(q, last);
          assert Encode(head) == EncodeTriple(head[0], head[1], head[2]) + Encode(head[3..]);
          assert head[3..] == [];
          assert s == q;
        } else if |head| == 2 {
          EncodePairQuad(q);
          assert s == q;
        } else {
          EncodeSingleQuad(q);
          assert s == q;
        }
      } else {
        EncodeFullQuad(q, last);
        EncodeDecode(s[4..]);
        var bytes := head + tail;
        assert bytes[..3] == head && bytes[3..] == tail;
        assert Encode(bytes) == EncodeTriple(bytes[0], bytes[1], bytes[2]) + Encode(bytes[3..]);
        assert s == q + s[4..];
      }
    }
  }

  /** Two texts that decode to the same bytes are the same text. */
  lemma DecodeInjective(s: string, t: string)
    requires Decode(s).Some? && Decode(t).Some? && Decode(s) == Decode(t)
    ensures s == t
  {
    EncodeDecode(s);
    EncodeDecode(t);
  }
}
