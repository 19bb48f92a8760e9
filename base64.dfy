/**
 * Base 64 as in section 4 of RFC 4648, with padding and without line breaks (Android's
 * `Base64.NO_WRAP`). Decoding is strict: it accepts exactly the texts encoding produces.
 */
module Base64 {
  import opened Wrappers
  import opened Utf8

  type Sextet = v: int | 0 <= v < 64

  /** The alphabet of section 4 of RFC 4648: A-Z, a-z, 0-9, '+', '/'. */
  function SextetChar(v: Sextet): (c: char)
    ensures c != '='
  {
    if v < 26 then ('A' as int + v) as char
    else if v < 52 then ('a' as int + (v - 26)) as char
    else if v < 62 then ('0' as int + (v - 52)) as char
    else if v == 62 then '+'
    else '/'
  }

  function CharSextet(c: char): (r: Option<Sextet>)
    ensures c == '=' ==> r.None?
  {
    if 'A' <= c <= 'Z' then Some(c as int - 'A' as int)
    else if 'a' <= c <= 'z' then Some(c as int - 'a' as int + 26)
    else if '0' <= c <= '9' then Some(c as int - '0' as int + 52)
    else if c == '+' then Some(62)
    else if c == '/' then Some(63)
    else None
  }

  lemma SextetRoundTrip(v: Sextet)
    ensures CharSextet(SextetChar(v)) == Some(v)
  {
  }

  lemma CharRoundTrip(c: char)
    requires CharSextet(c).Some?
    ensures SextetChar(CharSextet(c).value) == c
  {
  }

  /** The four characters of a full group of three bytes. */
  function EncodeGroup(b0: Byte, b1: Byte, b2: Byte): string {
    [SextetChar(b0 / 4), SextetChar((b0 % 4) * 16 + b1 / 16), SextetChar((b1 % 16) * 4 + b2 / 64), SextetChar(b2 % 64)]
  }

  /** Encoding: full groups, then a final group of one or two bytes padded with '='. */
  function Encode(s: seq<Byte>): (t: string)
    ensures |t| == 4 * ((|s| + 2) / 3)
  {
    if |s| == 0 then []
    else if |s| == 1 then [SextetChar(s[0] / 4), SextetChar((s[0] % 4) * 16), '=', '=']
    else if |s| == 2 then [SextetChar(s[0] / 4), SextetChar((s[0] % 4) * 16 + s[1] / 16), SextetChar((s[1] % 16) * 4), '=']
    else EncodeGroup(s[0], s[1], s[2]) + Encode(s[3..])
  }

  /** The bytes of a text of four characters each holding six bits. */
  function DecodeQuad(c0: Sextet, c1: Sextet, c2: Sextet, c3: Sextet): seq<Byte> {
    [c0 * 4 + c1 / 16, (c1 % 16) * 16 + c2 / 4, (c2 % 4) * 64 + c3]
  }

  /**
   * Decoding: groups of four characters; only the last group may end in "=" or "==", and
   * the bits the padding leaves unused must be zero.
   */
  function Decode(t: string): (r: Option<seq<Byte>>)
    decreases |t|
  {
    if |t| == 0 then Some([])
    else if |t| < 4 then None
    else
      var s0, s1 := CharSextet(t[0]), CharSextet(t[1]);
      if s0.None? || s1.None? then None
      else if |t| == 4 && t[2] == '=' && t[3] == '=' then
        if s1.value % 16 == 0 then Some([s0.value * 4 + s1.value / 16]) else None
      else
        var s2 := CharSextet(t[2]);
        if s2.None? then None
        else if |t| == 4 && t[3] == '=' then
          if s2.value % 4 == 0 then Some([s0.value * 4 + s1.value / 16, (s1.value % 16) * 16 + s2.value / 4]) else None
        else
          var s3 := CharSextet(t[3]);
          if s3.None? then None
          else match Decode(t[4..])
            case None => None
            case Some(rest) => Some(DecodeQuad(s0.value, s1.value, s2.value, s3.value) + rest)
  }

  lemma GroupBits(b0: Byte, b1: Byte, b2: Byte)
    ensures DecodeQuad(b0 / 4, (b0 % 4) * 16 + b1 / 16, (b1 % 16) * 4 + b2 / 64, b2 % 64) == [b0, b1, b2]
  {
  }

  /** The encoding of one byte decodes back to it. */
  lemma DecodeEncodeOne(b0: Byte)
    ensures Decode(Encode([b0])) == Some([b0])
  {
    var c0, c1 := b0 / 4, (b0 % 4) * 16;
    SextetRoundTrip(c0);
    SextetRoundTrip(c1);
    assert c0 * 4 + c1 / 16 == b0 && c1 % 16 == 0;
  }

  /** The encoding of two bytes decodes back to them. */
  lemma DecodeEncodeTwo(b0: Byte, b1: Byte)
    ensures Decode(Encode([b0, b1])) == Some([b0, b1])
  {
    var c0, c1, c2 := b0 / 4, (b0 % 4) * 16 + b1 / 16, (b1 % 16) * 4;
    SextetRoundTrip(c0);
    SextetRoundTrip(c1);
    SextetRoundTrip(c2);
    assert c1 / 16 == b0 % 4 && c1 % 16 == b1 / 16 && c2 / 4 == b1 % 16 && c2 % 4 == 0;
    assert c0 * 4 + c1 / 16 == b0 && (c1 % 16) * 16 + c2 / 4 == b1;
    var t := Encode([b0, b1]);
    assert t[2] != '=' && t[3] == '=';
    assert CharSextet(t[0]) == Some(c0) && CharSextet(t[1]) == Some(c1) && CharSextet(t[2]) == Some(c2);
  }

  /** The encoding of a full group, followed by anything, decodes to the group and the rest. */
  lemma DecodeGroup(b0: Byte, b1: Byte, b2: Byte, rest: string, r: seq<Byte>)
    requires Decode(rest) == Some(r)
    ensures Decode(EncodeGroup(b0, b1, b2) + rest) == Some([b0, b1, b2] + r)
  {
    var c0, c1, c2, c3 := b0 / 4, (b0 % 4) * 16 + b1 / 16, (b1 % 16) * 4 + b2 / 64, b2 % 64;
    SextetRoundTrip(c0);
    SextetRoundTrip(c1);
    SextetRoundTrip(c2);
    SextetRoundTrip(c3);
    GroupBits(b0, b1, b2);
    var t := EncodeGroup(b0, b1, b2) + rest;
    assert t[4..] == rest;
    assert t[2] != '=' && t[3] != '=';
    assert CharSextet(t[0]) == Some(c0) && CharSextet(t[1]) == Some(c1);
    assert CharSextet(t[2]) == Some(c2) && CharSextet(t[3]) == Some(c3);
  }

  /** Decoding the encoding of any bytes gives the bytes back. */
  lemma {:induction false} DecodeEncode(s: seq<Byte>)
    ensures Decode(Encode(s)) == Some(s)
    decreases |s|
  {
    if |s| == 1 {
      assert s == [s[0]];
      DecodeEncodeOne(s[0]);
    } else if |s| == 2 {
      assert s == [s[0], s[1]];
      DecodeEncodeTwo(s[0], s[1]);
    } else if |s| >= 3 {
      DecodeEncode(s[3..]);
      EncodeStep(s);
      DecodeGroup(s[0], s[1], s[2], Encode(s[3..]), s[3..]);
      SplitThree(s);
    }
  }

  /** Encoding three or more bytes starts with the encoding of the first three. */
  lemma EncodeStep(s: seq<Byte>)
    requires |s| >= 3
    ensures Encode(s) == EncodeGroup(s[0], s[1], s[2]) + Encode(s[3..])
  {
  }

  lemma SplitThree<T>(s: seq<T>)
    requires |s| >= 3
    ensures s == [s[0], s[1], s[2]] + s[3..]
  {
  }

  lemma QuadBits(c0: Sextet, c1: Sextet, c2: Sextet, c3: Sextet)
    ensures var bs := DecodeQuad(c0, c1, c2, c3);
            bs[0] / 4 == c0 && (bs[0] % 4) * 16 + bs[1] / 16 == c1 && (bs[1] % 16) * 4 + bs[2] / 64 == c2 && bs[2] % 64 == c3
  {
    var b0, b1, b2 := c0 * 4 + c1 / 16, (c1 % 16) * 16 + c2 / 4, (c2 % 4) * 64 + c3;
    assert b0 / 4 == c0 && b0 % 4 == c1 / 16;
    assert b1 / 16 == c1 % 16 && b1 % 16 == c2 / 4;
    assert b2 / 64 == c2 % 4 && b2 % 64 == c3;
  }

  /** A padded final group of one byte is the encoding of what it decodes to. */
  lemma EncodeDecodeOne(t: string)
    requires |t| == 4 && t[2] == '=' && t[3] == '=' && Decode(t).Some?
    ensures Encode(Decode(t).value) == t
  {
    var s0: int, s1: int := CharSextet(t[0]).value, CharSextet(t[1]).value;
    CharRoundTrip(t[0]);
    CharRoundTrip(t[1]);
    var b0: int := s0 * 4 + s1 / 16;
    assert Decode(t).value == [b0];
    assert b0 / 4 == s0 && (b0 % 4) * 16 == s1;
  }

  /** A padded final group of two bytes is the encoding of what it decodes to. */
  lemma EncodeDecodeTwo(t: string)
    requires |t| == 4 && t[2] != '=' && t[3] == '=' && Decode(t).Some?
    ensures Encode(Decode(t).value) == t
  {
    var s0: int, s1: int, s2: int := CharSextet(t[0]).value, CharSextet(t[1]).value, CharSextet(t[2]).value;
    CharRoundTrip(t[0]);
    CharRoundTrip(t[1]);
    CharRoundTrip(t[2]);
    var b0: int, b1: int := s0 * 4 + s1 / 16, (s1 % 16) * 16 + s2 / 4;
    assert Decode(t).value == [b0, b1];
    assert b0 / 4 == s0 && (b0 % 4) * 16 + b1 / 16 == s1 && (b1 % 16) * 4 == s2;
    assert t == [t[0], t[1], t[2], t[3]];
  }

  /** An accepted text that does not end in a padded group starts with a full group. */
  lemma DecodeHead(t: string)
    requires Decode(t).Some? && |t| >= 4 && !(|t| == 4 && t[3] == '=')
    ensures CharSextet(t[0]).Some? && CharSextet(t[1]).Some?
    ensures CharSextet(t[2]).Some? && CharSextet(t[3]).Some?
    ensures Decode(t[4..]).Some?
    ensures Decode(t).value ==
              DecodeQuad(CharSextet(t[0]).value, CharSextet(t[1]).value, CharSextet(t[2]).value, CharSextet(t[3]).value)
              + Decode(t[4..]).value
  {
  }

  /** The four characters of a full group are the encoding of the bytes they decode to. */
  lemma GroupOfQuad(t: string)
    requires |t| >= 4
    requires CharSextet(t[0]).Some? && CharSextet(t[1]).Some?
    requires CharSextet(t[2]).Some? && CharSextet(t[3]).Some?
    ensures var bs := DecodeQuad(CharSextet(t[0]).value, CharSextet(t[1]).value, CharSextet(t[2]).value, CharSextet(t[3]).value);
            EncodeGroup(bs[0], bs[1], bs[2]) == t[..4]
  {
    QuadBits(CharSextet(t[0]).value, CharSextet(t[1]).value, CharSextet(t[2]).value, CharSextet(t[3]).value);
    CharRoundTrip(t[0]);
    CharRoundTrip(t[1]);
    CharRoundTrip(t[2]);
    CharRoundTrip(t[3]);
  }

  /** Every text decoding accepts is the encoding of what it decodes to. */
  lemma {:induction false} EncodeDecode(t: string)
    requires Decode(t).Some?
    ensures Encode(Decode(t).value) == t
    decreases |t|
  {
    if |t| >= 4 {
      if |t| == 4 && t[2] == '=' && t[3] == '=' {
        EncodeDecodeOne(t);
      } else if |t| == 4 && t[3] == '=' {
        EncodeDecodeTwo(t);
      } else {
        DecodeHead(t);
        var bs := DecodeQuad(CharSextet(t[0]).value, CharSextet(t[1]).value, CharSextet(t[2]).value, CharSextet(t[3]).value);
        var rest := Decode(t[4..]).value;
        EncodeDecode(t[4..]);
        GroupOfQuad(t);
        EncodeStep(bs + rest);
        assert (bs + rest)[3..] == rest;
        assert t == t[..4] + t[4..];
      }
    }
  }
}
