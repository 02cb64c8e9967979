/**
 * Base64 with the standard alphabet and `=` padding, as in section 4 of
 * RFC 4648; this is what Python's `base64.b64encode` produces when the
 * agent inlines an image as a data URL.
 */
module Base64 {
  import opened Wrappers

  type Byte = b: int | 0 <= b < 256

  /** A 6-bit value: an index into the base64 alphabet. */
  type Sextet = v: int | 0 <= v < 64

  /** The alphabet of section 4 of RFC 4648: A-Z, a-z, 0-9, '+', '/'. */
  function CharOf(v: Sextet): (c: char)
    ensures c != '='
  {
    if v < 26 then ('A' as int + v) as char
    else if v < 52 then ('a' as int + (v - 26)) as char
    else if v < 62 then ('0' as int + (v - 52)) as char
    else if v == 62 then '+'
    else '/'
  }

  /** The alphabet index of a character, if it belongs to the alphabet. */
  function IndexOf(c: char): Option<Sextet> {
    if 'A' <= c <= 'Z' then Some(c as int - 'A' as int)
    else if 'a' <= c <= 'z' then Some(c as int - 'a' as int + 26)
    else if '0' <= c <= '9' then Some(c as int - '0' as int + 52)
    else if c == '+' then Some(62)
    else if c == '/' then Some(63)
    else None
  }

  lemma IndexOfCharOf(v: Sextet)
    ensures IndexOf(CharOf(v)) == Some(v)
  {
  }

  /** The four sextets of a 24-bit group, most significant first (missing bytes read as zero). */
  function Split(b0: Byte, b1: Byte, b2: Byte): seq<Sextet> {
    [b0 / 4, (b0 % 4) * 16 + b1 / 16, (b1 % 16) * 4 + b2 / 64, b2 % 64]
  }

  /** Encoding: every 3 bytes become 4 characters; a final 1 or 2 bytes are padded with `==` or `=`. */
  function Encode(bytes: seq<Byte>): (r: string)
    decreases |bytes|
  {
    if |bytes| == 0 then ""
    else if |bytes| == 1 then
      var q := Split(bytes[0], 0, 0);
      [CharOf(q[0]), CharOf(q[1]), '=', '=']
    else if |bytes| == 2 then
      var q := Split(bytes[0], bytes[1], 0);
      [CharOf(q[0]), CharOf(q[1]), CharOf(q[2]), '=']
    else
      var q := Split(bytes[0], bytes[1], bytes[2]);
      [CharOf(q[0]), CharOf(q[1]), CharOf(q[2]), CharOf(q[3])] + Encode(bytes[3..])
  }

  /** Every 3 input bytes, and a final 1 or 2, take 4 characters. */
  lemma {:induction false} EncodeLength(bytes: seq<Byte>)
    ensures |Encode(bytes)| == 4 * ((|bytes| + 2) / 3)
    decreases |bytes|
  {
    if |bytes| >= 3 {
      EncodeLength(bytes[3..]);
      var n := |bytes| - 3;
      assert (n + 3 + 2) / 3 == (n + 2) / 3 + 1;
    }
  }

  /** The bytes carried by four sextets. */
  function Join3(i0: Sextet, i1: Sextet, i2: Sextet, i3: Sextet): seq<Byte> {
    [i0 * 4 + i1 / 16, (i1 % 16) * 16 + i2 / 4, (i2 % 4) * 64 + i3]
  }

  /** Decoding of a block of four characters; `final` tells whether padding may appear. */
  function DecodeBlock(c0: char, c1: char, c2: char, c3: char, final: bool): Option<seq<Byte>> {
    var x0, x1, x2, x3 := IndexOf(c0), IndexOf(c1), IndexOf(c2), IndexOf(c3);
    if x0.None? || x1.None? then None
    else if final && c2 == '=' && c3 == '=' then Some(Join3(x0.value, x1.value, 0, 0)[..1])
    else if x2.None? then None
    else if final && c3 == '=' then Some(Join3(x0.value, x1.value, x2.value, 0)[..2])
    else if x3.None? then None
    else Some(Join3(x0.value, x1.value, x2.value, x3.value))
  }

  /** Decoding: the inverse of Encode; None for text that is not base64. */
  function Decode(s: string): Option<seq<Byte>>
    decreases |s|
  {
    if |s| == 0 then Some([])
    else if |s| < 4 then None
    else
      match DecodeBlock(s[0], s[1], s[2], s[3], |s| == 4)
      case None => None
      case Some(head) =>
        match Decode(s[4..])
        case None => None
        case Some(tail) => Some(head + tail)
  }

  /** One group survives splitting and joining. */
  lemma GroupRoundTrip(b0: Byte, b1: Byte, b2: Byte)
    ensures var q := Split(b0, b1, b2); Join3(q[0], q[1], q[2], q[3]) == [b0, b1, b2]
  {
    var q := Split(b0, b1, b2);
    assert q[1] / 16 == b0 % 4;
    assert q[1] % 16 == b1 / 16;
    assert q[2] / 4 == b1 % 16;
    assert q[2] % 4 == b2 / 64;
  }

  /** A final block of one byte decodes back to that byte. */
  lemma OneByteBlock(b0: Byte)
    ensures Decode(Encode([b0])) == Some([b0])
  {
    var q := Split(b0, 0, 0);
    GroupRoundTrip(b0, 0, 0);
    IndexOfCharOf(q[0]);
    IndexOfCharOf(q[1]);
    var e := Encode([b0]);
    assert e == [CharOf(q[0]), CharOf(q[1]), '=', '='];
    assert q[2] == 0 && q[3] == 0;
    assert Join3(q[0], q[1], 0, 0)[..1] == [b0] == [b0] + [];
    assert DecodeBlock(e[0], e[1], e[2], e[3], true) == Some([b0]);
    DecodeAppend(e, "");
    assert e + "" == e;
    assert Decode("") == Some([]);
  }

  /** A final block of two bytes decodes back to those bytes. */
  lemma TwoByteBlock(b0: Byte, b1: Byte)
    ensures Decode(Encode([b0, b1])) == Some([b0, b1])
  {
    var q := Split(b0, b1, 0);
    GroupRoundTrip(b0, b1, 0);
    IndexOfCharOf(q[0]);
    IndexOfCharOf(q[1]);
    IndexOfCharOf(q[2]);
    var e := Encode([b0, b1]);
    assert e == [CharOf(q[0]), CharOf(q[1]), CharOf(q[2]), '='];
    assert q[3] == 0;
    assert Join3(q[0], q[1], q[2], 0)[..2] == [b0, b1] == [b0, b1] + [];
    assert DecodeBlock(e[0], e[1], e[2], e[3], true) == Some([b0, b1]);
    DecodeAppend(e, "");
    assert e + "" == e;
    assert Decode("") == Some([]);
  }

  /** A full block decodes back to its three bytes wherever it stands. */
  lemma FullBlock(b0: Byte, b1: Byte, b2: Byte, final: bool)
    ensures var q := Split(b0, b1, b2);
      DecodeBlock(CharOf(q[0]), CharOf(q[1]), CharOf(q[2]), CharOf(q[3]), final) == Some([b0, b1, b2])
  {
    var q := Split(b0, b1, b2);
    GroupRoundTrip(b0, b1, b2);
    IndexOfCharOf(q[0]);
    IndexOfCharOf(q[1]);
    IndexOfCharOf(q[2]);
    IndexOfCharOf(q[3]);
  }

  /** Decoding a leading block and the rest separately. */
  lemma DecodeAppend(head: string, tail: string)
    requires |head| == 4
    ensures Decode(head + tail) ==
      match DecodeBlock(head[0], head[1], head[2], head[3], |tail| == 0)
      case None => None
      case Some(h) => match Decode(tail) case None => None case Some(t) => Some(h + t)
  {
    assert (head + tail)[4..] == tail;
  }

  /** Section 4 of RFC 4648 is lossless: decoding what was encoded gives the bytes back. */
  lemma {:induction false} DecodeEncode(bytes: seq<Byte>)
    ensures Decode(Encode(bytes)) == Some(bytes)
    decreases |bytes|
  {
    if |bytes| == 1 {
      OneByteBlock(bytes[0]);
      assert bytes == [bytes[0]];
    } else if |bytes| == 2 {
      TwoByteBlock(bytes[0], bytes[1]);
      assert bytes == [bytes[0], bytes[1]];
    } else if |bytes| >= 3 {
      var q := Split(bytes[0], bytes[1], bytes[2]);
      var head := [CharOf(q[0]), CharOf(q[1]), CharOf(q[2]), CharOf(q[3])];
      var tail := Encode(bytes[3..]);
      assert Encode(bytes) == head + tail;
      FullBlock(bytes[0], bytes[1], bytes[2], |tail| == 0);
      DecodeEncode(bytes[3..]);
      DecodeAppend(head, tail);
      assert bytes == [bytes[0], bytes[1], bytes[2]] + bytes[3..];
    }
  }
}
