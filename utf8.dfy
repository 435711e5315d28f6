/** UTF-8 as defined in section 3 of RFC 3629: the encoding that
    `str.encode('utf-8')` produces for a message text, and the strict decoding
    `bytes.decode('utf-8')` that turns a payload back into text. */
module Utf8 {
  import opened Wrappers

  type byte = b: int | 0 <= b < 0x100

  /** The one to four bytes that encode one Unicode scalar value. */
  function EncodeChar(c: char): (bs: seq<byte>)
    ensures 1 <= |bs| <= 4
  {
    var n := c as int;
    var n0, q1 := n % 0x40, n / 0x40;
    var n1, q2 := q1 % 0x40, q1 / 0x40;
    var n2, q3 := q2 % 0x40, q2 / 0x40;
    if n < 0x80 then [n]
    else if n < 0x800 then [0xC0 + q1, 0x80 + n0]
    else if n < 0x10000 then [0xE0 + q2, 0x80 + n1, 0x80 + n0]
    else [0xF0 + q3, 0x80 + n2, 0x80 + n1, 0x80 + n0]
  }

  /** The UTF-8 encoding of a whole text, character by character. */
  function Encode(s: string): seq<byte>
    decreases |s|
  {
    if s == [] then [] else EncodeChar(s[0]) + Encode(s[1..])
  }

  predicate IsContinuation(b: byte) {
    0x80 <= b < 0xC0
  }

  predicate IsScalar(cp: int) {
    0 <= cp < 0xD800 || 0xE000 <= cp < 0x110000
  }

  /** Decodes the character at the start of `bs` and says how many bytes it
      took. Overlong forms, surrogate code points, values above U+10FFFF,
      stray continuation bytes and truncated sequences are all rejected. */
  function DecodeFirst(bs: seq<byte>): (r: Option<(char, nat)>)
    ensures r.Some? ==> 1 <= r.value.1 <= |bs|
  {
    if bs == [] then None
    else
      var b0: int := bs[0];
      if b0 < 0x80 then Some((b0 as char, 1))
      else if 0xC0 <= b0 < 0xE0 then
        if |bs| >= 2 && IsContinuation(bs[1]) then
          var cp := (b0 - 0xC0) * 0x40 + (bs[1] - 0x80);
          if 0x80 <= cp then Some((cp as char, 2)) else None
        else None
      else if 0xE0 <= b0 < 0xF0 then
        if |bs| >= 3 && IsContinuation(bs[1]) && IsContinuation(bs[2]) then
          var cp := ((b0 - 0xE0) * 0x40 + (bs[1] - 0x80)) * 0x40 + (bs[2] - 0x80);
          if 0x800 <= cp && IsScalar(cp) then Some((cp as char, 3)) else None
        else None
      else if 0xF0 <= b0 < 0xF8 then
        if |bs| >= 4 && IsContinuation(bs[1]) && IsContinuation(bs[2]) && IsContinuation(bs[3]) then
          var cp := (((b0 - 0xF0) * 0x40 + (bs[1] - 0x80)) * 0x40 + (bs[2] - 0x80)) * 0x40 + (bs[3] - 0x80);
          if 0x10000 <= cp < 0x110000 then Some((cp as char, 4)) else None
        else None
      else None
  }

  /** Strict decoding of a whole byte string; None if any part is malformed. */
  function Decode(bs: seq<byte>): Option<string>
    decreases |bs|
  {
    if bs == [] then Some("")
    else match DecodeFirst(bs)
      case None => None
      case Some((c, k)) =>
        match Decode(bs[k..])
        case None => None
        case Some(rest) => Some([c] + rest)
  }

  /** The first character of an encoding decodes back, from exactly its own bytes. */
  lemma DecodeEncodedChar(c: char, tail: seq<byte>)
    ensures DecodeFirst(EncodeChar(c) + tail) == Some((c, |EncodeChar(c)|))
  {
    var n := c as int;
    var n0, q1 := n % 0x40, n / 0x40;
    var n1, q2 := q1 % 0x40, q1 / 0x40;
    var n2, q3 := q2 % 0x40, q2 / 0x40;
    assert n == q1 * 0x40 + n0;
    assert q1 == q2 * 0x40 + n1;
    assert q2 == q3 * 0x40 + n2;
    var bs := EncodeChar(c) + tail;
    if n < 0x80 {
    } else if n < 0x800 {
      assert q1 < 0x20;
      assert bs[0] == 0xC0 + q1 && bs[1] == 0x80 + n0;
    } else if n < 0x10000 {
      assert q2 < 0x10;
      assert bs[0] == 0xE0 + q2 && bs[1] == 0x80 + n1 && bs[2] == 0x80 + n0;
      assert (q2 * 0x40 + n1) * 0x40 + n0 == n;
    } else {
      assert q3 < 0x8;
      assert bs[0] == 0xF0 + q3 && bs[1] == 0x80 + n2 && bs[2] == 0x80 + n1 && bs[3] == 0x80 + n0;
      assert ((q3 * 0x40 + n2) * 0x40 + n1) * 0x40 + n0 == n;
    }
  }

  /** Decoding the UTF-8 encoding of a text gives the text back. */
  lemma {:induction false} DecodeEncode(s: string)
    ensures Decode(Encode(s)) == Some(s)
    decreases |s|
  {
    if s != [] {
      var e := EncodeChar(s[0]);
      DecodeEncodedChar(s[0], Encode(s[1..]));
      assert (e + Encode(s[1..]))[|e|..] == Encode(s[1..]);
      DecodeEncode(s[1..]);
      assert [s[0]] + s[1..] == s;
    }
  }

  /** Only the empty text has the empty encoding. */
  lemma EncodeEmpty(s: string)
    ensures Encode(s) == [] <==> s == []
  {
  }
}
