/** UTF-8, as Python's `str.encode("utf-8")` and strict `bytes.decode()`
    apply it. A Dafny `char` is a Unicode scalar value, exactly what a
    Python string may hold once lone surrogates are excluded. */
module Utf8 {
  import opened Wrappers

  newtype byte = x: int | 0 <= x < 256

  /** A continuation byte 10xxxxxx. */
  predicate IsContinuation(b: byte) {
    0x80 <= b < 0xC0
  }

  /** The UTF-8 bytes of one character. */
  function EncodeChar(c: char): seq<byte> {
    var cp := c as int;
    if cp < 0x80 then
      [cp as byte]
    else if cp < 0x800 then
      [(0xC0 + cp / 64) as byte, (0x80 + cp % 64) as byte]
    else if cp < 0x1_0000 then
      [(0xE0 + cp / 64 / 64) as byte, (0x80 + cp / 64 % 64) as byte, (0x80 + cp % 64) as byte]
    else
      [(0xF0 + cp / 64 / 64 / 64) as byte, (0x80 + cp / 64 / 64 % 64) as byte,
       (0x80 + cp / 64 % 64) as byte, (0x80 + cp % 64) as byte]
  }

  /** `s.encode("utf-8")`. */
  function Encode(s: string): seq<byte> {
    if s == [] then [] else EncodeChar(s[0]) + Encode(s[1..])
  }

  /** The character at the head of a strict UTF-8 byte string and the number
      of bytes it takes, or None when the head is not well-formed UTF-8: a
      stray continuation byte, a truncated sequence, an overlong form, a
      surrogate or a code point above U+10FFFF. */
  function DecodeHead(bs: seq<byte>): (r: Option<(char, nat)>)
    ensures r.Some? ==> 1 <= r.value.1 <= |bs|
  {
    if bs == [] then None
    else
      var b0 := bs[0] as int;
      if b0 < 0x80 then
        Some((b0 as char, 1))
      else if 0xC0 <= b0 < 0xE0 then
        if |bs| < 2 || !IsContinuation(bs[1]) then None
        else
          var cp := (b0 - 0xC0) * 64 + (bs[1] as int - 0x80);
          if cp < 0x80 then None else Some((cp as char, 2))
      else if 0xE0 <= b0 < 0xF0 then
        if |bs| < 3 || !IsContinuation(bs[1]) || !IsContinuation(bs[2]) then None
        else
          var cp := ((b0 - 0xE0) * 64 + (bs[1] as int - 0x80)) * 64 + (bs[2] as int - 0x80);
          if cp < 0x800 || 0xD800 <= cp < 0xE000 then None else Some((cp as char, 3))
      else if 0xF0 <= b0 < 0xF8 then
        if |bs| < 4 || !IsContinuation(bs[1]) || !IsContinuation(bs[2]) || !IsContinuation(bs[3]) then None
        else
          var cp := (((b0 - 0xF0) * 64 + (bs[1] as int - 0x80)) * 64 + (bs[2] as int - 0x80)) * 64
                    + (bs[3] as int - 0x80);
          if cp < 0x1_0000 || 0x11_0000 <= cp then None else Some((cp as char, 4))
      else
        None
  }

  /** `bs.decode("utf-8")`: None where Python raises UnicodeDecodeError. */
  function Decode(bs: seq<byte>): Option<string>
    decreases |bs|
  {
    if bs == [] then Some([])
    else
      match DecodeHead(bs)
      case None => None
      case Some((c, n)) =>
        match Decode(bs[n..])
        case None => None
        case Some(rest) => Some([c] + rest)
  }

  /** Splitting a code point into 6-bit groups and joining them again gives
      the code point back. */
  lemma SixBitGroups(cp: int)
    requires 0 <= cp
    ensures (cp / 64) * 64 + cp % 64 == cp
    ensures ((cp / 64 / 64) * 64 + cp / 64 % 64) * 64 + cp % 64 == cp
    ensures (((cp / 64 / 64 / 64) * 64 + cp / 64 / 64 % 64) * 64 + cp / 64 % 64) * 64 + cp % 64 == cp
  {
    var q1 := cp / 64;
    var q2 := q1 / 64;
    assert q1 * 64 + cp % 64 == cp;
    assert q2 * 64 + q1 % 64 == q1;
    assert (q2 / 64) * 64 + q2 % 64 == q2;
  }

  /** The decoder reads back the character the encoder wrote, whatever
      follows it. */
  lemma DecodeHeadEncodeChar(c: char, rest: seq<byte>)
    ensures DecodeHead(EncodeChar(c) + rest) == Some((c, |EncodeChar(c)|))
  {
    var cp := c as int;
    SixBitGroups(cp);
    var bs := EncodeChar(c) + rest;
    if cp < 0x80 {
    } else if cp < 0x800 {
      assert bs[0] as int == 0xC0 + cp / 64 && bs[1] as int == 0x80 + cp % 64;
    } else if cp < 0x1_0000 {
      assert bs[0] as int == 0xE0 + cp / 64 / 64;
      assert bs[1] as int == 0x80 + cp / 64 % 64 && bs[2] as int == 0x80 + cp % 64;
    } else {
      assert bs[0] as int == 0xF0 + cp / 64 / 64 / 64;
      assert bs[1] as int == 0x80 + cp / 64 / 64 % 64;
      assert bs[2] as int == 0x80 + cp / 64 % 64 && bs[3] as int == 0x80 + cp % 64;
    }
  }

  /** Round trip: decoding the UTF-8 encoding of any string gives the string
      back. */
  lemma {:induction false} DecodeEncode(s: string)
    ensures Decode(Encode(s)) == Some(s)
  {
    if s != [] {
      var e := EncodeChar(s[0]);
      DecodeHeadEncodeChar(s[0], Encode(s[1..]));
      assert (e + Encode(s[1..]))[|e|..] == Encode(s[1..]);
      DecodeEncode(s[1..]);
      assert s == [s[0]] + s[1..];
    }
  }

  /** Every character takes at least one byte, so only the empty string
      encodes to no bytes. */
  lemma EncodeEmpty(s: string)
    ensures Encode(s) == [] <==> s == []
  {
    if s != [] {
      assert |EncodeChar(s[0])| >= 1;
    }
  }

  /** A single byte decodes on its own exactly when it is ASCII. */
  lemma DecodeSingle(b: byte)
    ensures Decode([b]) == if b < 0x80 then Some([b as int as char]) else None
  {
    var bs := [b];
    assert bs[0] == b && |bs| == 1;
    if b < 0x80 {
      assert DecodeHead(bs) == Some((b as int as char, 1));
      assert bs[1..] == [] && Decode(bs[1..]) == Some([]);
      assert [b as int as char] + [] == [b as int as char];
    } else {
      assert DecodeHead(bs) == None;
    }
  }

  /** An ASCII character is its own single byte. */
  lemma EncodeAscii(c: char)
    requires c as int < 0x80
    ensures Encode([c]) == [c as int as byte]
  {
    assert [c][1..] == [];
  }
}
