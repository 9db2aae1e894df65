/** UTF-8 (RFC 3629) as the URL codecs of the browser use it: encoding of scalar values, a strict
    decoder (decodeURIComponent's) and a lenient one that substitutes U+FFFD (the URL parser's). */
module Utf8 {
  import opened Js

  type Byte = b: int | 0 <= b < 256

  predicate IsContinuation(b: Byte) { 0x80 <= b < 0xC0 }

  /** The bytes of one scalar value (RFC 3629 section 3). */
  function EncodeChar(c: char): (r: seq<Byte>)
  {
    var cp := c as int;
    if cp < 0x80 then [cp]
    else if cp < 0x800 then [0xC0 + cp / 64, 0x80 + cp % 64]
    else if cp < 0x10000 then [0xE0 + cp / 4096, 0x80 + cp / 64 % 64, 0x80 + cp % 64]
    else [0xF0 + cp / 262144, 0x80 + cp / 4096 % 64, 0x80 + cp / 64 % 64, 0x80 + cp % 64]
  }

  /** One to four bytes, one exactly for ASCII, which is its own code; a lead byte that is not a
      continuation byte, followed by continuation bytes only. */
  lemma EncodeCharShape(c: char)
    ensures var r := EncodeChar(c);
      1 <= |r| <= 4 && (|r| == 1 <==> c as int < 0x80) && (c as int < 0x80 ==> r == [c as int]) &&
      !IsContinuation(r[0]) && forall i :: 1 <= i < |r| ==> IsContinuation(r[i])
  {
  }

  function Encode(s: string): (r: seq<Byte>)
  {
    if s == [] then [] else EncodeChar(s[0]) + Encode(s[1..])
  }

  /** The first scalar value of `bs` and how many bytes it takes, or None when `bs` does not start
      with a well-formed sequence (overlong forms, surrogates and values past U+10FFFF are refused). */
  function DecodeFirst(bs: seq<Byte>): (r: Option<(char, nat)>)
    requires bs != []
    ensures r.Some? ==> 1 <= r.value.1 <= |bs| && r.value.1 <= 4
  {
    var b0: int := bs[0];
    if b0 < 0x80 then Some((b0 as char, 1))
    else if 0xC2 <= b0 < 0xE0 then
      if |bs| >= 2 && IsContinuation(bs[1])
      then Some((((b0 - 0xC0) * 64 + (bs[1] as int - 0x80)) as char, 2))
      else None
    else if 0xE0 <= b0 < 0xF0 then
      if |bs| >= 3 && IsContinuation(bs[1]) && IsContinuation(bs[2]) then
        var cp := (b0 - 0xE0) * 4096 + (bs[1] as int - 0x80) * 64 + (bs[2] as int - 0x80);
        if 0x800 <= cp && !(0xD800 <= cp < 0xE000) then Some((cp as char, 3)) else None
      else None
    else if 0xF0 <= b0 < 0xF5 then
      if |bs| >= 4 && IsContinuation(bs[1]) && IsContinuation(bs[2]) && IsContinuation(bs[3]) then
        var cp := (b0 - 0xF0) * 262144 + (bs[1] as int - 0x80) * 4096 + (bs[2] as int - 0x80) * 64 + (bs[3] as int - 0x80);
        if 0x10000 <= cp < 0x110000 then Some((cp as char, 4)) else None
      else None
    else None
  }

  /** Decoding that fails on the first ill-formed sequence. */
  function DecodeStrict(bs: seq<Byte>): Option<string>
    decreases |bs|
  {
    if bs == [] then Some("")
    else match DecodeFirst(bs)
      case None => None
      case Some((c, n)) =>
        match DecodeStrict(bs[n..])
        case None => None
        case Some(rest) => Some([c] + rest)
  }

  /** Every scalar value takes at least one byte, so decoding never lengthens. */
  lemma {:induction false} DecodeStrictShorter(bs: seq<Byte>)
    ensures DecodeStrict(bs).Some? ==> |DecodeStrict(bs).value| <= |bs|
    decreases |bs|
  {
    if bs != [] && DecodeFirst(bs).Some? {
      DecodeStrictShorter(bs[DecodeFirst(bs).value.1..]);
    }
  }

  const Replacement: char := '�'

  /** Decoding that replaces an ill-formed byte by U+FFFD and goes on with the next byte. */
  function DecodeLenient(bs: seq<Byte>): string
    decreases |bs|
  {
    if bs == [] then ""
    else match DecodeFirst(bs)
      case None => [Replacement] + DecodeLenient(bs[1..])
      case Some((c, n)) => [c] + DecodeLenient(bs[n..])
  }

  lemma DecodeFirstTwoBytes(c: char, rest: seq<Byte>)
    requires 0x80 <= c as int < 0x800
    ensures DecodeFirst(EncodeChar(c) + rest) == Some((c, 2))
  {
    var cp := c as int;
    var bs := EncodeChar(c) + rest;
    assert cp == (cp / 64) * 64 + cp % 64;
    assert (bs[0] as int - 0xC0) * 64 + (bs[1] as int - 0x80) == cp;
  }

  lemma DecodeFirstThreeBytes(c: char, rest: seq<Byte>)
    requires 0x800 <= c as int < 0x10000
    ensures DecodeFirst(EncodeChar(c) + rest) == Some((c, 3))
  {
    var cp := c as int;
    var bs := EncodeChar(c) + rest;
    assert cp / 64 == (cp / 4096) * 64 + cp / 64 % 64;
    assert cp == (cp / 64) * 64 + cp % 64;
    assert (bs[0] as int - 0xE0) * 4096 + (bs[1] as int - 0x80) * 64 + (bs[2] as int - 0x80) == cp;
  }

  lemma DecodeFirstFourBytes(c: char, rest: seq<Byte>)
    requires 0x10000 <= c as int
    ensures DecodeFirst(EncodeChar(c) + rest) == Some((c, 4))
  {
    var cp := c as int;
    var bs := EncodeChar(c) + rest;
    assert cp / 4096 == (cp / 262144) * 64 + cp / 4096 % 64;
    assert cp / 64 == (cp / 4096) * 64 + cp / 64 % 64;
    assert cp == (cp / 64) * 64 + cp % 64;
    assert (bs[0] as int - 0xF0) * 262144 + (bs[1] as int - 0x80) * 4096 + (bs[2] as int - 0x80) * 64
           + (bs[3] as int - 0x80) == cp;
  }

  /** Decoding reads back exactly the character that was encoded, whatever follows it. */
  lemma DecodeFirstOfEncodeChar(c: char, rest: seq<Byte>)
    ensures DecodeFirst(EncodeChar(c) + rest) == Some((c, |EncodeChar(c)|))
  {
    var cp := c as int;
    if cp < 0x80 {
      assert (EncodeChar(c) + rest)[0] == cp;
    } else if cp < 0x800 {
      DecodeFirstTwoBytes(c, rest);
    } else if cp < 0x10000 {
      DecodeFirstThreeBytes(c, rest);
    } else {
      DecodeFirstFourBytes(c, rest);
    }
  }

  /** Both decoders invert the encoder. */
  lemma {:induction false} DecodeEncode(s: string)
    ensures DecodeStrict(Encode(s)) == Some(s)
    ensures DecodeLenient(Encode(s)) == s
  {
    if s != [] {
      var e := EncodeChar(s[0]);
      DecodeFirstOfEncodeChar(s[0], Encode(s[1..]));
      assert Encode(s)[|e|..] == Encode(s[1..]);
      DecodeEncode(s[1..]);
      assert [s[0]] + s[1..] == s;
    }
  }
}
