/**
 * UTF-8 encoding of text, as Python's `bytes(message, 'UTF-8')` performs it
 * when the proxy turns an object-store error message into a response body.
 * A decoder is given beside the encoder so that the encoding can be shown to
 * lose nothing.
 */
module Utf8 {
  import opened Wrappers

  newtype byte = x: int | 0 <= x < 0x100

  /** Number of bytes UTF-8 spends on the code point `n`. */
  function Width(n: int): nat {
    if n < 0x80 then 1 else if n < 0x800 then 2 else if n < 0x1_0000 then 3 else 4
  }

  predicate IsContinuation(b: byte) {
    0x80 <= b < 0xC0
  }

  /** The UTF-8 bytes of one Unicode scalar value. */
  function EncodeChar(c: char): (bs: seq<byte>)
    ensures |bs| == Width(c as int)
    ensures forall i :: 1 <= i < |bs| ==> IsContinuation(bs[i])
  {
    var n := c as int;
    if n < 0x80 then
      [n as byte]
    else if n < 0x800 then
      [(0xC0 + n / 0x40) as byte, (0x80 + n % 0x40) as byte]
    else if n < 0x1_0000 then
      [(0xE0 + n / 0x1000) as byte, (0x80 + n / 0x40 % 0x40) as byte, (0x80 + n % 0x40) as byte]
    else
      [(0xF0 + n / 0x4_0000) as byte, (0x80 + n / 0x1000 % 0x40) as byte,
       (0x80 + n / 0x40 % 0x40) as byte, (0x80 + n % 0x40) as byte]
  }

  /** The UTF-8 bytes of a string: the encodings of its characters, in order. */
  function Encode(s: string): (bs: seq<byte>)
    ensures |s| <= |bs| <= 4 * |s|
    ensures (forall i :: 0 <= i < |s| ==> s[i] as int < 0x80) ==> |bs| == |s|
  {
    if s == [] then [] else EncodeChar(s[0]) + Encode(s[1..])
  }

  /**
   * Reads the first character of `bs`, with the number of bytes it takes, or
   * None when `bs` does not start with a well-formed UTF-8 sequence.
   */
  function DecodeFirst(bs: seq<byte>): (r: Option<(char, nat)>)
    requires bs != []
    ensures r.Some? ==> 1 <= r.value.1 <= |bs|
  {
    var b0 := bs[0] as int;
    if b0 < 0x80 then
      Some((b0 as char, 1))
    else if 0xC0 <= b0 < 0xE0 && |bs| >= 2 && IsContinuation(bs[1]) then
      var n := (b0 - 0xC0) * 0x40 + (bs[1] as int - 0x80);
      if 0x80 <= n then Some((n as char, 2)) else None
    else if 0xE0 <= b0 < 0xF0 && |bs| >= 3 && IsContinuation(bs[1]) && IsContinuation(bs[2]) then
      var n := (b0 - 0xE0) * 0x1000 + (bs[1] as int - 0x80) * 0x40 + (bs[2] as int - 0x80);
      if 0x800 <= n && (n < 0xD800 || 0xE000 <= n) then Some((n as char, 3)) else None
    else if 0xF0 <= b0 < 0xF8 && |bs| >= 4
            && IsContinuation(bs[1]) && IsContinuation(bs[2]) && IsContinuation(bs[3]) then
      var n := (b0 - 0xF0) * 0x4_0000 + (bs[1] as int - 0x80) * 0x1000
               + (bs[2] as int - 0x80) * 0x40 + (bs[3] as int - 0x80);
      if 0x1_0000 <= n < 0x11_0000 then Some((n as char, 4)) else None
    else
      None
  }

  /** The string whose UTF-8 encoding is `bs`, or None when `bs` is malformed. */
  function Decode(bs: seq<byte>): Option<string>
    decreases |bs|
  {
    if bs == [] then Some([])
    else match DecodeFirst(bs)
      case None => None
      case Some((c, w)) =>
        match Decode(bs[w..])
        case None => None
        case Some(rest) => Some([c] + rest)
  }

  /** Decoding the first character of an encoding gives back that character. */
  lemma DecodeEncodedChar(c: char, rest: seq<byte>)
    ensures DecodeFirst(EncodeChar(c) + rest) == Some((c, |EncodeChar(c)|))
  {
    var n := c as int;
    if n < 0x80 {
    } else if n < 0x800 {
      assert (n / 0x40) * 0x40 + n % 0x40 == n;
    } else if n < 0x1_0000 {
      assert (n / 0x40 / 0x40) * 0x40 + n / 0x40 % 0x40 == n / 0x40;
      assert n / 0x1000 == n / 0x40 / 0x40;
      assert (n / 0x40) * 0x40 + n % 0x40 == n;
    } else {
      assert (n / 0x1000 / 0x40) * 0x40 + n / 0x1000 % 0x40 == n / 0x1000;
      assert n / 0x4_0000 == n / 0x1000 / 0x40;
      assert (n / 0x40 / 0x40) * 0x40 + n / 0x40 % 0x40 == n / 0x40;
      assert n / 0x1000 == n / 0x40 / 0x40;
      assert (n / 0x40) * 0x40 + n % 0x40 == n;
    }
  }

  /** Encoding loses nothing: every string is decoded back from its UTF-8 bytes. */
  lemma {:induction false} DecodeEncode(s: string)
    ensures Decode(Encode(s)) == Some(s)
  {
    if s != [] {
      var head := EncodeChar(s[0]);
      var tail := Encode(s[1..]);
      DecodeEncodedChar(s[0], tail);
      assert (head + tail)[|head|..] == tail;
      DecodeEncode(s[1..]);
      assert [s[0]] + s[1..] == s;
    }
  }
}
