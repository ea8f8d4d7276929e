/**
 * UTF-8 as Rust's `str::as_bytes` exposes it: the encoding of one Unicode
 * scalar value (a Dafny `char`) into one to four bytes, and of a string as
 * the concatenation of its characters' encodings.
 */
module Utf8 {
  import opened Wire

  /** The UTF-8 encoding of one scalar value (`c.to_string().as_bytes()`). */
  function EncodeChar(c: char): (r: seq<byte>)
    ensures 1 <= |r| <= 4
    ensures |r| == 1 <==> (c as int) < 0x80
    ensures |r| == 1 ==> r[0] == c as int
  {
    var n := c as int;
    if n < 0x80 then [n]
    else if n < 0x800 then [0xC0 + n / 0x40, 0x80 + n % 0x40]
    else if n < 0x1_0000 then [0xE0 + n / 0x1000, 0x80 + (n / 0x40) % 0x40, 0x80 + n % 0x40]
    else [0xF0 + n / 0x4_0000, 0x80 + (n / 0x1000) % 0x40, 0x80 + (n / 0x40) % 0x40, 0x80 + n % 0x40]
  }

  /** The scalar value a well-formed one- to four-byte sequence encodes. */
  function DecodeScalar(b: seq<byte>): int
    requires 1 <= |b| <= 4
  {
    var b0: int := b[0];
    if |b| == 1 then b0
    else
      var b1: int := b[1];
      if |b| == 2 then (b0 - 0xC0) * 0x40 + (b1 - 0x80)
      else
        var b2: int := b[2];
        if |b| == 3 then (b0 - 0xE0) * 0x1000 + (b1 - 0x80) * 0x40 + (b2 - 0x80)
        else
          var b3: int := b[3];
          (b0 - 0xF0) * 0x4_0000 + (b1 - 0x80) * 0x1000 + (b2 - 0x80) * 0x40 + (b3 - 0x80)
  }

  /**
   * The encoding is UTF-8: the lead byte announces the length (`0xxxxxxx`,
   * `110xxxxx`, `1110xxxx`, `11110xxx`), every other byte is a continuation
   * byte `10xxxxxx`, and decoding gives the scalar value back.
   */
  lemma EncodeCharIsUtf8(c: char)
    ensures var r := EncodeChar(c);
      && DecodeScalar(r) == c as int
      && (|r| == 2 ==> 0xC0 <= r[0] < 0xE0)
      && (|r| == 3 ==> 0xE0 <= r[0] < 0xF0)
      && (|r| == 4 ==> 0xF0 <= r[0] < 0xF8)
      && (forall i :: 1 <= i < |r| ==> 0x80 <= r[i] < 0xC0)
  {
    var n := c as int;
    if n >= 0x80 && n < 0x800 {
      assert n == (n / 0x40) * 0x40 + n % 0x40;
    } else if n >= 0x800 && n < 0x1_0000 {
      var q := n / 0x40;
      assert n == q * 0x40 + n % 0x40;
      assert q == (q / 0x40) * 0x40 + q % 0x40;
      assert q / 0x40 == n / 0x1000;
    } else if n >= 0x1_0000 {
      var q1 := n / 0x40;
      var q2 := q1 / 0x40;
      assert n == q1 * 0x40 + n % 0x40;
      assert q1 == q2 * 0x40 + q1 % 0x40;
      assert q2 == (q2 / 0x40) * 0x40 + q2 % 0x40;
      assert q2 == n / 0x1000;
      assert q2 / 0x40 == n / 0x4_0000;
    }
  }

  /** `s.as_bytes()`: the encodings of the characters, in order. */
  function Encode(s: string): seq<byte> {
    if s == [] then [] else EncodeChar(s[0]) + Encode(s[1..])
  }
}
