/**
 * Byte-level building blocks of the binary WebSocket frame shared by the
 * Doubao speech APIs: Rust's fixed-width integers, their big-endian byte
 * encodings, the `len() as u32` truncating cast and the layout of a frame
 * that a client builder produces.
 */
module Wire {
  import opened Wrappers

  /** Rust's `u8`. */
  type byte = b: int | 0 <= b < 0x100

  /** Rust's `u32`. */
  type u32 = n: int | 0 <= n < 0x1_0000_0000

  /** Rust's `i32`. */
  type i32 = n: int | -0x8000_0000 <= n < 0x8000_0000

  const U32_MODULUS: int := 0x1_0000_0000

  /** `a | b` on two `u8` values. */
  function Or8(a: byte, b: byte): byte {
    ((a as bv8) | (b as bv8)) as int
  }

  /** `n.to_be_bytes()` for `n: u32`. */
  function U32ToBe(n: u32): (r: seq<byte>)
    ensures |r| == 4
  {
    [n / 0x100_0000, (n / 0x1_0000) % 0x100, (n / 0x100) % 0x100, n % 0x100]
  }

  /** `u32::from_be_bytes([b0, b1, b2, b3])`. */
  function U32FromBe(b0: byte, b1: byte, b2: byte, b3: byte): u32 {
    b0 * 0x100_0000 + b1 * 0x1_0000 + b2 * 0x100 + b3
  }

  /** Decoding the big-endian bytes of `n` gives `n` back. */
  lemma U32RoundTrip(n: u32)
    ensures var b := U32ToBe(n); U32FromBe(b[0], b[1], b[2], b[3]) == n
  {
    var q1 := n / 0x100;
    var q2 := q1 / 0x100;
    var q3 := q2 / 0x100;
    assert n == q1 * 0x100 + n % 0x100;
    assert q1 == q2 * 0x100 + q1 % 0x100;
    assert q2 == q3 * 0x100 + q2 % 0x100;
    assert q2 == n / 0x1_0000;
    assert q3 == n / 0x100_0000;
  }

  /** Encoding a decoded word gives back the same four bytes. */
  lemma U32BeRoundTrip(b0: byte, b1: byte, b2: byte, b3: byte)
    ensures U32ToBe(U32FromBe(b0, b1, b2, b3)) == [b0, b1, b2, b3]
  {
    var n := U32FromBe(b0, b1, b2, b3);
    assert n / 0x100 == b0 * 0x1_0000 + b1 * 0x100 + b2;
    assert n / 0x1_0000 == b0 * 0x100 + b1;
    assert n / 0x100_0000 == b0;
  }

  /** A big-endian `u32` field found at `off` in a longer buffer reads back as its value. */
  lemma U32FieldAt(f: seq<byte>, off: nat, n: u32)
    requires off + 4 <= |f| && f[off..off + 4] == U32ToBe(n)
    ensures U32FromBe(f[off], f[off + 1], f[off + 2], f[off + 3]) == n
  {
    var b := U32ToBe(n);
    assert f[off] == b[0] && f[off + 1] == b[1] && f[off + 2] == b[2] && f[off + 3] == b[3];
    U32RoundTrip(n);
  }

  /** `e.to_be_bytes()` for `e: i32`: the two's-complement word, big-endian. */
  function I32ToBe(e: i32): (r: seq<byte>)
    ensures |r| == 4
  {
    U32ToBe(if e < 0 then e + U32_MODULUS else e)
  }

  /** `i32::from_be_bytes([b0, b1, b2, b3])`. */
  function I32FromBe(b0: byte, b1: byte, b2: byte, b3: byte): i32 {
    var w := U32FromBe(b0, b1, b2, b3);
    if w >= 0x8000_0000 then w - U32_MODULUS else w
  }

  /** Every `i32` survives a trip through its big-endian bytes. */
  lemma I32RoundTrip(e: i32)
    ensures var b := I32ToBe(e); I32FromBe(b[0], b[1], b[2], b[3]) == e
  {
    U32RoundTrip(if e < 0 then e + U32_MODULUS else e);
  }

  /** Four bytes read as an `i32` and written back are the same four bytes. */
  lemma I32BeRoundTrip(b0: byte, b1: byte, b2: byte, b3: byte)
    ensures I32ToBe(I32FromBe(b0, b1, b2, b3)) == [b0, b1, b2, b3]
  {
    U32BeRoundTrip(b0, b1, b2, b3);
  }

  /** `n as u32` for a length `n: usize`: the cast keeps the low 32 bits. */
  function LenAsU32(n: nat): (r: u32)
    ensures n < U32_MODULUS ==> r == n
  {
    n % U32_MODULUS
  }

  /** A field written as its `as u32` length, big-endian, followed by its bytes. */
  function LengthPrefixed(field: seq<byte>): (r: seq<byte>)
    ensures |r| == 4 + |field|
  {
    U32ToBe(LenAsU32(|field|)) + field
  }

  /** The optional session-id field: present, length-prefixed, exactly when an id is given. */
  function SessionField(sessionId: Option<seq<byte>>): seq<byte> {
    match sessionId
    case Some(sid) => LengthPrefixed(sid)
    case None => []
  }

  /**
   * The byte layout a client frame builder produces: the 4-byte header,
   * the big-endian event, the optional length-prefixed session id and the
   * length-prefixed payload.
   */
  function ClientFrame(header: seq<byte>, event: i32, sessionId: Option<seq<byte>>, payload: seq<byte>): seq<byte>
    requires |header| == 4
  {
    header + I32ToBe(event) + SessionField(sessionId) + LengthPrefixed(payload)
  }

  /** Size of the optional session-id field. */
  function SessionFieldSize(sessionId: Option<seq<byte>>): nat {
    if sessionId.Some? then 4 + |sessionId.value| else 0
  }

  /**
   * Shape of a client frame: its size is `8 + (4 + |sid| if present) + 4 + |payload|`,
   * the header and the event occupy bytes 0..8, each length field encodes the size
   * of the field after it, and without a session id the payload length sits at offset 8.
   */
  lemma {:induction false} ClientFrameLayout(header: seq<byte>, event: i32, sessionId: Option<seq<byte>>, payload: seq<byte>)
    requires |header| == 4
    ensures var f := ClientFrame(header, event, sessionId, payload);
      var p := 8 + SessionFieldSize(sessionId);
      && |f| == 8 + SessionFieldSize(sessionId) + 4 + |payload|
      && f[..4] == header
      && f[4..8] == I32ToBe(event)
      && (sessionId.Some? ==> f[8..12] == U32ToBe(LenAsU32(|sessionId.value|)) && f[12..p] == sessionId.value)
      && f[p..p + 4] == U32ToBe(LenAsU32(|payload|))
      && f[p + 4..] == payload
  {
    var f := ClientFrame(header, event, sessionId, payload);
    var s := SessionField(sessionId);
    var p := 8 + SessionFieldSize(sessionId);
    assert |s| == SessionFieldSize(sessionId);
    assert f == (header + I32ToBe(event)) + s + (U32ToBe(LenAsU32(|payload|)) + payload);
    assert f[..8] == header + I32ToBe(event);
    assert f[8..p] == s;
    if sessionId.Some? {
      assert s == U32ToBe(LenAsU32(|sessionId.value|)) + sessionId.value;
      assert f[8..12] == s[..4];
      assert f[12..p] == s[4..];
    }
  }
}
