/**
 * The binary frame codec of the bidirectional TTS WebSocket API
 * (crates/doubao/src/spec/tts/protocol.rs): the protocol constants, the
 * frame builder, and the bounds-checked readers of server frames.
 *
 * The JSON payload of a frame is modelled by the bytes of its serialized
 * text (`payload.to_string().as_bytes()`), and a session id by the UTF-8
 * bytes of the `&str`.
 */
module TtsProtocol {
  import opened Wrappers
  import opened Wire

  const PROTOCOL_VERSION: byte := 0x11
  const MSG_TYPE_FULL_CLIENT: byte := 0x14
  const MSG_TYPE_FULL_SERVER: byte := 0x94
  const MSG_TYPE_AUDIO_ONLY: byte := 0xB4
  const SERIALIZATION_JSON: byte := 0x10
  const NO_COMPRESSION: byte := 0x00
  const RESERVED: byte := 0x00

  const EVENT_START_CONNECTION: i32 := 1
  const EVENT_CONNECTION_STARTED: i32 := 50
  const EVENT_START_SESSION: i32 := 100
  const EVENT_SESSION_STARTED: i32 := 150
  const EVENT_TASK_REQUEST: i32 := 200
  const EVENT_TTS_SENTENCE_START: i32 := 350
  const EVENT_TTS_SENTENCE_END: i32 := 351
  const EVENT_TTS_RESPONSE: i32 := 352
  const EVENT_SESSION_FINISHED: i32 := 152
  const EVENT_FINISH_SESSION: i32 := 102
  const EVENT_FINISH_CONNECTION: i32 := 2

  /** The serialized text of `json!({})`, i.e. the two bytes of `{}`. */
  const EMPTY_JSON: seq<byte> := [0x7B, 0x7D]

  /** The header every frame built here starts with. */
  function Header(): seq<byte> {
    [PROTOCOL_VERSION, MSG_TYPE_FULL_CLIENT, Or8(SERIALIZATION_JSON, NO_COMPRESSION), RESERVED]
  }

  /**
   * The bytes `build_event_frame(event, session_id, payload)` returns: the
   * full-client header, then 4 bytes of event, the optional length-prefixed
   * session id and the length-prefixed payload.
   */
  function EventFrame(event: i32, sessionId: Option<seq<byte>>, payload: seq<byte>): (f: seq<byte>)
    ensures |f| == 8 + SessionFieldSize(sessionId) + 4 + |payload|
  {
    ClientFrameLayout(Header(), event, sessionId, payload);
    ClientFrame(Header(), event, sessionId, payload)
  }

  /**
   * `build_event_frame`: pushes the header, the event and the optional
   * session id, then the payload, onto a growing buffer.
   */
  method BuildEventFrame(event: i32, sessionId: Option<seq<byte>>, payload: seq<byte>) returns (frame: seq<byte>)
    ensures frame == EventFrame(event, sessionId, payload)
    ensures frame[..4] == [0x11, 0x14, 0x10, 0x00]
    ensures |frame| == 8 + SessionFieldSize(sessionId) + 4 + |payload|
  {
    frame := [];
    frame := frame + [PROTOCOL_VERSION];
    frame := frame + [MSG_TYPE_FULL_CLIENT];
    frame := frame + [Or8(SERIALIZATION_JSON, NO_COMPRESSION)];
    frame := frame + [RESERVED];
    ghost var header := frame;
    assert header == Header();
    frame := frame + I32ToBe(event);
    if sessionId.Some? {
      var sid := sessionId.value;
      frame := frame + U32ToBe(LenAsU32(|sid|));
      frame := frame + sid;
      assert frame == header + I32ToBe(event) + LengthPrefixed(sid);
    }
    assert frame == header + I32ToBe(event) + SessionField(sessionId);
    frame := frame + U32ToBe(LenAsU32(|payload|));
    frame := frame + payload;
    assert frame == header + I32ToBe(event) + SessionField(sessionId) + LengthPrefixed(payload);
    EventFrameShape(event, sessionId, payload);
  }

  /** `parse_event`: the big-endian `i32` at bytes 4..8, or `None` for a frame shorter than 8 bytes. */
  function ParseEvent(data: seq<byte>): (r: Option<i32>)
    ensures r.Some? ==> |data| >= 8 && I32ToBe(r.value) == data[4..8]
  {
    if |data| < 8 then None
    else
      var e := I32FromBe(data[4], data[5], data[6], data[7]);
      I32BeRoundTrip(data[4], data[5], data[6], data[7]);
      Some(e)
  }

  /** The events of a sequence of client frames, in order (frames too short to carry one are dropped). */
  function FrameEvents(frames: seq<seq<byte>>): seq<i32> {
    if frames == [] then []
    else (match ParseEvent(frames[0]) case Some(e) => [e] case None => []) + FrameEvents(frames[1..])
  }

  /** The events of concatenated frame sequences are concatenated. */
  lemma {:induction false} FrameEventsAppend(a: seq<seq<byte>>, b: seq<seq<byte>>)
    ensures FrameEvents(a + b) == FrameEvents(a) + FrameEvents(b)
    decreases |a|
  {
    if a != [] {
      assert (a + b)[0] == a[0];
      assert (a + b)[1..] == a[1..] + b;
      FrameEventsAppend(a[1..], b);
    } else {
      assert a + b == b;
    }
  }

  /** Frames whose events all parse contribute exactly those events, in order. */
  lemma {:induction false} FrameEventsOfParsed(frames: seq<seq<byte>>, events: seq<i32>)
    requires |frames| == |events|
    requires forall i :: 0 <= i < |frames| ==> ParseEvent(frames[i]) == Some(events[i])
    ensures FrameEvents(frames) == events
    decreases |frames|
  {
    if frames != [] {
      assert ParseEvent(frames[0]) == Some(events[0]);
      FrameEventsOfParsed(frames[1..], events[1..]);
    }
  }

  /** A built event frame contributes exactly its event. */
  lemma FrameEventsOfEventFrame(event: i32, sessionId: Option<seq<byte>>, payload: seq<byte>)
    ensures FrameEvents([EventFrame(event, sessionId, payload)]) == [event]
  {
    ParseEventOfEventFrame(event, sessionId, payload);
    assert [EventFrame(event, sessionId, payload)][1..] == [];
  }

  /**
   * `extract_audio_from_frame`: for an audio-only response (`0xB4`) of at
   * least 12 bytes, everything after the session id and the 4-byte payload
   * size field, provided that is non-empty; `None` otherwise.
   */
  function ExtractAudioFromFrame(data: seq<byte>): (r: Option<seq<byte>>)
    ensures r.Some? ==> |data| >= 12 && data[1] == MSG_TYPE_AUDIO_ONLY && r.value != []
  {
    if |data| < 4 then None
    else if data[1] == MSG_TYPE_AUDIO_ONLY then
      if |data| < 12 then None
      else
        var sessionIdLen := U32FromBe(data[8], data[9], data[10], data[11]);
        var audioOffset := 12 + sessionIdLen + 4;
        if |data| > audioOffset then Some(data[audioOffset..]) else None
    else None
  }

  /** `is_full_server_response`: a full server response (`0x94`) never carries extractable audio. */
  predicate IsFullServerResponse(data: seq<byte>)
    ensures IsFullServerResponse(data) ==> ExtractAudioFromFrame(data).None?
  {
    |data| >= 2 && data[1] == MSG_TYPE_FULL_SERVER
  }

  /**
   * `is_audio_only_response`: every frame audio is extracted from is one,
   * and no frame is both this and a full server response.
   */
  predicate IsAudioOnlyResponse(data: seq<byte>)
    ensures ExtractAudioFromFrame(data).Some? ==> IsAudioOnlyResponse(data)
    ensures IsAudioOnlyResponse(data) ==> !IsFullServerResponse(data)
  {
    |data| >= 2 && data[1] == MSG_TYPE_AUDIO_ONLY
  }

  /** Offset at which an audio-only frame's audio starts, read from its session-id length field. */
  function AudioOffset(data: seq<byte>): nat
    requires |data| >= 12
  {
    12 + U32FromBe(data[8], data[9], data[10], data[11]) + 4
  }

  // ---------------------------------------------------------------------------
  // Properties of the builder
  // ---------------------------------------------------------------------------

  /**
   * Shape of a built frame: it starts with `0x11 0x14 0x10 0x00`, has length
   * `8 + (4 + |sid| if present) + 4 + |payload|`, and every length field is the
   * big-endian `as u32` size of the field after it. Without a session id the
   * payload length sits at offset 8.
   */
  lemma EventFrameShape(event: i32, sessionId: Option<seq<byte>>, payload: seq<byte>)
    ensures var f := EventFrame(event, sessionId, payload);
      var p := 8 + SessionFieldSize(sessionId);
      && f[..4] == [0x11, 0x14, 0x10, 0x00]
      && |f| == 8 + SessionFieldSize(sessionId) + 4 + |payload|
      && (sessionId.Some? ==> f[8..12] == U32ToBe(LenAsU32(|sessionId.value|)) && f[12..p] == sessionId.value)
      && (sessionId.None? ==> f[8..12] == U32ToBe(LenAsU32(|payload|)))
      && f[p..p + 4] == U32ToBe(LenAsU32(|payload|))
      && f[p + 4..] == payload
  {
    assert Or8(SERIALIZATION_JSON, NO_COMPRESSION) == 0x10;
    ClientFrameLayout(Header(), event, sessionId, payload);
  }

  /** Parsing the event of a built frame gives back the event, with or without a session id. */
  lemma ParseEventOfEventFrame(event: i32, sessionId: Option<seq<byte>>, payload: seq<byte>)
    ensures ParseEvent(EventFrame(event, sessionId, payload)) == Some(event)
  {
    var f := EventFrame(event, sessionId, payload);
    ClientFrameLayout(Header(), event, sessionId, payload);
    var b := I32ToBe(event);
    assert f[4] == b[0] && f[5] == b[1] && f[6] == b[2] && f[7] == b[3];
    I32RoundTrip(event);
  }

  // ---------------------------------------------------------------------------
  // Properties of the readers
  // ---------------------------------------------------------------------------

  /**
   * `parse_event` is `None` exactly for frames shorter than 8 bytes, and
   * otherwise depends on bytes 4..8 alone.
   */
  lemma ParseEventReadsOnlyEventField(a: seq<byte>, b: seq<byte>)
    ensures ParseEvent(a).None? <==> |a| < 8
    ensures |a| >= 8 && |b| >= 8 && a[4..8] == b[4..8] ==> ParseEvent(a) == ParseEvent(b)
  {
    if |a| >= 8 && |b| >= 8 && a[4..8] == b[4..8] {
      assert a[4] == b[4] && a[5] == b[5] && a[6] == b[6] && a[7] == b[7];
    }
  }

  /**
   * The cases of `extract_audio_from_frame`: `None` for a frame shorter than
   * 4 bytes, of another message type, or an audio-only frame shorter than 12
   * bytes; otherwise exactly the suffix from `12 + sidlen + 4` when that is
   * non-empty, and `None` when it is empty. The declared payload length is
   * never consulted.
   */
  lemma ExtractAudioCases(data: seq<byte>)
    ensures |data| < 4 ==> ExtractAudioFromFrame(data).None?
    ensures |data| >= 4 && data[1] != MSG_TYPE_AUDIO_ONLY ==> ExtractAudioFromFrame(data).None?
    ensures |data| >= 4 && data[1] == MSG_TYPE_AUDIO_ONLY && |data| < 12 ==> ExtractAudioFromFrame(data).None?
    ensures |data| >= 12 && data[1] == MSG_TYPE_AUDIO_ONLY ==>
      ExtractAudioFromFrame(data) == if |data| > AudioOffset(data) then Some(data[AudioOffset(data)..]) else None
  {
  }

  /**
   * Two audio-only frames that agree up to the payload size field and in
   * everything after it yield the same audio, whatever payload length they declare.
   */
  lemma ExtractAudioIgnoresDeclaredLength(a: seq<byte>, b: seq<byte>)
    requires |a| >= 12 && a[1] == MSG_TYPE_AUDIO_ONLY && |a| == |b|
    requires AudioOffset(a) <= |a|
    requires a[..AudioOffset(a) - 4] == b[..AudioOffset(a) - 4]
    requires a[AudioOffset(a)..] == b[AudioOffset(a)..]
    ensures ExtractAudioFromFrame(a) == ExtractAudioFromFrame(b)
  {
    var k := AudioOffset(a) - 4;
    assert a[1] == a[..k][1] == b[..k][1];
    assert a[8] == b[8] && a[9] == b[9] && a[10] == b[10] && a[11] == b[11] by {
      assert a[8..12] == a[..k][8..12] == b[..k][8..12] == b[8..12];
    }
  }

  /**
   * An audio-only frame with a session id yields everything after the
   * payload size field, whatever size that field declares (a frame that
   * declares 1 byte and carries 3 yields all 3), or `None` when nothing
   * follows it (the check is a strict `>`).
   */
  lemma ExtractAudioTakesTrailingBytes(header: seq<byte>, event: i32, sid: seq<byte>, declared: u32, audio: seq<byte>)
    requires |header| == 4 && header[1] == MSG_TYPE_AUDIO_ONLY
    requires |sid| < U32_MODULUS
    ensures ExtractAudioFromFrame(header + I32ToBe(event) + LengthPrefixed(sid) + U32ToBe(declared) + audio)
      == if audio == [] then None else Some(audio)
  {
    var pre := header + I32ToBe(event) + U32ToBe(|sid|);
    var f := header + I32ToBe(event) + LengthPrefixed(sid) + U32ToBe(declared) + audio;
    assert f == pre + (sid + U32ToBe(declared) + audio);
    assert |pre| == 12;
    assert f[1] == pre[1] == header[1];
    assert f[8..12] == pre[8..12] == U32ToBe(|sid|);
    U32FieldAt(f, 8, |sid|);
    assert AudioOffset(f) == 16 + |sid|;
    assert f[16 + |sid|..] == audio;
  }

  /**
   * A frame with the client layout, session id present and message type
   * forced to audio-only, yields exactly its payload, or `None` when the
   * payload is empty.
   */
  lemma ExtractAudioOfAudioLayout(header: seq<byte>, event: i32, sid: seq<byte>, audio: seq<byte>)
    requires |header| == 4 && header[1] == MSG_TYPE_AUDIO_ONLY
    requires |sid| < U32_MODULUS
    ensures ExtractAudioFromFrame(ClientFrame(header, event, Some(sid), audio))
      == if audio == [] then None else Some(audio)
  {
    assert ClientFrame(header, event, Some(sid), audio)
      == header + I32ToBe(event) + LengthPrefixed(sid) + U32ToBe(LenAsU32(|audio|)) + audio;
    ExtractAudioTakesTrailingBytes(header, event, sid, LenAsU32(|audio|), audio);
  }

  /**
   * `is_full_server_response` / `is_audio_only_response` hold iff the frame
   * has at least 2 bytes and byte 1 is `0x94` / `0xB4`; they are never both true.
   */
  lemma ResponseKindsExclusive(data: seq<byte>)
    ensures IsFullServerResponse(data) <==> |data| >= 2 && data[1] == 0x94
    ensures IsAudioOnlyResponse(data) <==> |data| >= 2 && data[1] == 0xB4
    ensures !(IsFullServerResponse(data) && IsAudioOnlyResponse(data))
  {
  }
}
