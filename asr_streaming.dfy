/**
 * Streaming speech recognition over the binary WebSocket protocol
 * (crates/doubao/src/asr/streaming.rs): this file's own copy of the frame
 * builder and event reader, the audio-only frame, the bounds-checked result
 * reader, the wait for a handshake acknowledgement, the handshake of
 * `StreamingSession::new`, and the background pump as a sequential step
 * function over the events `tokio::select!` hands it.
 */
module AsrStreaming {
  import opened Wrappers
  import opened Wire
  import opened AsrSpec
  import opened Transport
  import TtsProtocol

  /** The serialized text of `serde_json::json!({})`. */
  const EMPTY_JSON: seq<byte> := [0x7B, 0x7D]

  /** The 4-byte header of a frame of the given message type. */
  function Header(msgType: byte): seq<byte> {
    [STREAMING_PROTOCOL_VERSION, msgType, Or8(STREAMING_SERIAL_JSON, STREAMING_COMPRESS_NONE), 0x00]
  }

  /** The bytes `build_event_frame(event, session_id, payload)` returns: the same bytes as the TTS protocol's frame. */
  function EventFrame(event: i32, sessionId: Option<seq<byte>>, payload: seq<byte>): (f: seq<byte>)
    ensures f == TtsProtocol.EventFrame(event, sessionId, payload)
  {
    assert Header(STREAMING_MSG_FULL_CLIENT) == TtsProtocol.Header();
    ClientFrame(Header(STREAMING_MSG_FULL_CLIENT), event, sessionId, payload)
  }

  /**
   * The bytes `build_audio_frame(session_id, audio)` returns: an audio-only
   * client header (`0x24`), TaskRequest (200), the length-prefixed session id
   * and the length-prefixed audio.
   */
  function AudioFrame(sessionId: seq<byte>, audio: seq<byte>): (f: seq<byte>)
    ensures |f| == 16 + |sessionId| + |audio|
    ensures f[..4] == [0x11, 0x24, 0x10, 0x00]
    ensures f[4..8] == I32ToBe(200) && f[12..12 + |sessionId|] == sessionId && f[16 + |sessionId|..] == audio
  {
    assert Or8(STREAMING_SERIAL_JSON, STREAMING_COMPRESS_NONE) == 0x10;
    ClientFrameLayout(Header(STREAMING_MSG_AUDIO_ONLY_CLIENT), STREAMING_EVENT_TASK_REQUEST, Some(sessionId), audio);
    ClientFrame(Header(STREAMING_MSG_AUDIO_ONLY_CLIENT), STREAMING_EVENT_TASK_REQUEST, Some(sessionId), audio)
  }

  /**
   * `build_event_frame` (this file's copy): the same bytes as the TTS
   * protocol's builder.
   */
  method BuildEventFrame(event: i32, sessionId: Option<seq<byte>>, payload: seq<byte>) returns (frame: seq<byte>)
    ensures frame == EventFrame(event, sessionId, payload)
    ensures frame == TtsProtocol.EventFrame(event, sessionId, payload)
  {
    frame := [];
    frame := frame + [STREAMING_PROTOCOL_VERSION];
    frame := frame + [STREAMING_MSG_FULL_CLIENT];
    frame := frame + [Or8(STREAMING_SERIAL_JSON, STREAMING_COMPRESS_NONE)];
    frame := frame + [0x00];
    ghost var header := frame;
    assert header == Header(STREAMING_MSG_FULL_CLIENT);
    frame := frame + I32ToBe(event);
    if sessionId.Some? {
      var sid := sessionId.value;
      frame := frame + U32ToBe(LenAsU32(|sid|));
      frame := frame + sid;
      assert frame == header + I32ToBe(event) + LengthPrefixed(sid);
    }
    assert frame == header + I32ToBe(event) + SessionField(sessionId);
    frame := frame + U32ToBe(LenAsU32(|payload|));
    frame := frame + payload;
    assert frame == header + I32ToBe(event) + SessionField(sessionId) + LengthPrefixed(payload);
  }

  /** `build_audio_frame`: pushes the header, event 200, the session id and the audio onto a growing buffer. */
  method BuildAudioFrame(sessionId: seq<byte>, audio: seq<byte>) returns (frame: seq<byte>)
    ensures frame == AudioFrame(sessionId, audio)
  {
    frame := [];
    frame := frame + [STREAMING_PROTOCOL_VERSION];
    frame := frame + [STREAMING_MSG_AUDIO_ONLY_CLIENT];
    frame := frame + [Or8(STREAMING_SERIAL_JSON, STREAMING_COMPRESS_NONE)];
    frame := frame + [0x00];
    ghost var header := frame;
    assert header == Header(STREAMING_MSG_AUDIO_ONLY_CLIENT);
    frame := frame + I32ToBe(STREAMING_EVENT_TASK_REQUEST);
    frame := frame + U32ToBe(LenAsU32(|sessionId|));
    frame := frame + sessionId;
    assert frame == header + I32ToBe(STREAMING_EVENT_TASK_REQUEST) + LengthPrefixed(sessionId);
    frame := frame + U32ToBe(LenAsU32(|audio|));
    frame := frame + audio;
    assert frame == header + I32ToBe(STREAMING_EVENT_TASK_REQUEST) + LengthPrefixed(sessionId) + LengthPrefixed(audio);
  }

  /**
   * An audio frame is an audio-only client frame (`0x24`) with event
   * TaskRequest (200), always carrying the length-prefixed session id; its
   * size is `16 + |sid| + |audio|` and the audio is its tail.
   */
  lemma AudioFrameLayout(sessionId: seq<byte>, audio: seq<byte>)
    ensures var f := AudioFrame(sessionId, audio);
      && f[..4] == [0x11, 0x24, 0x10, 0x00]
      && |f| == 16 + |sessionId| + |audio|
      && f[8..12] == U32ToBe(LenAsU32(|sessionId|)) && f[12..12 + |sessionId|] == sessionId
      && f[16 + |sessionId|..] == audio
      && ParseEvent(f) == Some(STREAMING_EVENT_TASK_REQUEST)
  {
    assert Or8(STREAMING_SERIAL_JSON, STREAMING_COMPRESS_NONE) == 0x10;
    ClientFrameLayout(Header(STREAMING_MSG_AUDIO_ONLY_CLIENT), STREAMING_EVENT_TASK_REQUEST, Some(sessionId), audio);
    AudioFrameEvent(sessionId, audio);
  }

  /** `parse_event` (this file's copy): it agrees with the TTS protocol's reader on every input. */
  function ParseEvent(data: seq<byte>): (r: Option<i32>)
    ensures r == TtsProtocol.ParseEvent(data)
  {
    if |data| < 8 then None else Some(I32FromBe(data[4], data[5], data[6], data[7]))
  }

  /** The event of an audio frame reads back as TaskRequest (200). */
  lemma AudioFrameEvent(sessionId: seq<byte>, audio: seq<byte>)
    ensures ParseEvent(AudioFrame(sessionId, audio)) == Some(STREAMING_EVENT_TASK_REQUEST)
  {
    var f := AudioFrame(sessionId, audio);
    ClientFrameLayout(Header(STREAMING_MSG_AUDIO_ONLY_CLIENT), STREAMING_EVENT_TASK_REQUEST, Some(sessionId), audio);
    var b := I32ToBe(STREAMING_EVENT_TASK_REQUEST);
    assert f[4] == b[0] && f[5] == b[1] && f[6] == b[2] && f[7] == b[3];
    I32RoundTrip(STREAMING_EVENT_TASK_REQUEST);
  }

  // ---------------------------------------------------------------------------
  // Reading a result frame
  // ---------------------------------------------------------------------------

  /**
   * What the code reads from the parsed JSON payload: `result.text` as a
   * string, `result.definite` as a bool, and the `additions` member.
   */
  datatype AsrPayload = AsrPayload(text: Option<string>, definite: Option<bool>, additions: Option<JsonValue>)

  /** Offset of the payload-length field: right after the declared session id. */
  function PayloadOffset(data: seq<byte>): nat
    requires |data| >= 12
  {
    12 + U32FromBe(data[8], data[9], data[10], data[11])
  }

  /**
   * The structural part of `parse_asr_result`: the payload slice, after the
   * three bounds checks (at least 12 bytes; 4 bytes after the declared
   * session id; the declared payload length fits).
   */
  function AsrPayloadSlice(data: seq<byte>): (r: Option<seq<byte>>)
    ensures r.Some? ==> |r.value| <= |data| - 16
  {
    if |data| < 12 then None
    else
      var sessionIdLen := U32FromBe(data[8], data[9], data[10], data[11]);
      var payloadOffset := 12 + sessionIdLen;
      if |data| < payloadOffset + 4 then None
      else
        var payloadLen := U32FromBe(data[payloadOffset], data[payloadOffset + 1], data[payloadOffset + 2], data[payloadOffset + 3]);
        var payloadStart := payloadOffset + 4;
        if |data| < payloadStart + payloadLen then None
        else Some(data[payloadStart..payloadStart + payloadLen])
  }

  /**
   * `parse_asr_result(data, session_id)`. `decode` stands for
   * `serde_json::from_slice(..).ok()` followed by the three lookups.
   */
  function ParseAsrResult(data: seq<byte>, sessionId: seq<byte>, decode: seq<byte> -> Option<AsrPayload>): (r: Option<StreamingAsrResult>)
    ensures r.Some? <==> AsrPayloadSlice(data).Some? && decode(AsrPayloadSlice(data).value).Some?
    ensures r.Some? ==>
      var p := decode(AsrPayloadSlice(data).value).value;
      && r.value.sessionId == sessionId
      && r.value.result == AsrResult(p.text.UnwrapOr(""), [], p.additions)
      && r.value.isFinal == p.definite.UnwrapOr(false)
  {
    match AsrPayloadSlice(data)
    case None => None
    case Some(payloadBytes) =>
      match decode(payloadBytes)
      case None => None
      case Some(payload) =>
        var result := AsrResult(payload.text.UnwrapOr(""), [], payload.additions);
        Some(StreamingAsrResult(sessionId, result, payload.definite.UnwrapOr(false)))
  }

  /**
   * The cases of the structural reader: `None` for a frame shorter than 12
   * bytes, for fewer than 4 bytes after the declared session id, and for a
   * declared payload length exceeding what remains; otherwise exactly the
   * declared number of bytes from `12 + sidlen + 4`, ignoring trailing bytes.
   */
  lemma AsrPayloadSliceCases(data: seq<byte>, trailing: seq<byte>)
    ensures |data| < 12 ==> AsrPayloadSlice(data).None?
    ensures |data| >= 12 && |data| < PayloadOffset(data) + 4 ==> AsrPayloadSlice(data).None?
    ensures |data| >= 12 && |data| >= PayloadOffset(data) + 4 ==>
      var o := PayloadOffset(data);
      var n := U32FromBe(data[o], data[o + 1], data[o + 2], data[o + 3]);
      AsrPayloadSlice(data) == if |data| < o + 4 + n then None else Some(data[o + 4..o + 4 + n])
    ensures AsrPayloadSlice(data).Some? ==> AsrPayloadSlice(data + trailing) == AsrPayloadSlice(data)
  {
    if AsrPayloadSlice(data).Some? {
      var d := data + trailing;
      assert d[..|data|] == data;
      assert d[8] == data[8] && d[9] == data[9] && d[10] == data[10] && d[11] == data[11];
      var o := PayloadOffset(data);
      assert d[o] == data[o] && d[o + 1] == data[o + 1] && d[o + 2] == data[o + 2] && d[o + 3] == data[o + 3];
      var n := U32FromBe(data[o], data[o + 1], data[o + 2], data[o + 3]);
      assert d[o + 4..o + 4 + n] == data[o + 4..o + 4 + n];
    }
  }

  /**
   * Applied to a built event frame with a session id, the structural reader
   * yields exactly the encoded payload.
   */
  lemma AsrPayloadOfEventFrame(event: i32, sid: seq<byte>, payload: seq<byte>)
    requires |sid| < U32_MODULUS && |payload| < U32_MODULUS
    ensures AsrPayloadSlice(EventFrame(event, Some(sid), payload)) == Some(payload)
  {
    var f := EventFrame(event, Some(sid), payload);
    ClientFrameLayout(Header(STREAMING_MSG_FULL_CLIENT), event, Some(sid), payload);
    U32FieldAt(f, 8, |sid|);
    var o := 12 + |sid|;
    U32FieldAt(f, o, |payload|);
    assert f[o + 4..o + 4 + |payload|] == payload;
  }

  // ---------------------------------------------------------------------------
  // Waiting for an acknowledgement
  // ---------------------------------------------------------------------------

  /**
   * `wait_for_event`: reads items until a binary frame carries `expected`
   * (Ok), a transport error arrives (Err), or the stream ends (EventNotReceived).
   */
  method WaitForEvent(stream: seq<Message>, expected: i32) returns (outcome: Result<(), DoubaoError>, consumed: nat)
    ensures Waited(outcome, consumed) == AwaitEvent(stream, expected)
  {
    var i := 0;
    while i < |stream|
      invariant 0 <= i <= |stream|
      invariant AwaitEvent(stream, expected) == AwaitEvent(stream[i..], expected).After(i)
    {
      var item := stream[i];
      match item {
        case Binary(data) =>
          var event := ParseEvent(data);
          if event.Some? && event.value == expected {
            return Ok(()), i + 1;
          }
        case Failed(e) =>
          return Err(WebSocket(e)), i + 1;
        case _ =>
      }
      AwaitEventSkip(stream, i, expected);
      i := i + 1;
    }
    return Err(EventNotReceived(expected)), i;
  }

  // ---------------------------------------------------------------------------
  // The handshake of StreamingSession::new
  // ---------------------------------------------------------------------------

  /** The caller's handle: the session id (the channels and the task handle are left out). */
  datatype StreamingSession = StreamingSession(sessionId: seq<byte>)

  /** What the handshake returned, the client frames it sent, and the stream items it consumed. */
  datatype Handshake = Handshake(outcome: Result<StreamingSession, DoubaoError>, sent: seq<seq<byte>>, consumed: nat)

  /**
   * The meaning of the handshake: StartConnection (event 1, no session id),
   * wait for ConnectionStarted (50), StartSession (event 100, with the session
   * id and the session payload), wait for SessionStarted (150).
   */
  function HandshakeOf(sessionId: seq<byte>, sessionPayload: seq<byte>, stream: seq<Message>): (h: Handshake)
    ensures h.consumed <= |stream|
  {
    var startConnection := EventFrame(STREAMING_EVENT_START_CONNECTION, None, EMPTY_JSON);
    var w1 := AwaitEvent(stream, STREAMING_EVENT_CONNECTION_STARTED);
    if w1.outcome.Err? then Handshake(Err(w1.outcome.error), [startConnection], w1.consumed)
    else
      var startSession := EventFrame(STREAMING_EVENT_START_SESSION, Some(sessionId), sessionPayload);
      var w2 := AwaitEvent(stream[w1.consumed..], STREAMING_EVENT_SESSION_STARTED);
      var consumed := w1.consumed + w2.consumed;
      if w2.outcome.Err? then Handshake(Err(w2.outcome.error), [startConnection, startSession], consumed)
      else Handshake(Ok(StreamingSession(sessionId)), [startConnection, startSession], consumed)
  }

  /**
   * The handshake part of `StreamingSession::new`. The two uuids are
   * parameters, and `sessionPayload` is the serialized StartSession JSON.
   */
  method StartSession(sessionId: seq<byte>, sessionPayload: seq<byte>, stream: seq<Message>)
    returns (outcome: Result<StreamingSession, DoubaoError>, sent: seq<seq<byte>>, consumed: nat)
    ensures Handshake(outcome, sent, consumed) == HandshakeOf(sessionId, sessionPayload, stream)
  {
    sent := [];
    var startConnection := BuildEventFrame(STREAMING_EVENT_START_CONNECTION, None, EMPTY_JSON);
    sent := sent + [startConnection];
    var r1, k1 := WaitForEvent(stream, STREAMING_EVENT_CONNECTION_STARTED);
    if r1.Err? {
      return Err(r1.error), sent, k1;
    }
    var startSession := BuildEventFrame(STREAMING_EVENT_START_SESSION, Some(sessionId), sessionPayload);
    sent := sent + [startSession];
    var r2, k2 := WaitForEvent(stream[k1..], STREAMING_EVENT_SESSION_STARTED);
    if r2.Err? {
      return Err(r2.error), sent, k1 + k2;
    }
    return Ok(StreamingSession(sessionId)), sent, k1 + k2;
  }

  /**
   * Handshake order: the client sends StartConnection (1) and then, only if
   * ConnectionStarted (50) was observed, StartSession (100) with the session
   * id; the session is returned exactly when SessionStarted (150) follows.
   */
  lemma HandshakeOrder(sessionId: seq<byte>, sessionPayload: seq<byte>, stream: seq<Message>)
    ensures var h := HandshakeOf(sessionId, sessionPayload, stream);
      var w1 := AwaitEvent(stream, 50);
      && (TtsProtocol.FrameEvents(h.sent) == [1] || TtsProtocol.FrameEvents(h.sent) == [1, 100])
      && (TtsProtocol.FrameEvents(h.sent) == [1, 100] <==> w1.outcome.Ok?)
      && |h.sent| >= 1 && h.sent[0] == EventFrame(1, None, EMPTY_JSON)
      && (|h.sent| == 2 ==> w1.consumed >= 1 && Matches(stream[w1.consumed - 1], 50)
                              && h.sent[1] == EventFrame(100, Some(sessionId), sessionPayload))
      && (h.outcome.Ok? <==> w1.outcome.Ok? && AwaitEvent(stream[w1.consumed..], 150).outcome.Ok?)
      && (h.outcome.Ok? ==> h.outcome.value.sessionId == sessionId)
  {
    var startConnection := EventFrame(1, None, EMPTY_JSON);
    var startSession := EventFrame(100, Some(sessionId), sessionPayload);
    TtsProtocol.FrameEventsOfEventFrame(1, None, EMPTY_JSON);
    TtsProtocol.FrameEventsOfEventFrame(100, Some(sessionId), sessionPayload);
    assert [startConnection, startSession] == [startConnection] + [startSession];
    TtsProtocol.FrameEventsAppend([startConnection], [startSession]);
    AwaitEventCharacterised(stream, 50);
    var h := HandshakeOf(sessionId, sessionPayload, stream);
    if AwaitEvent(stream, 50).outcome.Err? {
      assert h.sent == [startConnection];
    } else {
      assert h.sent == [startConnection, startSession];
    }
  }

  // ---------------------------------------------------------------------------
  // The background pump, one select! branch at a time
  // ---------------------------------------------------------------------------

  /**
   * What one iteration of the pump's `select!` delivers: an audio chunk from
   * the input channel (with whether writing its frame succeeded), the input
   * channel's `None`, a stream item, or the end of the read stream.
   */
  datatype PumpEvent =
    | AudioChunk(audio: seq<byte>, writeOk: bool)
    | AudioClosed
    | Received(message: Message)
    | StreamEnded

  /** The effect of one iteration: the new `finished` flag, whether the loop goes on, frames sent, result enqueued. */
  datatype StepOutput = StepOutput(finished: bool, proceed: bool, frames: seq<seq<byte>>, result: Option<StreamingAsrResult>)

  /**
   * One iteration of the pump's loop: it goes on unless the event ends the
   * pump, and sends and enqueues what the per-event description says.
   */
  function Step(sessionId: seq<byte>, decode: seq<byte> -> Option<AsrPayload>, finished: bool, ev: PumpEvent): (o: StepOutput)
    ensures o.proceed == !Terminates(ev)
    ensures o.frames == EmittedBy(sessionId, ev)
    ensures OptionList(o.result) == EnqueuedBy(sessionId, decode, ev)
  {
    match ev
    case AudioChunk(audio, writeOk) =>
      StepOutput(finished, writeOk, [AudioFrame(sessionId, audio)], None)
    case AudioClosed =>
      StepOutput(true, true, [EventFrame(STREAMING_EVENT_FINISH_SESSION, Some(sessionId), EMPTY_JSON)], None)
    case Received(Binary(data)) =>
      var event := ParseEvent(data);
      if event == Some(STREAMING_EVENT_ASR_RESULT) then
        StepOutput(finished, true, [], ParseAsrResult(data, sessionId, decode))
      else if event == Some(STREAMING_EVENT_SESSION_FINISHED) then
        StepOutput(finished, false, [EventFrame(STREAMING_EVENT_FINISH_CONNECTION, None, EMPTY_JSON)], None)
      else StepOutput(finished, true, [], None)
    case Received(Close) =>
      StepOutput(finished, false, [], None)
    case Received(_) =>
      StepOutput(finished, true, [], None)
    case StreamEnded =>
      StepOutput(finished, false, [], None)
  }

  /** The frames sent, the results enqueued and the events consumed by a run of the pump. */
  datatype PumpRun = PumpRun(frames: seq<seq<byte>>, results: seq<StreamingAsrResult>, consumed: nat)

  function OptionList<T>(o: Option<T>): seq<T> {
    if o.Some? then [o.value] else []
  }

  /** Prefixes one iteration's effect to the rest of a run. */
  function Then(o: StepOutput, rest: PumpRun): PumpRun {
    PumpRun(o.frames + rest.frames, OptionList(o.result) + rest.results, 1 + rest.consumed)
  }

  /** The pump's loop as a fold of `Step` over the events, stopping at the first break. */
  function RunPump(sessionId: seq<byte>, decode: seq<byte> -> Option<AsrPayload>, finished: bool, events: seq<PumpEvent>): (r: PumpRun)
    ensures r.consumed <= |events|
    decreases |events|
  {
    if events == [] then PumpRun([], [], 0)
    else
      var o := Step(sessionId, decode, finished, events[0]);
      Then(o, if o.proceed then RunPump(sessionId, decode, o.finished, events[1..]) else PumpRun([], [], 0))
  }

  /**
   * The pump's loop invariant: what has been sent and enqueued after
   * `consumed` events, followed by the rest of the run, is the whole run.
   */
  predicate PumpProgress(sessionId: seq<byte>, decode: seq<byte> -> Option<AsrPayload>, events: seq<PumpEvent>,
                         finished: bool, consumed: nat, frames: seq<seq<byte>>, results: seq<StreamingAsrResult>)
    requires consumed <= |events|
  {
    var rest := RunPump(sessionId, decode, finished, events[consumed..]);
    RunPump(sessionId, decode, false, events) == PumpRun(frames + rest.frames, results + rest.results, consumed + rest.consumed)
  }

  /** One step of the pump keeps `PumpProgress`, or, when the loop breaks, completes the run. */
  lemma PumpAdvance(sessionId: seq<byte>, decode: seq<byte> -> Option<AsrPayload>, events: seq<PumpEvent>,
                    finished: bool, consumed: nat, frames: seq<seq<byte>>, results: seq<StreamingAsrResult>)
    requires consumed < |events|
    requires PumpProgress(sessionId, decode, events, finished, consumed, frames, results)
    ensures var o := Step(sessionId, decode, finished, events[consumed]);
      && (o.proceed ==> PumpProgress(sessionId, decode, events, o.finished, consumed + 1, frames + o.frames, results + OptionList(o.result)))
      && (!o.proceed ==> RunPump(sessionId, decode, false, events) == PumpRun(frames + o.frames, results + OptionList(o.result), consumed + 1))
  {
    var o := Step(sessionId, decode, finished, events[consumed]);
    assert events[consumed..][0] == events[consumed];
    assert events[consumed..][1..] == events[consumed + 1..];
    var after := if o.proceed then RunPump(sessionId, decode, o.finished, events[consumed + 1..]) else PumpRun([], [], 0);
    assert RunPump(sessionId, decode, finished, events[consumed..]) == Then(o, after);
    ThenAppend(frames, results, consumed, o, after);
  }

  /** Appending one iteration's effect to what happened so far. */
  lemma ThenAppend(frames: seq<seq<byte>>, results: seq<StreamingAsrResult>, consumed: nat, o: StepOutput, after: PumpRun)
    ensures var t := Then(o, after);
      PumpRun(frames + t.frames, results + t.results, consumed + t.consumed)
        == PumpRun((frames + o.frames) + after.frames, (results + OptionList(o.result)) + after.results, (consumed + 1) + after.consumed)
    ensures after == PumpRun([], [], 0) ==> (frames + o.frames) + after.frames == frames + o.frames
                                            && (results + OptionList(o.result)) + after.results == results + OptionList(o.result)
  {
    assert frames + (o.frames + after.frames) == (frames + o.frames) + after.frames;
    assert results + (OptionList(o.result) + after.results) == (results + OptionList(o.result)) + after.results;
  }

  /** One iteration of the spawned task's loop: the frames it writes and the result it enqueues. */
  method PumpStep(sessionId: seq<byte>, decode: seq<byte> -> Option<AsrPayload>, finished: bool, ev: PumpEvent)
    returns (finished': bool, proceed: bool, sent: seq<seq<byte>>, result: Option<StreamingAsrResult>)
    ensures StepOutput(finished', proceed, sent, result) == Step(sessionId, decode, finished, ev)
  {
    finished', proceed, sent, result := finished, true, [], None;
    match ev {
      case AudioChunk(audio, writeOk) =>
        var frame := BuildAudioFrame(sessionId, audio);
        sent := [frame];
        if !writeOk {
          proceed := false;
        }
      case AudioClosed =>
        var frame := BuildEventFrame(STREAMING_EVENT_FINISH_SESSION, Some(sessionId), EMPTY_JSON);
        sent := [frame];
        finished' := true;
      case Received(msg) =>
        match msg {
          case Binary(data) =>
            var event := ParseEvent(data);
            if event == Some(STREAMING_EVENT_ASR_RESULT) {
              result := ParseAsrResult(data, sessionId, decode);
            } else if event == Some(STREAMING_EVENT_SESSION_FINISHED) {
              var frame := BuildEventFrame(STREAMING_EVENT_FINISH_CONNECTION, None, EMPTY_JSON);
              sent := [frame];
              proceed := false;
            }
          case Close =>
            proceed := false;
          case _ =>
        }
      case StreamEnded =>
        proceed := false;
    }
  }

  /**
   * The spawned task's loop, fed the events its `select!` picks, starting
   * with `finished = false`.
   */
  method Pump(sessionId: seq<byte>, decode: seq<byte> -> Option<AsrPayload>, events: seq<PumpEvent>)
    returns (frames: seq<seq<byte>>, results: seq<StreamingAsrResult>, consumed: nat)
    ensures PumpRun(frames, results, consumed) == RunPump(sessionId, decode, false, events)
  {
    var finished := false;
    frames, results, consumed := [], [], 0;
    assert events[0..] == events;
    while consumed < |events|
      invariant consumed <= |events|
      invariant PumpProgress(sessionId, decode, events, finished, consumed, frames, results)
    {
      PumpAdvance(sessionId, decode, events, finished, consumed, frames, results);
      var proceed, sent, result;
      finished, proceed, sent, result := PumpStep(sessionId, decode, finished, events[consumed]);
      frames := frames + sent;
      results := results + OptionList(result);
      consumed := consumed + 1;
      if !proceed {
        return;
      }
    }
  }

  // ---------------------------------------------------------------------------
  // What the pump does, event by event
  // ---------------------------------------------------------------------------

  /**
   * The events that end the pump: a failed audio write, SessionFinished
   * (152), a Close frame, and the end of the read stream. An AudioClosed and
   * a transport error do not.
   */
  predicate Terminates(ev: PumpEvent) {
    match ev
    case AudioChunk(_, writeOk) => !writeOk
    case AudioClosed => false
    case Received(Binary(data)) => ParseEvent(data) == Some(STREAMING_EVENT_SESSION_FINISHED)
    case Received(Close) => true
    case Received(_) => false
    case StreamEnded => true
  }

  /**
   * The frames one event makes the pump write: an audio frame per chunk,
   * FinishSession (102) per AudioClosed, FinishConnection (2) on
   * SessionFinished.
   */
  function EmittedBy(sessionId: seq<byte>, ev: PumpEvent): seq<seq<byte>> {
    match ev
    case AudioChunk(audio, _) => [AudioFrame(sessionId, audio)]
    case AudioClosed => [EventFrame(102, Some(sessionId), EMPTY_JSON)]
    case Received(Binary(data)) =>
      if ParseEvent(data) == Some(152) then [EventFrame(2, None, EMPTY_JSON)] else []
    case _ => []
  }

  /** The results one event enqueues: the parsed result of an AsrResponse (350) frame, when it parses. */
  function EnqueuedBy(sessionId: seq<byte>, decode: seq<byte> -> Option<AsrPayload>, ev: PumpEvent): seq<StreamingAsrResult> {
    if ev.Received? && ev.message.Binary? && ParseEvent(ev.message.data) == Some(350)
    then OptionList(ParseAsrResult(ev.message.data, sessionId, decode))
    else []
  }

  function FlatFrames(sessionId: seq<byte>, events: seq<PumpEvent>): seq<seq<byte>> {
    if events == [] then [] else EmittedBy(sessionId, events[0]) + FlatFrames(sessionId, events[1..])
  }

  function FlatResults(sessionId: seq<byte>, decode: seq<byte> -> Option<AsrPayload>, events: seq<PumpEvent>): seq<StreamingAsrResult> {
    if events == [] then [] else EnqueuedBy(sessionId, decode, events[0]) + FlatResults(sessionId, decode, events[1..])
  }

  /** One unfolding of `RunPump` at the head of the events. */
  lemma RunPumpHead(sessionId: seq<byte>, decode: seq<byte> -> Option<AsrPayload>, finished: bool, events: seq<PumpEvent>)
    requires events != []
    ensures var o := Step(sessionId, decode, finished, events[0]);
      && o.proceed == !Terminates(events[0])
      && o.frames == EmittedBy(sessionId, events[0])
      && OptionList(o.result) == EnqueuedBy(sessionId, decode, events[0])
      && RunPump(sessionId, decode, finished, events)
           == Then(o, if o.proceed then RunPump(sessionId, decode, o.finished, events[1..]) else PumpRun([], [], 0))
  {
  }

  /** The flattened frames and results of a non-empty prefix, split at its head. */
  lemma FlatCons(sessionId: seq<byte>, decode: seq<byte> -> Option<AsrPayload>, events: seq<PumpEvent>, k: nat)
    requires 1 <= k <= |events|
    ensures FlatFrames(sessionId, events[..k]) == EmittedBy(sessionId, events[0]) + FlatFrames(sessionId, events[1..][..k - 1])
    ensures FlatResults(sessionId, decode, events[..k]) == EnqueuedBy(sessionId, decode, events[0]) + FlatResults(sessionId, decode, events[1..][..k - 1])
  {
    assert events[..k][0] == events[0];
    assert events[..k][1..] == events[1..][..k - 1];
  }

  /**
   * The pump runs up to and including the first terminating event (or the
   * last event), whatever the `finished` flag.
   */
  lemma {:induction false} PumpStops(sessionId: seq<byte>, decode: seq<byte> -> Option<AsrPayload>, finished: bool, events: seq<PumpEvent>)
    ensures var r := RunPump(sessionId, decode, finished, events);
      && (events != [] ==> r.consumed >= 1)
      && (forall j :: 0 <= j < r.consumed - 1 ==> !Terminates(events[j]))
      && (r.consumed == |events| || Terminates(events[r.consumed - 1]))
    decreases |events|
  {
    if events != [] {
      RunPumpHead(sessionId, decode, finished, events);
      var o := Step(sessionId, decode, finished, events[0]);
      if o.proceed {
        PumpStops(sessionId, decode, o.finished, events[1..]);
        var rest := RunPump(sessionId, decode, o.finished, events[1..]);
        forall j | 1 <= j < |events|
          ensures events[j] == events[1..][j - 1]
        {
        }
      }
    }
  }

  /** The pump writes the frames and enqueues the results of exactly the events it consumed, in order. */
  lemma {:induction false} PumpOutputs(sessionId: seq<byte>, decode: seq<byte> -> Option<AsrPayload>, finished: bool, events: seq<PumpEvent>)
    ensures var r := RunPump(sessionId, decode, finished, events);
      && r.frames == FlatFrames(sessionId, events[..r.consumed])
      && r.results == FlatResults(sessionId, decode, events[..r.consumed])
    decreases |events|
  {
    if events != [] {
      RunPumpHead(sessionId, decode, finished, events);
      var o := Step(sessionId, decode, finished, events[0]);
      var rest := if o.proceed then RunPump(sessionId, decode, o.finished, events[1..]) else PumpRun([], [], 0);
      if o.proceed {
        PumpOutputs(sessionId, decode, o.finished, events[1..]);
      }
      FlatCons(sessionId, decode, events, 1 + rest.consumed);
    } else {
      assert events[..0] == [];
    }
  }

  /**
   * Every AudioClosed writes FinishSession again: two `None`s from the audio
   * channel before the stream ends send it twice.
   */
  lemma FinishSessionResent(sessionId: seq<byte>, decode: seq<byte> -> Option<AsrPayload>)
    ensures var finish := EventFrame(STREAMING_EVENT_FINISH_SESSION, Some(sessionId), EMPTY_JSON);
      RunPump(sessionId, decode, false, [AudioClosed, AudioClosed, StreamEnded]).frames == [finish, finish]
  {
    var evs := [AudioClosed, AudioClosed, StreamEnded];
    assert evs[1..] == [AudioClosed, StreamEnded];
    assert evs[1..][1..] == [StreamEnded];
    assert evs[1..][1..][1..] == [];
  }

  /** A transport error from the read stream is dropped and the pump goes on. */
  lemma TransportErrorIgnored(sessionId: seq<byte>, decode: seq<byte> -> Option<AsrPayload>, finished: bool, e: WsError, rest: seq<PumpEvent>)
    ensures var r := RunPump(sessionId, decode, finished, [Received(Failed(e))] + rest);
      var after := RunPump(sessionId, decode, finished, rest);
      r == PumpRun(after.frames, after.results, 1 + after.consumed)
  {
    assert ([Received(Failed(e))] + rest)[1..] == rest;
  }
}
