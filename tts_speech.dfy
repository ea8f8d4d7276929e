/**
 * One speech synthesis over the bidirectional WebSocket
 * (crates/doubao/src/tts/speech.rs): the wait for an acknowledgement, the
 * loop that collects audio, and the frame sequence of `Speech::create`.
 */
module TtsSpeech {
  import opened Wrappers
  import opened Wire
  import opened Transport
  import opened TtsSpec
  import opened TtsProtocol

  /**
   * `wait_for_event` (this file's copy): reads items until a binary frame
   * carries `expected` (Ok), a transport error arrives (Err), or the stream
   * ends (EventNotReceived).
   */
  method WaitForEvent(stream: seq<Message>, expected: i32) returns (outcome: Result<(), DoubaoError>, consumed: nat)
    ensures Waited(outcome, consumed) == AwaitEvent(stream, expected)
  {
    consumed := 0;
    while consumed < |stream|
      invariant 0 <= consumed <= |stream|
      invariant AwaitEvent(stream, expected) == AwaitEvent(stream[consumed..], expected).After(consumed)
    {
      match stream[consumed] {
        case Binary(data) =>
          var event := ParseEvent(data);
          if event == Some(expected) {
            return Ok(()), consumed + 1;
          }
        case Failed(e) =>
          return Err(WebSocket(e)), consumed + 1;
        case _ =>
      }
      AwaitEventSkip(stream, consumed, expected);
      consumed := consumed + 1;
    }
    outcome := Err(EventNotReceived(expected));
  }

  // ---------------------------------------------------------------------------
  // Receiving audio
  // ---------------------------------------------------------------------------

  /** How the receive loop ended, with the audio it collected, and the items it consumed. */
  datatype LoopExit =
    | Finished(audio: seq<byte>, consumed: nat)
    | Aborted(error: DoubaoError, consumed: nat)
  {
    /** The same exit, after `chunk` was collected from `n` more items in front. */
    function Resume(chunk: seq<byte>, n: nat): LoopExit {
      match this
      case Finished(audio, c) => Finished(chunk + audio, n + c)
      case Aborted(e, c) => Aborted(e, n + c)
    }
  }

  /** The three events whose frames carry audio. */
  predicate IsAudioEvent(e: i32) {
    e == EVENT_TTS_RESPONSE || e == EVENT_TTS_SENTENCE_START || e == EVENT_TTS_SENTENCE_END
  }

  /** The meaning of the receive loop of `create` on the rest of the stream. */
  function ReceiveAudio(stream: seq<Message>): (r: LoopExit)
    ensures r.consumed <= |stream|
    decreases |stream|
  {
    if stream == [] then Finished([], 0)
    else
      match stream[0]
      case Binary(data) =>
        if |data| < 4 then ReceiveAudio(stream[1..]).Resume([], 1)
        else
          (match ParseEvent(data)
           case None => Aborted(Protocol("invalid frame"), 1)
           case Some(event) =>
             if IsAudioEvent(event) then ReceiveAudio(stream[1..]).Resume(ExtractAudioFromFrame(data).UnwrapOr([]), 1)
             else if event == EVENT_SESSION_FINISHED then Finished([], 1)
             else ReceiveAudio(stream[1..]).Resume([], 1))
      case Text(_) => ReceiveAudio(stream[1..]).Resume([], 1)
      case Close => Finished([], 1)
      case Ping(_) => Finished([], 1)
      case Pong(_) => Finished([], 1)
      case RawFrame => ReceiveAudio(stream[1..]).Resume([], 1)
      case Failed(e) => Aborted(WebSocket(e), 1)
  }

  /** Resuming twice is resuming once with the chunks joined: the invariant step of the receive loop. */
  lemma ResumeTwice(r: LoopExit, chunk: seq<byte>, collected: seq<byte>, i: nat)
    ensures r.Resume(chunk, 1).Resume(collected, i) == r.Resume(collected + chunk, i + 1)
  {
    if r.Finished? {
      assert collected + (chunk + r.audio) == (collected + chunk) + r.audio;
    }
  }

  /** The receive loop of `create`: collects audio until the session finishes, the peer stops, or an error. */
  method ReceiveLoop(stream: seq<Message>) returns (exit: LoopExit)
    ensures exit == ReceiveAudio(stream)
  {
    var audioData: seq<byte> := [];
    var i := 0;
    assert stream[0..] == stream;
    assert ReceiveAudio(stream[0..]).Resume([], 0) == ReceiveAudio(stream);
    while i < |stream|
      invariant 0 <= i <= |stream|
      invariant ReceiveAudio(stream) == ReceiveAudio(stream[i..]).Resume(audioData, i)
    {
      assert stream[i..][0] == stream[i] && stream[i..][1..] == stream[i + 1..];
      ReceiveAudioHead(stream[i..]);
      assert audioData + [] == audioData;
      var chunk: seq<byte> := [];
      match stream[i] {
        case Binary(data) =>
          if |data| >= 4 {
            var event := ParseEvent(data);
            if event.None? {
              return Aborted(Protocol("invalid frame"), i + 1);
            }
            if IsAudioEvent(event.value) {
              var audio := ExtractAudioFromFrame(data);
              if audio.Some? {
                chunk := audio.value;
              }
            } else if event.value == EVENT_SESSION_FINISHED {
              return Finished(audioData, i + 1);
            }
          }
        case Text(_) =>
        case Close =>
          return Finished(audioData, i + 1);
        case Ping(_) =>
          return Finished(audioData, i + 1);
        case Pong(_) =>
          return Finished(audioData, i + 1);
        case RawFrame =>
        case Failed(e) =>
          return Aborted(WebSocket(e), i + 1);
      }
      ResumeTwice(ReceiveAudio(stream[i + 1..]), chunk, audioData, i);
      audioData := audioData + chunk;
      i := i + 1;
    }
    assert stream[i..] == [];
    return Finished(audioData, i);
  }

  // ---------------------------------------------------------------------------
  // What the receive loop does, item by item
  // ---------------------------------------------------------------------------

  /** Items that end the loop normally: SessionFinished (152), Close, Ping, Pong. */
  predicate Stops(m: Message) {
    || m.Close? || m.Ping? || m.Pong?
    || (m.Binary? && |m.data| >= 4 && ParseEvent(m.data) == Some(EVENT_SESSION_FINISHED))
  }

  /** Items that end the loop with an error: a transport error, or a binary frame of 4 to 7 bytes. */
  predicate Aborts(m: Message) {
    m.Failed? || (m.Binary? && 4 <= |m.data| < 8)
  }

  /** The audio one item contributes: the extracted audio of an audio event's frame, nothing otherwise. */
  function ChunkOf(m: Message): seq<byte> {
    if m.Binary? && |m.data| >= 4 && ParseEvent(m.data).Some? && IsAudioEvent(ParseEvent(m.data).value)
    then ExtractAudioFromFrame(m.data).UnwrapOr([])
    else []
  }

  function Chunks(stream: seq<Message>): seq<byte> {
    if stream == [] then [] else ChunkOf(stream[0]) + Chunks(stream[1..])
  }

  /** One unfolding of `ReceiveAudio` at the head of the stream, in terms of the item's class. */
  lemma ReceiveAudioHead(stream: seq<Message>)
    requires stream != []
    ensures var m := stream[0];
      && (!Stops(m) && !Aborts(m) ==> ReceiveAudio(stream) == ReceiveAudio(stream[1..]).Resume(ChunkOf(m), 1))
      && (Stops(m) && !Aborts(m) ==> ReceiveAudio(stream) == Finished([], 1) && ChunkOf(m) == [])
      && (Aborts(m) ==> ReceiveAudio(stream) == Aborted(if m.Failed? then WebSocket(m.error) else Protocol("invalid frame"), 1))
  {
  }

  /**
   * The receive loop stops at the first item that stops or aborts it (or at
   * the end of the stream), and it fails exactly when that item aborts it:
   * a transport error gives `WebSocket`, a binary frame of 4 to 7 bytes
   * gives `Protocol("invalid frame")`. Text, raw frames, frames under
   * 4 bytes and unknown events are read past.
   */
  lemma {:induction false} ReceiveAudioStops(stream: seq<Message>)
    ensures var r := ReceiveAudio(stream);
      && (stream != [] ==> r.consumed >= 1)
      && (forall j :: 0 <= j < r.consumed - 1 ==> !Stops(stream[j]) && !Aborts(stream[j]))
      && (r.consumed == |stream| || Stops(stream[r.consumed - 1]) || Aborts(stream[r.consumed - 1]))
      && (r.Aborted? <==> r.consumed >= 1 && Aborts(stream[r.consumed - 1]))
      && (r.Aborted? ==> r.error == if stream[r.consumed - 1].Failed? then WebSocket(stream[r.consumed - 1].error)
                                    else Protocol("invalid frame"))
    decreases |stream|
  {
    if stream != [] {
      ReceiveAudioHead(stream);
      var m := stream[0];
      if !Stops(m) && !Aborts(m) {
        ReceiveAudioStops(stream[1..]);
        forall j | 1 <= j < |stream|
          ensures stream[j] == stream[1..][j - 1]
        {
        }
      }
    }
  }

  /** When the receive loop finishes, its audio is the in-order concatenation of the chunks of the items it consumed. */
  lemma {:induction false} ReceiveAudioCollects(stream: seq<Message>)
    ensures var r := ReceiveAudio(stream);
      r.Finished? ==> r.audio == Chunks(stream[..r.consumed])
    decreases |stream|
  {
    if stream != [] {
      ReceiveAudioHead(stream);
      var m := stream[0];
      var r := ReceiveAudio(stream);
      if r.Finished? {
        assert stream[..r.consumed][0] == m;
        if !Stops(m) && !Aborts(m) {
          ReceiveAudioCollects(stream[1..]);
          var rest := ReceiveAudio(stream[1..]);
          assert stream[..r.consumed][1..] == stream[1..][..rest.consumed];
        } else {
          assert stream[..1][1..] == [];
        }
      }
    } else {
      assert stream[..0] == [];
    }
  }

  // ---------------------------------------------------------------------------
  // Speech::create
  // ---------------------------------------------------------------------------

  /** How the opening exchange of `create` ended, the client frames it sent, and the stream items it consumed. */
  datatype Opened = Opened(outcome: Result<(), DoubaoError>, sent: seq<seq<byte>>, consumed: nat)

  /**
   * The opening exchange of `create`: StartConnection (1), wait for
   * ConnectionStarted (50), StartSession (100) with the session id and
   * `sessionPayload`, wait for SessionStarted (150), then a frame with event
   * 152 and an empty payload.
   */
  function OpenSession(sessionId: seq<byte>, sessionPayload: seq<byte>, stream: seq<Message>): (h: Opened)
    ensures h.consumed <= |stream|
  {
    var startConnection := EventFrame(EVENT_START_CONNECTION, None, EMPTY_JSON);
    var w1 := AwaitEvent(stream, EVENT_CONNECTION_STARTED);
    if w1.outcome.Err? then Opened(w1.outcome, [startConnection], w1.consumed)
    else
      var startSession := EventFrame(EVENT_START_SESSION, Some(sessionId), sessionPayload);
      var w2 := AwaitEvent(stream[w1.consumed..], EVENT_SESSION_STARTED);
      var k := w1.consumed + w2.consumed;
      if w2.outcome.Err? then Opened(w2.outcome, [startConnection, startSession], k)
      else Opened(Ok(()), [startConnection, startSession, EventFrame(EVENT_SESSION_FINISHED, Some(sessionId), EMPTY_JSON)], k)
  }

  /** The two closing frames: FinishSession (102), then FinishConnection (2). */
  function FinishFrames(sessionId: seq<byte>): (r: seq<seq<byte>>)
    ensures FrameEvents(r) == [EVENT_FINISH_SESSION, EVENT_FINISH_CONNECTION]
  {
    var f102 := EventFrame(EVENT_FINISH_SESSION, Some(sessionId), EMPTY_JSON);
    var f2 := EventFrame(EVENT_FINISH_CONNECTION, None, EMPTY_JSON);
    ParseEventOfEventFrame(EVENT_FINISH_SESSION, Some(sessionId), EMPTY_JSON);
    ParseEventOfEventFrame(EVENT_FINISH_CONNECTION, None, EMPTY_JSON);
    FrameEventsOfParsed([f102, f2], [EVENT_FINISH_SESSION, EVENT_FINISH_CONNECTION]);
    [f102, f2]
  }

  /** What `create` returned, the client frames it sent, and the stream items it consumed. */
  datatype Synthesis = Synthesis(response: Result<CreateSpeechResponse, DoubaoError>, sent: seq<seq<byte>>, consumed: nat)

  /**
   * The meaning of `create`: the opening exchange, the receive loop, then
   * the finish frames, whose send failures are ignored; the response carries
   * the audio and the defaulted format and sample rate.
   */
  function CreateOf(request: CreateSpeechRequest, sessionId: seq<byte>, sessionPayload: seq<byte>, stream: seq<Message>): (s: Synthesis)
    ensures s.consumed <= |stream|
  {
    var h := OpenSession(sessionId, sessionPayload, stream);
    if h.outcome.Err? then Synthesis(Err(h.outcome.error), h.sent, h.consumed)
    else
      match ReceiveAudio(stream[h.consumed..])
      case Aborted(e, c) => Synthesis(Err(e), h.sent, h.consumed + c)
      case Finished(audio, c) =>
        var response := CreateSpeechResponse.New(audio, request.format.UnwrapOr(DefaultAudioFormat()), request.sampleRate.UnwrapOr(24000));
        Synthesis(Ok(response), h.sent + FinishFrames(sessionId), h.consumed + c)
  }

  /** The opening exchange of `create`, sending frames and waiting as it goes. */
  method StartSession(sessionId: seq<byte>, sessionPayload: seq<byte>, stream: seq<Message>)
    returns (outcome: Result<(), DoubaoError>, sent: seq<seq<byte>>, consumed: nat)
    ensures Opened(outcome, sent, consumed) == OpenSession(sessionId, sessionPayload, stream)
  {
    sent := [];
    var startConnection := BuildEventFrame(EVENT_START_CONNECTION, None, EMPTY_JSON);
    sent := sent + [startConnection];
    var r1, k1 := WaitForEvent(stream, EVENT_CONNECTION_STARTED);
    if r1.Err? {
      return r1, sent, k1;
    }
    var startSession := BuildEventFrame(EVENT_START_SESSION, Some(sessionId), sessionPayload);
    sent := sent + [startSession];
    var r2, k2 := WaitForEvent(stream[k1..], EVENT_SESSION_STARTED);
    if r2.Err? {
      return r2, sent, k1 + k2;
    }
    var endSession := BuildEventFrame(EVENT_SESSION_FINISHED, Some(sessionId), EMPTY_JSON);
    sent := sent + [endSession];
    return Ok(()), sent, k1 + k2;
  }

  /**
   * `Speech::create` after the connection is open. The session id is a
   * parameter, and `sessionPayload` is the serialized StartSession JSON.
   */
  method Create(request: CreateSpeechRequest, sessionId: seq<byte>, sessionPayload: seq<byte>, stream: seq<Message>)
    returns (response: Result<CreateSpeechResponse, DoubaoError>, sent: seq<seq<byte>>, consumed: nat)
    ensures Synthesis(response, sent, consumed) == CreateOf(request, sessionId, sessionPayload, stream)
  {
    var format := request.format.UnwrapOr(DefaultAudioFormat());
    var sampleRate := request.sampleRate.UnwrapOr(24000);
    var opening;
    opening, sent, consumed := StartSession(sessionId, sessionPayload, stream);
    if opening.Err? {
      return Err(opening.error), sent, consumed;
    }
    var exit := ReceiveLoop(stream[consumed..]);
    if exit.Aborted? {
      return Err(exit.error), sent, consumed + exit.consumed;
    }
    var finishSession := BuildEventFrame(EVENT_FINISH_SESSION, Some(sessionId), EMPTY_JSON);
    var finishConnection := BuildEventFrame(EVENT_FINISH_CONNECTION, None, EMPTY_JSON);
    sent := sent + [finishSession, finishConnection];
    response := Ok(CreateSpeechResponse.New(exit.audio, format, sampleRate));
    consumed := consumed + exit.consumed;
  }

  /** The events of the frames `create` can send. */
  lemma SentEvents(sessionId: seq<byte>, sessionPayload: seq<byte>)
    ensures var f1 := EventFrame(1, None, EMPTY_JSON);
      var f100 := EventFrame(100, Some(sessionId), sessionPayload);
      var f152 := EventFrame(152, Some(sessionId), EMPTY_JSON);
      && FrameEvents([f1]) == [1]
      && FrameEvents([f1, f100]) == [1, 100]
      && FrameEvents([f1, f100, f152]) == [1, 100, 152]
      && FrameEvents([f1, f100, f152] + FinishFrames(sessionId)) == [1, 100, 152, 102, 2]
  {
    var f1 := EventFrame(1, None, EMPTY_JSON);
    var f100 := EventFrame(100, Some(sessionId), sessionPayload);
    var f152 := EventFrame(152, Some(sessionId), EMPTY_JSON);
    ParseEventOfEventFrame(1, None, EMPTY_JSON);
    ParseEventOfEventFrame(100, Some(sessionId), sessionPayload);
    ParseEventOfEventFrame(152, Some(sessionId), EMPTY_JSON);
    FrameEventsOfParsed([f1], [1]);
    FrameEventsOfParsed([f1, f100], [1, 100]);
    FrameEventsOfParsed([f1, f100, f152], [1, 100, 152]);
    FrameEventsAppend([f1, f100, f152], FinishFrames(sessionId));
  }

  /**
   * The opening exchange sends StartConnection, then StartSession only after
   * ConnectionStarted, then the 152 frame only after SessionStarted; it
   * succeeds exactly when both acknowledgements arrive.
   */
  lemma OpenSessionCharacterised(sessionId: seq<byte>, sessionPayload: seq<byte>, stream: seq<Message>)
    ensures var h := OpenSession(sessionId, sessionPayload, stream);
      var w1 := AwaitEvent(stream, EVENT_CONNECTION_STARTED);
      var w2 := AwaitEvent(stream[w1.consumed..], EVENT_SESSION_STARTED);
      var f1 := EventFrame(1, None, EMPTY_JSON);
      var f100 := EventFrame(100, Some(sessionId), sessionPayload);
      var f152 := EventFrame(152, Some(sessionId), EMPTY_JSON);
      && (h.outcome.Ok? <==> w1.outcome.Ok? && w2.outcome.Ok?)
      && (h.outcome.Ok? ==> h.sent == [f1, f100, f152] && h.consumed == w1.consumed + w2.consumed)
      && (h.outcome.Err? ==> h.sent == [f1] || h.sent == [f1, f100])
      && (|h.sent| >= 2 ==> w1.consumed >= 1 && Matches(stream[w1.consumed - 1], EVENT_CONNECTION_STARTED))
  {
    AwaitEventCharacterised(stream, EVENT_CONNECTION_STARTED);
  }

  /**
   * `create` succeeds exactly when both acknowledgements arrive and the
   * receive loop does not abort. It then has sent StartConnection,
   * StartSession, the 152 frame, FinishSession and FinishConnection, and the
   * response carries the collected audio, the requested format (Mp3 by
   * default) and sample rate (24000 by default). On failure it has sent a
   * prefix of the first three frames and no finish frames.
   */
  lemma CreateCharacterised(request: CreateSpeechRequest, sessionId: seq<byte>, sessionPayload: seq<byte>, stream: seq<Message>)
    ensures var s := CreateOf(request, sessionId, sessionPayload, stream);
      var w1 := AwaitEvent(stream, EVENT_CONNECTION_STARTED);
      var w2 := AwaitEvent(stream[w1.consumed..], EVENT_SESSION_STARTED);
      var f1 := EventFrame(1, None, EMPTY_JSON);
      var f100 := EventFrame(100, Some(sessionId), sessionPayload);
      var f152 := EventFrame(152, Some(sessionId), EMPTY_JSON);
      && (s.response.Ok? <==> w1.outcome.Ok? && w2.outcome.Ok?
                              && ReceiveAudio(stream[w1.consumed + w2.consumed..]).Finished?)
      && (s.response.Ok? ==> s.sent == [f1, f100, f152] + FinishFrames(sessionId))
      && (s.response.Err? ==> s.sent == [f1] || s.sent == [f1, f100] || s.sent == [f1, f100, f152])
      && (s.response.Ok? ==>
            var loop := ReceiveAudio(stream[w1.consumed + w2.consumed..]);
            && loop.Finished?
            && s.response.value.bytes == loop.audio
            && s.response.value.format == request.format.UnwrapOr(Mp3)
            && s.response.value.sampleRate == request.sampleRate.UnwrapOr(24000))
  {
    OpenSessionCharacterised(sessionId, sessionPayload, stream);
  }

  /**
   * The events `create` sends: on success exactly 1, 100, 152, 102, 2; on
   * failure 1, or 1 and 100, or 1, 100 and 152. TaskRequest (200) is never
   * sent, so the text never leaves the client.
   */
  lemma CreateSendsEvents(request: CreateSpeechRequest, sessionId: seq<byte>, sessionPayload: seq<byte>, stream: seq<Message>)
    ensures var s := CreateOf(request, sessionId, sessionPayload, stream);
      var events := FrameEvents(s.sent);
      && (s.response.Ok? ==> events == [1, 100, 152, 102, 2])
      && (s.response.Err? ==> events == [1] || events == [1, 100] || events == [1, 100, 152])
      && EVENT_TASK_REQUEST !in events
  {
    var s := CreateOf(request, sessionId, sessionPayload, stream);
    var f1 := EventFrame(1, None, EMPTY_JSON);
    var f100 := EventFrame(100, Some(sessionId), sessionPayload);
    var f152 := EventFrame(152, Some(sessionId), EMPTY_JSON);
    CreateCharacterised(request, sessionId, sessionPayload, stream);
    SentEvents(sessionId, sessionPayload);
    var sent := s.sent;
    if s.response.Ok? {
      assert sent == [f1, f100, f152] + FinishFrames(sessionId);
      assert FrameEvents(sent) == [1, 100, 152, 102, 2];
    } else if sent == [f1] {
      assert FrameEvents(sent) == [1];
    } else if sent == [f1, f100] {
      assert FrameEvents(sent) == [1, 100];
    } else {
      assert sent == [f1, f100, f152];
      assert FrameEvents(sent) == [1, 100, 152];
    }
  }
}
