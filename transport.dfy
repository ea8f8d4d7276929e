/**
 * The WebSocket as the session code sees it: the read half is a sequence
 * of stream items, each a message or a transport error, and the end of the
 * sequence is the end of the stream (`read.next()` returning `None`). Also
 * the error type of the Doubao crate and the meaning of `wait_for_event`
 * (crates/doubao/src/asr/streaming.rs and crates/doubao/src/tts/speech.rs
 * carry two copies of it).
 */
module Transport {
  import opened Wrappers
  import opened Wire
  import TtsProtocol

  /** An error of the WebSocket library, kept opaque. */
  datatype WsError = WsError(reason: string)

  /**
   * One item of the read stream: `Ok(Message::…)` for the six message kinds,
   * or `Err(e)` from the transport.
   */
  datatype Message =
    | Binary(data: seq<byte>)
    | Text(text: string)
    | Ping(ping: seq<byte>)
    | Pong(pong: seq<byte>)
    | Close
    | RawFrame
    | Failed(error: WsError)

  /** The variants of `DoubaoError` the streaming code can produce. */
  datatype DoubaoError =
    | WebSocket(ws: WsError)
    | Protocol(message: string)
    | EventNotReceived(expected: i32)

  /** What `wait_for_event` returned, and how many stream items it consumed. */
  datatype Waited = Waited(outcome: Result<(), DoubaoError>, consumed: nat) {
    /** The same outcome, after `n` more items consumed in front. */
    function After(n: nat): Waited {
      Waited(outcome, consumed + n)
    }
  }

  /** A binary message whose event is `expected`: the item that ends the wait successfully. */
  predicate Matches(m: Message, expected: i32) {
    m.Binary? && TtsProtocol.ParseEvent(m.data) == Some(expected)
  }

  /**
   * An item `wait_for_event` reads past: any message that is not a matching
   * binary frame (text, ping, pong, close, raw frames, and binary frames that
   * are short or carry another event, such as ConnectionFailed or SessionFailed).
   */
  predicate Skipped(m: Message, expected: i32) {
    !m.Failed? && !Matches(m, expected)
  }

  /** The meaning of `wait_for_event(read, expected)` on the remaining stream. */
  function AwaitEvent(stream: seq<Message>, expected: i32): (w: Waited)
    ensures w.consumed <= |stream|
  {
    if stream == [] then Waited(Err(EventNotReceived(expected)), 0)
    else if Matches(stream[0], expected) then Waited(Ok(()), 1)
    else if stream[0].Failed? then Waited(Err(WebSocket(stream[0].error)), 1)
    else AwaitEvent(stream[1..], expected).After(1)
  }

  /**
   * `wait_for_event` returns `Ok` at the first matching binary frame, `Err`
   * at a transport error, and `EventNotReceived { expected }` when the stream
   * ends; every item before the one it stops at was skipped.
   */
  lemma {:induction false} AwaitEventCharacterised(stream: seq<Message>, expected: i32)
    ensures var w := AwaitEvent(stream, expected);
      && (forall j :: 0 <= j < w.consumed - 1 ==> Skipped(stream[j], expected))
      && (w.outcome.Ok? <==> w.consumed >= 1 && Matches(stream[w.consumed - 1], expected))
      && (w.outcome == Err(EventNotReceived(expected)) <==>
            w.consumed == |stream| && forall j :: 0 <= j < |stream| ==> Skipped(stream[j], expected))
      && (w.outcome.Err? && w.outcome.error.WebSocket? <==>
            w.consumed >= 1 && stream[w.consumed - 1].Failed?)
      && (w.consumed >= 1 && stream[w.consumed - 1].Failed? ==>
            w.outcome == Err(WebSocket(stream[w.consumed - 1].error)))
  {
    if stream != [] && !Matches(stream[0], expected) && !stream[0].Failed? {
      AwaitEventCharacterised(stream[1..], expected);
      var w := AwaitEvent(stream[1..], expected);
      assert forall j :: 1 <= j < |stream| ==> stream[j] == stream[1..][j - 1];
    }
  }

  /** Skipping one item shifts the wait by one: the invariant of the waiting loop. */
  lemma AwaitEventSkip(stream: seq<Message>, i: nat, expected: i32)
    requires i < |stream| && Skipped(stream[i], expected)
    ensures AwaitEvent(stream[i..], expected) == AwaitEvent(stream[i + 1..], expected).After(1)
  {
    assert stream[i..][1..] == stream[i + 1..];
  }
}
