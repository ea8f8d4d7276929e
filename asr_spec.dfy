/**
 * ASR request/response types and protocol constants of the Doubao crate
 * (crates/doubao/src/spec/asr.rs and crates/doubao/src/spec/asr/protocol.rs):
 * the task-status classification of the recognition API and the result
 * types the streaming session produces.
 */
module AsrSpec {
  import opened Wrappers
  import opened Wire

  const STATUS_SUCCESS: i32 := 20000000
  const STATUS_PROCESSING: i32 := 20000001
  const STATUS_IN_QUEUE: i32 := 20000002
  const STATUS_SILENT: i32 := 20000003

  const STREAMING_PROTOCOL_VERSION: byte := 0x11
  const STREAMING_MSG_FULL_CLIENT: byte := 0x14
  const STREAMING_MSG_FULL_SERVER: byte := 0x94
  const STREAMING_MSG_AUDIO_ONLY_CLIENT: byte := 0x24
  const STREAMING_SERIAL_JSON: byte := 0x10
  const STREAMING_COMPRESS_NONE: byte := 0x00
  const STREAMING_COMPRESS_GZIP: byte := 0x01

  const STREAMING_EVENT_START_CONNECTION: i32 := 1
  const STREAMING_EVENT_FINISH_CONNECTION: i32 := 2
  const STREAMING_EVENT_CONNECTION_STARTED: i32 := 50
  const STREAMING_EVENT_CONNECTION_FAILED: i32 := 51
  const STREAMING_EVENT_START_SESSION: i32 := 100
  const STREAMING_EVENT_FINISH_SESSION: i32 := 102
  const STREAMING_EVENT_SESSION_STARTED: i32 := 150
  const STREAMING_EVENT_SESSION_FINISHED: i32 := 152
  const STREAMING_EVENT_SESSION_FAILED: i32 := 153
  const STREAMING_EVENT_TASK_REQUEST: i32 := 200
  const STREAMING_EVENT_ASR_RESULT: i32 := 350

  /** A JSON value the model does not look inside. */
  datatype JsonValue = JsonValue(serialized: seq<byte>)

  /** An utterance of a recognition result (its word list, which holds floats, is left out). */
  datatype AsrUtterance = AsrUtterance(
    text: string,
    startTime: i32,
    endTime: i32,
    speaker: Option<string>,
    definite: Option<bool>)

  /** `AsrResult`. */
  datatype AsrResult = AsrResult(text: string, utterances: seq<AsrUtterance>, additions: Option<JsonValue>)

  /** `StreamingAsrResult`: one decoded result of a streaming session. */
  datatype StreamingAsrResult = StreamingAsrResult(sessionId: seq<byte>, result: AsrResult, isFinal: bool)

  /** `TaskStatus`: the state of a submitted recognition task. */
  datatype TaskStatus = Success | Processing | InQueue | Silent | Error(code: i32) {

    /** `TaskStatus::from_code`. */
    static function FromCode(code: i32): (s: TaskStatus)
      ensures s.IsError() <==> code !in {20000000, 20000001, 20000002, 20000003}
      ensures s.Error? ==> s.code == code
    {
      if code == STATUS_SUCCESS then Success
      else if code == STATUS_PROCESSING then Processing
      else if code == STATUS_IN_QUEUE then InQueue
      else if code == STATUS_SILENT then Silent
      else Error(code)
    }

    /** `is_pending`: the statuses of codes 20000001 and 20000002, neither completed nor failed. */
    predicate IsPending()
      ensures IsPending() <==> this == FromCode(STATUS_PROCESSING) || this == FromCode(STATUS_IN_QUEUE)
      ensures IsPending() ==> !IsCompleted() && !IsError()
    {
      Processing? || InQueue?
    }

    /** `is_completed`: the statuses of codes 20000000 and 20000003, never an error. */
    predicate IsCompleted()
      ensures IsCompleted() <==> this == FromCode(STATUS_SUCCESS) || this == FromCode(STATUS_SILENT)
      ensures IsCompleted() ==> !IsError()
    {
      Success? || Silent?
    }

    /** `is_error`: every status other than the four named ones. */
    predicate IsError()
      ensures IsError() <==> this !in {Success, Processing, InQueue, Silent}
    {
      Error?
    }
  }

  /** The four known codes map to their statuses; any other code becomes `Error` carrying that code. */
  lemma FromCodeMapping(code: i32)
    ensures TaskStatus.FromCode(20000000) == Success
    ensures TaskStatus.FromCode(20000001) == Processing
    ensures TaskStatus.FromCode(20000002) == InQueue
    ensures TaskStatus.FromCode(20000003) == Silent
    ensures code !in {20000000, 20000001, 20000002, 20000003} ==> TaskStatus.FromCode(code) == Error(code)
  {
  }

  /**
   * Every status is exactly one of pending, completed and error; completed
   * means Success or Silent and pending means Processing or InQueue.
   */
  lemma StatusClassesPartition(s: TaskStatus)
    ensures s.IsPending() || s.IsCompleted() || s.IsError()
    ensures !(s.IsPending() && s.IsCompleted()) && !(s.IsPending() && s.IsError()) && !(s.IsCompleted() && s.IsError())
    ensures s.IsCompleted() <==> s == Success || s == Silent
    ensures s.IsPending() <==> s == Processing || s == InQueue
  {
  }
}
