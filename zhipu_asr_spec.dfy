/**
 * Speech-to-text types of the Zhipu client (crates/zhipu/src/spec/asr.rs):
 * the model name with its string codec, the audio input, and the audio
 * setters of the transcription request builder.
 */
module ZhipuAsrSpec {
  import opened Wrappers

  /** `AsrModel`: the only model is `GlmAsr2512`. */
  datatype AsrModel = GlmAsr2512

  const GLM_ASR_2512: string := "glm-asr-2512"

  /** `AsrModel::as_str`; `Serialize` writes this string. */
  function ModelName(m: AsrModel): (s: string)
    ensures s == GLM_ASR_2512
  {
    match m
    case GlmAsr2512 => GLM_ASR_2512
  }

  /** `Display for AsrModel`: the model name. */
  function ModelDisplay(m: AsrModel): (s: string)
    ensures s == ModelName(m)
  {
    ModelName(m)
  }

  /** `From<AsrModel> for String`: the model name. */
  function ModelIntoString(m: AsrModel): (s: string)
    ensures s == ModelName(m) && s == ModelDisplay(m)
  {
    ModelName(m)
  }

  /** A serde error: `unknown_variant(value, expected)`. */
  datatype DeError = UnknownVariant(value: string, expected: seq<string>)

  /** `Deserialize for AsrModel`, from the string already read. */
  function DeserializeModel(s: string): (r: Result<AsrModel, DeError>)
    ensures r.Ok? <==> s == GLM_ASR_2512
    ensures r.Err? ==> r.error == UnknownVariant(s, [GLM_ASR_2512])
  {
    if s == GLM_ASR_2512 then Ok(GlmAsr2512) else Err(UnknownVariant(s, [GLM_ASR_2512]))
  }

  /** Deserializing a serialized model gives the model back. */
  lemma ModelRoundTrip(m: AsrModel)
    ensures DeserializeModel(ModelName(m)) == Ok(m)
  {
  }

  /** `AudioInput`: file bytes with a file name, or base64 text. */
  datatype AudioInput = File(data: seq<bv8>, filename: string) | Base64(base64: string)

  /** `AudioInput::from_bytes`. */
  function FromBytes(data: seq<bv8>, filename: string): (a: AudioInput)
    ensures a.File? && a.data == data && a.filename == filename
  {
    File(data, filename)
  }

  /** `AudioInput::from_base64`. */
  function FromBase64(base64: string): (a: AudioInput)
    ensures a.Base64? && a.base64 == base64
  {
    Base64(base64)
  }

  /**
   * `CreateTranscriptionRequestArgs`, the mutable builder: every slot is
   * `None` until set; a set optional field is `Some(Some(v))`.
   */
  class TranscriptionRequestArgs {
    var audio: Option<Option<AudioInput>>
    var model: Option<AsrModel>
    var prompt: Option<Option<string>>
    var hotwords: Option<Option<seq<string>>>
    var stream: Option<Option<bool>>
    var requestId: Option<Option<string>>
    var userId: Option<Option<string>>

    /** `CreateTranscriptionRequestArgs::default()`: nothing set. */
    constructor ()
      ensures audio == None && model == None && prompt == None && hotwords == None
      ensures stream == None && requestId == None && userId == None
    {
      audio := None;
      model := None;
      prompt := None;
      hotwords := None;
      stream := None;
      requestId := None;
      userId := None;
    }

    /** `audio`: set the audio slot, and nothing else. */
    method Audio(input: AudioInput)
      modifies this
      ensures audio == Some(Some(input))
      ensures model == old(model) && prompt == old(prompt) && hotwords == old(hotwords)
      ensures stream == old(stream) && requestId == old(requestId) && userId == old(userId)
    {
      audio := Some(Some(input));
    }

    /** `audio_bytes`: `audio(AudioInput::from_bytes(data, filename))`. */
    method AudioBytes(data: seq<bv8>, filename: string)
      modifies this
      ensures audio == Some(Some(File(data, filename)))
      ensures model == old(model) && prompt == old(prompt) && hotwords == old(hotwords)
      ensures stream == old(stream) && requestId == old(requestId) && userId == old(userId)
    {
      Audio(FromBytes(data, filename));
    }

    /** `audio_base64`: `audio(AudioInput::from_base64(base64))`. */
    method AudioBase64(base64: string)
      modifies this
      ensures audio == Some(Some(Base64(base64)))
      ensures model == old(model) && prompt == old(prompt) && hotwords == old(hotwords)
      ensures stream == old(stream) && requestId == old(requestId) && userId == old(userId)
    {
      Audio(FromBase64(base64));
    }
  }
}
