/**
 * Text-to-speech types of the Zhipu client (crates/zhipu/src/spec/tts.rs):
 * voice and format identifiers, the model name with its string codec, and
 * the speech response.
 */
module ZhipuTtsSpec {
  import opened Wrappers

  /** `Voice`; `Tongtong` is the default. */
  datatype Voice = Tongtong | Chuichui | Xiaochen | Jam | Kazi | Douji | Luodo

  /** `Voice::as_str`: the voice id the API expects. */
  function VoiceId(v: Voice): (s: string)
    ensures |s| > 0
    ensures v.Tongtong? ==> s == "彤彤"
    ensures v.Chuichui? ==> s == "锤锤"
    ensures v.Xiaochen? ==> s == "小陈"
    ensures !(v.Tongtong? || v.Chuichui? || v.Xiaochen?) ==> s == VoiceSerdeName(v)
  {
    match v
    case Tongtong => "彤彤"
    case Chuichui => "锤锤"
    case Xiaochen => "小陈"
    case Jam => "jam"
    case Kazi => "kazi"
    case Douji => "douji"
    case Luodo => "luodo"
  }

  /** `as_str` of each of the seven voices. */
  lemma VoiceIdMapping()
    ensures VoiceId(Tongtong) == "彤彤"
    ensures VoiceId(Chuichui) == "锤锤"
    ensures VoiceId(Xiaochen) == "小陈"
    ensures VoiceId(Jam) == "jam"
    ensures VoiceId(Kazi) == "kazi"
    ensures VoiceId(Douji) == "douji"
    ensures VoiceId(Luodo) == "luodo"
  {
  }

  /** The voice named by an id, the inverse of `VoiceId`. */
  function VoiceOfId(s: string): (v: Option<Voice>)
    ensures v.Some? ==> VoiceId(v.value) == s
  {
    if s == "彤彤" then Some(Tongtong)
    else if s == "锤锤" then Some(Chuichui)
    else if s == "小陈" then Some(Xiaochen)
    else if s == "jam" then Some(Jam)
    else if s == "kazi" then Some(Kazi)
    else if s == "douji" then Some(Douji)
    else if s == "luodo" then Some(Luodo)
    else None
  }

  /** Every voice is recovered from its id, so no two voices share one. */
  lemma VoiceIdInjective(v: Voice, w: Voice)
    ensures VoiceOfId(VoiceId(v)) == Some(v)
    ensures VoiceId(v) == VoiceId(w) ==> v == w
  {
    assert VoiceOfId(VoiceId(w)) == Some(w);
  }

  /** `Display for Voice`: the voice id. */
  function VoiceDisplay(v: Voice): (s: string)
    ensures s == VoiceId(v)
  {
    VoiceId(v)
  }

  /**
   * The name serde gives a voice (`rename_all = "lowercase"` of the variant
   * name). It is not the voice id for the three Chinese-named voices.
   */
  function VoiceSerdeName(v: Voice): (r: string)
    ensures r != [] && forall i :: 0 <= i < |r| ==> 'a' <= r[i] <= 'z'
    ensures v.Tongtong? ==> r == "tongtong"
    ensures v.Chuichui? ==> r == "chuichui"
    ensures v.Xiaochen? ==> r == "xiaochen"
    ensures v.Jam? ==> r == "jam"
    ensures v.Kazi? ==> r == "kazi"
    ensures v.Douji? ==> r == "douji"
    ensures v.Luodo? ==> r == "luodo"
  {
    match v
    case Tongtong => "tongtong"
    case Chuichui => "chuichui"
    case Xiaochen => "xiaochen"
    case Jam => "jam"
    case Kazi => "kazi"
    case Douji => "douji"
    case Luodo => "luodo"
  }

  /** The serialized voice equals `as_str` exactly for the four Latin-named voices. */
  lemma VoiceSerdeNameVersusId(v: Voice)
    ensures VoiceSerdeName(v) == VoiceId(v) <==> v in {Jam, Kazi, Douji, Luodo}
  {
    if v.Tongtong? || v.Chuichui? || v.Xiaochen? {
      assert VoiceSerdeName(v)[0] != VoiceId(v)[0];
    }
  }

  /** `AudioFormat`; `Wav` is the default. */
  datatype AudioFormat = Wav | Pcm

  const DEFAULT_AUDIO_FORMAT: AudioFormat := Wav

  /** `AudioFormat::as_str`. */
  function FormatName(f: AudioFormat): (s: string)
    ensures f.Wav? <==> s == "wav"
    ensures f.Pcm? <==> s == "pcm"
  {
    match f
    case Wav => "wav"
    case Pcm => "pcm"
  }

  /** The default format is named `"wav"`. */
  lemma DefaultFormatIsWav()
    ensures FormatName(DEFAULT_AUDIO_FORMAT) == "wav"
  {
  }

  /** `TtsModel`: the only model is `GlmTts`. */
  datatype TtsModel = GlmTts

  const GLM_TTS: string := "glm-tts"

  /** `TtsModel::as_str`; `Display`, `From<TtsModel> for String` and `Serialize` all write this. */
  function ModelName(m: TtsModel): (s: string)
    ensures s == GLM_TTS
  {
    match m
    case GlmTts => GLM_TTS
  }

  /** A serde error: `unknown_variant(value, expected)`. */
  datatype DeError = UnknownVariant(value: string, expected: seq<string>)

  /** `Deserialize for TtsModel`, from the string already read. */
  function DeserializeModel(s: string): (r: Result<TtsModel, DeError>)
    ensures r.Ok? <==> s == GLM_TTS
    ensures r.Err? ==> r.error == UnknownVariant(s, [GLM_TTS])
  {
    if s == GLM_TTS then Ok(GlmTts) else Err(UnknownVariant(s, [GLM_TTS]))
  }

  /** Deserializing a serialized model gives the model back. */
  lemma ModelRoundTrip(m: TtsModel)
    ensures DeserializeModel(ModelName(m)) == Ok(m)
  {
  }

  /** `SpeechResponse`: the audio bytes and their content type. */
  datatype SpeechResponse = SpeechResponse(audio: seq<bv8>, contentType: string) {
    /** `as_bytes`: the audio. */
    function AsBytes(): (b: seq<bv8>)
      ensures b == audio
    {
      audio
    }
  }

  /** `SpeechResponse::new`: both parts stored unchanged. */
  function NewSpeechResponse(audio: seq<bv8>, contentType: string): (r: SpeechResponse)
    ensures r.AsBytes() == audio && r.contentType == contentType
  {
    SpeechResponse(audio, contentType)
  }
}
