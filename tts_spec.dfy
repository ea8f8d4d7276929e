/**
 * TTS request and response types of the Doubao crate
 * (crates/doubao/src/spec/tts.rs): the audio format, the sample-rate enum
 * and its `u32` conversions, the markdown-filter additions and the speech
 * response.
 */
module TtsSpec {
  import opened Wrappers
  import opened Wire

  /** `AudioFormat`; the default is Mp3. */
  datatype AudioFormat = Mp3 | Pcm | Wav | Ogg

  /** `AudioFormat::default()`: the variant marked `#[default]`. */
  function DefaultAudioFormat(): (f: AudioFormat)
    ensures f == Mp3
  {
    Mp3
  }

  /** `SampleRate`; the default is 24000 Hz. */
  datatype SampleRate = Hz8000 | Hz16000 | Hz22050 | Hz24000 | Hz32000 | Hz44100 | Hz48000

  /** `SampleRate::default()`: the variant marked `#[default]`, 24000 Hz. */
  function DefaultSampleRate(): (r: SampleRate)
    ensures ToU32(r) == 24000
  {
    Hz24000
  }

  /** The seven rates the enum can express, in Hz. */
  const SUPPORTED_RATES: set<u32> := {8000, 16000, 22050, 24000, 32000, 44100, 48000}

  /** `u32::from(rate)`. */
  function ToU32(rate: SampleRate): (hz: u32)
    ensures hz in SUPPORTED_RATES
  {
    match rate
    case Hz8000 => 8000
    case Hz16000 => 16000
    case Hz22050 => 22050
    case Hz24000 => 24000
    case Hz32000 => 32000
    case Hz44100 => 44100
    case Hz48000 => 48000
  }

  /**
   * Decimal digits of a natural number, as `format!("{}", n)` writes them:
   * at least one digit, and no leading zero except in "0" itself.
   */
  function Decimal(n: nat): (r: string)
    ensures r != [] && (r[0] == '0' ==> n == 0)
    ensures forall i :: 0 <= i < |r| ==> '0' <= r[i] <= '9'
    ensures DigitsValue(r) == n
    decreases n
  {
    var d := ('0' as int + n % 10) as char;
    if n < 10 then
      DigitsValueAppend([], d);
      [d]
    else
      DigitsValueAppend(Decimal(n / 10), d);
      Decimal(n / 10) + [d]
  }

  /** The number a string of decimal digits denotes, read left to right (`10 * acc + digit`). */
  function DigitsValue(s: string): nat
    requires forall i :: 0 <= i < |s| ==> '0' <= s[i] <= '9'
  {
    if s == [] then 0 else 10 * DigitsValue(s[..|s| - 1]) + (s[|s| - 1] as int - '0' as int)
  }

  /** Appending a digit multiplies the value read so far by ten and adds the digit. */
  lemma DigitsValueAppend(s: string, d: char)
    requires forall i :: 0 <= i < |s| ==> '0' <= s[i] <= '9'
    requires '0' <= d <= '9'
    ensures forall i :: 0 <= i < |s + [d]| ==> '0' <= (s + [d])[i] <= '9'
    ensures DigitsValue(s + [d]) == 10 * DigitsValue(s) + (d as int - '0' as int)
  {
    assert (s + [d])[..|s|] == s;
  }

  /** `SampleRate::try_from(value)`: one of the seven rates, or the error message naming the value. */
  function TryFromU32(value: u32): (r: Result<SampleRate, string>)
    ensures r.Ok? <==> value in SUPPORTED_RATES
    ensures r.Ok? ==> ToU32(r.value) == value
    ensures r.Err? ==> r.error == "unsupported sample rate: " + Decimal(value)
  {
    if value == 8000 then Ok(Hz8000)
    else if value == 16000 then Ok(Hz16000)
    else if value == 22050 then Ok(Hz22050)
    else if value == 24000 then Ok(Hz24000)
    else if value == 32000 then Ok(Hz32000)
    else if value == 44100 then Ok(Hz44100)
    else if value == 48000 then Ok(Hz48000)
    else Err("unsupported sample rate: " + Decimal(value))
  }

  /** `try_from(u32::from(r)) == Ok(r)` for every rate, so `u32::from` is injective. */
  lemma SampleRateRoundTrip(r: SampleRate, s: SampleRate)
    ensures TryFromU32(ToU32(r)) == Ok(r)
    ensures ToU32(r) == ToU32(s) ==> r == s
  {
  }

  /** `u32::from` maps each variant to the frequency its name gives. */
  lemma SampleRateMapping()
    ensures ToU32(Hz8000) == 8000
    ensures ToU32(Hz16000) == 16000
    ensures ToU32(Hz22050) == 22050
    ensures ToU32(Hz24000) == 24000
    ensures ToU32(Hz32000) == 32000
    ensures ToU32(Hz44100) == 44100
    ensures ToU32(Hz48000) == 48000
  {
  }

  /** `Additions`: extra request parameters serialized into the session payload. */
  datatype Additions = Additions(disableMarkdownFilter: Option<bool>) {

    /** `Additions::new(b)`: the filter flag is always present. */
    static function New(disableMarkdownFilter: bool): (a: Additions)
      ensures a.disableMarkdownFilter == Some(disableMarkdownFilter)
    {
      Additions(Some(disableMarkdownFilter))
    }
  }

  /** `CreateSpeechRequest` (the float-free fields it has). */
  datatype CreateSpeechRequest = CreateSpeechRequest(
    text: string,
    speaker: string,
    format: Option<AudioFormat>,
    sampleRate: Option<u32>,
    speechRate: Option<i32>,
    loudnessRate: Option<i32>,
    pitchRate: Option<i32>,
    enableTimestamp: Option<bool>,
    disableMarkdownFilter: Option<bool>)

  /** `CreateSpeechResponse`: the synthesized audio with its format and sample rate. */
  datatype CreateSpeechResponse = CreateSpeechResponse(bytes: seq<byte>, format: AudioFormat, sampleRate: u32) {

    /** `CreateSpeechResponse::new`: stores its three arguments unchanged. */
    static function New(bytes: seq<byte>, format: AudioFormat, sampleRate: u32): (r: CreateSpeechResponse)
      ensures r.bytes == bytes && r.format == format && r.sampleRate == sampleRate
    {
      CreateSpeechResponse(bytes, format, sampleRate)
    }
  }
}
