# outfox voice and text core, modelled in Dafny

outfox is a set of Rust clients for the Doubao (Volcengine), Zhipu and
OpenAI APIs. This project models the logic in those clients that does not
depend on the network, and proves properties about it:

- **Doubao binary WebSocket protocol for text-to-speech and streaming
  speech recognition.** A frame is a 4-byte header, a big-endian event
  number, an optional length-prefixed session id and a length-prefixed
  payload (`wire.dfy`, `tts_protocol.dfy`). The streaming recognition
  client builds event and audio frames, reads the result payload back, runs
  the two-step handshake and demultiplexes messages in its background pump
  (`asr_streaming.dfy`). The speech client runs the same handshake and then
  collects audio until the session finishes (`tts_speech.dfy`). Waiting for
  an acknowledgement is shared between the two (`transport.dfy`).
- **Doubao request and response types:** the task-status classification of
  the recognition API (`asr_spec.dfy`), and the sample-rate codec and
  response constructors of text-to-speech (`tts_spec.dfy`).
- **Doubao configuration:** the `with_*` setters, the getters, trimming of
  the HTTP base, endpoint URLs and the WebSocket authorization value
  (`doubao_config.dfy`).
- **Zhipu voice listing,** modelled in `zhipu_voice.dfy`:
  - percent-encoding of a string, following sections 2.1 and 2.3 of
    RFC 3986, together with a decoder that it round-trips with;
  - the query string that `Voice::list` appends to the endpoint URL.

  UTF-8 encoding of a character is defined in `utf8.dfy`.
- **Zhipu model names and inputs:** the string codecs of the TTS and ASR
  model names, the voice ids, the audio input and the transcription builder
  setters (`zhipu_tts_spec.dfy`, `zhipu_asr_spec.dfy`).
- **OpenAI text content:** reading it as a list of texts, emptiness and
  display (`openai_text.dfy`, using `strings.dfy` for `join`).

Sockets are modelled as finite sequences of received `Message`s; the end of
the sequence is the end of the stream. Each loop of the source is a method
loop proved equal to a specification function on that sequence. The frame
builders, the opening handshakes, one `select!` branch of the recognition
pump, `create` and the voice-list URL have no loop; they are methods proved
equal to a specification function too. Lemmas then characterise the
functions: what is sent, in which order, what is collected, and when it
stops or fails.

The model reproduces several behaviours of the code that its comments or
the protocol description do not suggest. Each one is stated by a lemma:

- `extract_audio_from_frame` ignores the declared payload length and
  returns every byte after it (`TtsProtocol.ExtractAudioIgnoresDeclaredLength`).
  It returns `None` for an audio frame with no audio.
- The speech receive loop ends normally on Ping and Pong
  (`TtsSpeech.ReceiveAudioStops`).
- A binary message of 4 to 7 bytes aborts `create` with
  `Protocol("invalid frame")`; a shorter one is skipped.
- `create` sends event 152 (SessionFinished, a server event) after
  SessionStarted, and never sends TaskRequest (200), so the request text is
  never transmitted (`TtsSpeech.CreateSendsEvents`).
- The recognition pump writes FinishSession again for every `None` from the
  closed audio channel (`AsrStreaming.FinishSessionResent`).
- The pump silently drops read-side transport errors
  (`AsrStreaming.TransportErrorIgnored`).
- `DoubaoConfig::default()` takes `DOUBAO_HTTP_BASE` untrimmed, while
  `with_http_base` trims it (`DoubaoConfig.DefaultHttpBaseNotTrimmed`).
- The variants of Zhipu `Voice` serialize to their lowercase names, which
  differ from `as_str` for the three Chinese voice ids
  (`ZhipuTtsSpec.VoiceSerdeNameVersusId`).

## Model

| member | source | states |
|---|---|---|
| Wire.U32RoundTrip | crates/doubao/src/spec/tts/protocol.rs:99 | reading back the big-endian bytes of a `u32` gives the number |
| Wire.U32ToBe | crates/doubao/src/spec/tts/protocol.rs:99 | the big-endian encoding of a `u32` is four bytes |
| Wire.U32BeRoundTrip | crates/doubao/src/asr/streaming.rs:325 | encoding the number read from four bytes gives those bytes back |
| Wire.U32FieldAt | crates/doubao/src/asr/streaming.rs:332-337 | a length field written at an offset is read back at that offset |
| Wire.I32RoundTrip | crates/doubao/src/spec/tts/protocol.rs:94 | `i32::from_be_bytes(e.to_be_bytes()) == e` for every event number, negative ones included |
| Wire.I32ToBe | crates/doubao/src/spec/tts/protocol.rs:94 | the big-endian encoding of an `i32` is four bytes |
| Wire.I32BeRoundTrip | crates/doubao/src/spec/tts/protocol.rs:120 | encoding the event read from four bytes gives those bytes back |
| Wire.LenAsU32 | crates/doubao/src/spec/tts/protocol.rs:99 | `len() as u32` keeps every length below 2^32 as it is (longer lengths wrap modulo 2^32) |
| Wire.LengthPrefixed | crates/doubao/src/spec/tts/protocol.rs:99-100 | a length-prefixed field is 4 bytes longer than the field |
| Wire.ClientFrameLayout | crates/doubao/src/spec/tts/protocol.rs:85-109 | a client frame is its header, the event bytes, the session-id field when present, then the payload length and the payload, each at its stated offset |
| TtsProtocol.EventFrame | crates/doubao/src/spec/tts/protocol.rs:80-110 | the frame is 8 + (4 + sid length if present) + 4 + payload length bytes long |
| TtsProtocol.BuildEventFrame | crates/doubao/src/spec/tts/protocol.rs:80-110 | the pushes build exactly the specified frame; it starts with 0x11, 0x14, 0x10, 0x00 and is 8 + (4 + sid length if present) + 4 + payload length bytes long |
| TtsProtocol.EventFrameShape | crates/doubao/src/spec/tts/protocol.rs:93-107 | the session-id field is present exactly when a session id is given; otherwise the payload length sits at offset 8; each length field encodes the size of what follows it |
| TtsProtocol.ParseEvent | crates/doubao/src/spec/tts/protocol.rs:116-122 | a parsed event is the big-endian value of bytes 4..8 |
| TtsProtocol.ParseEventOfEventFrame | crates/doubao/src/spec/tts/protocol.rs:94 | `parse_event(build_event_frame(e, sid, p)) == Some(e)` for every event, with or without a session id |
| TtsProtocol.ParseEventReadsOnlyEventField | crates/doubao/src/spec/tts/protocol.rs:117-121 | `None` exactly for inputs shorter than 8 bytes; two inputs that agree on bytes 4..8 parse alike |
| TtsProtocol.FrameEventsAppend | crates/doubao/src/spec/tts/protocol.rs:116-122 | the events of a concatenation of frame lists are the concatenated events |
| TtsProtocol.FrameEventsOfParsed | crates/doubao/src/spec/tts/protocol.rs:116-122 | a list of frames each parsing to a given event has exactly those events |
| TtsProtocol.FrameEventsOfEventFrame | crates/doubao/src/spec/tts/protocol.rs:80-122 | a built frame contributes exactly its event |
| TtsProtocol.ExtractAudioFromFrame | crates/doubao/src/spec/tts/protocol.rs:128-161 | audio is returned only from an audio-only frame of at least 12 bytes, and is never empty |
| TtsProtocol.IsFullServerResponse | crates/doubao/src/spec/tts/protocol.rs:165-167 | no audio is extracted from a full server response |
| TtsProtocol.IsAudioOnlyResponse | crates/doubao/src/spec/tts/protocol.rs:171-173 | every frame audio is extracted from is an audio-only response, and no frame is also a full server response |
| TtsProtocol.ExtractAudioCases | crates/doubao/src/spec/tts/protocol.rs:129-160 | `None` below 4 bytes, for a type other than 0xB4, and for 0xB4 below 12 bytes; otherwise every byte after offset 12 + declared sid length + 4, when there is any |
| TtsProtocol.ExtractAudioIgnoresDeclaredLength | crates/doubao/src/spec/tts/protocol.rs:141-146 | two frames that differ only in the payload-length field yield the same audio |
| TtsProtocol.ExtractAudioTakesTrailingBytes | crates/doubao/src/spec/tts/protocol.rs:141-152 | on an audio frame carrying a session id, the result is the bytes after the payload-length field whatever that field says, and `None` when there are none |
| TtsProtocol.ExtractAudioOfAudioLayout | crates/doubao/src/spec/tts/protocol.rs:128-161 | on a well-formed audio frame the extracted audio is exactly its payload, or `None` for an empty payload |
| TtsProtocol.ResponseKindsExclusive | crates/doubao/src/spec/tts/protocol.rs:165-173 | full-server and audio-only are byte 1 being 0x94 or 0xB4 on at least 2 bytes, and no frame is both |
| Transport.AwaitEvent | crates/doubao/src/asr/streaming.rs:363-388 | the wait consumes at most the whole stream |
| Transport.AwaitEventCharacterised | crates/doubao/src/asr/streaming.rs:372-387 | the wait skips everything before the item it stops at; `Ok` exactly when that item is a binary frame with the expected event; `EventNotReceived(expected)` exactly when the stream runs out; a transport error is returned as `WebSocket` |
| Transport.AwaitEventSkip | crates/doubao/src/asr/streaming.rs:375-381 | a skipped item only adds one to what the wait consumes |
| AsrStreaming.EventFrame | crates/doubao/src/asr/streaming.rs:257-283 | the frame is byte for byte the TTS protocol's event frame |
| AsrStreaming.AudioFrame | crates/doubao/src/asr/streaming.rs:286-308 | the frame is 16 + sid length + audio length bytes: header 0x11, 0x24, 0x10, 0x00, event 200, the session id at offset 12 and the audio last |
| AsrStreaming.BuildEventFrame | crates/doubao/src/asr/streaming.rs:257-283 | the pushes build the specified frame, which is byte for byte the TTS protocol's event frame |
| AsrStreaming.BuildAudioFrame | crates/doubao/src/asr/streaming.rs:286-308 | the pushes build the specified audio frame |
| AsrStreaming.AudioFrameLayout | crates/doubao/src/asr/streaming.rs:286-308 | an audio frame starts 0x11, 0x24, 0x10, 0x00, is 16 + sid + audio bytes long, carries the length-prefixed session id at offset 8, ends with the audio and parses to TaskRequest (200) |
| AsrStreaming.ParseEvent | crates/doubao/src/asr/streaming.rs:311-316 | this file's `parse_event` agrees with the TTS protocol's on every input |
| AsrStreaming.AudioFrameEvent | crates/doubao/src/asr/streaming.rs:296 | an audio frame's event is 200 |
| AsrStreaming.AsrPayloadSlice | crates/doubao/src/asr/streaming.rs:319-344 | a payload slice fits inside the frame after its 16 header bytes |
| AsrStreaming.AsrPayloadSliceCases | crates/doubao/src/asr/streaming.rs:320-344 | `None` below 12 bytes, when fewer than 4 bytes follow the declared session id, and when the declared payload length exceeds what remains; otherwise exactly the declared payload, unaffected by trailing bytes |
| AsrStreaming.AsrPayloadOfEventFrame | crates/doubao/src/asr/streaming.rs:325-344 | the reader recovers the payload of any event frame with a session id |
| AsrStreaming.ParseAsrResult | crates/doubao/src/asr/streaming.rs:319-360 | a result exists exactly when the slice exists and the JSON decodes; it carries the caller's session id, `result.text` or "", no utterances, the additions, and `result.definite` or false as `is_final` |
| AsrStreaming.WaitForEvent | crates/doubao/src/asr/streaming.rs:363-388 | the loop returns what the waiting specification says, and consumes as much |
| AsrStreaming.HandshakeOf | crates/doubao/src/asr/streaming.rs:97-142 | the handshake consumes at most the stream |
| AsrStreaming.StartSession | crates/doubao/src/asr/streaming.rs:97-142 | the method sends and consumes what the handshake specification says |
| AsrStreaming.HandshakeOrder | crates/doubao/src/asr/streaming.rs:97-142 | StartConnection (1), without a session id and with `{}`, is sent first; StartSession (100) is sent with the session id exactly when ConnectionStarted (50) was seen; the session is returned exactly when SessionStarted (150) follows |
| AsrStreaming.RunPump | crates/doubao/src/asr/streaming.rs:146-211 | the pump consumes at most its events |
| AsrStreaming.PumpAdvance | crates/doubao/src/asr/streaming.rs:149-210 | one more step extends the pump's outputs as the specification's fold does |
| AsrStreaming.ThenAppend | crates/doubao/src/asr/streaming.rs:149-210 | prepending one step's outputs to a run concatenates frames and results |
| AsrStreaming.Step | crates/doubao/src/asr/streaming.rs:152-203 | one iteration goes on unless the event ends the pump, sends the frames and enqueues the result that the per-event description gives; this regroups the branch by output, and `PumpStops` and `PumpOutputs` carry it over whole runs |
| AsrStreaming.PumpStep | crates/doubao/src/asr/streaming.rs:152-203 | one `select!` branch computes what the step function says |
| AsrStreaming.Pump | crates/doubao/src/asr/streaming.rs:146-211 | the loop passes the frames to `write.send`, enqueues the results and consumes as many events as the fold over the events does |
| AsrStreaming.RunPumpHead | crates/doubao/src/asr/streaming.rs:152-203 | the first event decides whether the pump goes on, what it writes (audio frame, FinishSession, FinishConnection on 152) and what it enqueues (a parsed 350 result) |
| AsrStreaming.PumpStops | crates/doubao/src/asr/streaming.rs:157-200 | the pump runs up to the first failed audio write, SessionFinished, Close or end of stream, and no further |
| AsrStreaming.PumpOutputs | crates/doubao/src/asr/streaming.rs:152-203 | the frames passed to `write.send` (an audio frame whose write fails included) and the results enqueued are those of exactly the consumed events, in order |
| AsrStreaming.FinishSessionResent | crates/doubao/src/asr/streaming.rs:161-170 | two closes of the audio channel make the pump send FinishSession twice |
| AsrStreaming.TransportErrorIgnored | crates/doubao/src/asr/streaming.rs:201 | a transport error is consumed with no frame, no result and no stop |
| TtsSpeech.WaitForEvent | crates/doubao/src/tts/speech.rs:247-295 | the loop returns what the waiting specification says, and consumes as much |
| TtsSpeech.ReceiveAudio | crates/doubao/src/tts/speech.rs:168-223 | the receive loop consumes at most the stream |
| TtsSpeech.ResumeTwice | crates/doubao/src/tts/speech.rs:182 | collecting a chunk and then more is collecting their concatenation |
| TtsSpeech.ReceiveLoop | crates/doubao/src/tts/speech.rs:168-223 | the loop's exit, collected audio and consumed count are what the receive specification says |
| TtsSpeech.ReceiveAudioHead | crates/doubao/src/tts/speech.rs:170-221 | each item either continues with its audio chunk, stops with nothing more, or aborts with `WebSocket` or `Protocol("invalid frame")` |
| TtsSpeech.ReceiveAudioStops | crates/doubao/src/tts/speech.rs:170-221 | the loop stops at the first SessionFinished, Close, Ping, Pong, transport error or 4-to-7-byte frame, or at the end; it fails exactly on the transport error (`WebSocket`) and on the 4-to-7-byte binary frame (`Protocol("invalid frame")`) |
| TtsSpeech.ReceiveAudioCollects | crates/doubao/src/tts/speech.rs:180-184 | finished audio is the in-order concatenation of the extracted audio of the 350/351/352 frames consumed |
| TtsSpeech.OpenSession | crates/doubao/src/tts/speech.rs:92-145 | the opening exchange consumes at most the stream |
| TtsSpeech.StartSession | crates/doubao/src/tts/speech.rs:92-145 | the method sends and consumes what the opening specification says |
| TtsSpeech.OpenSessionCharacterised | crates/doubao/src/tts/speech.rs:92-145 | success exactly when ConnectionStarted and SessionStarted both arrive; it sends StartConnection, StartSession after ConnectionStarted, then the 152 frame |
| TtsSpeech.CreateOf | crates/doubao/src/tts/speech.rs:85-243 | `create` consumes at most the stream |
| TtsSpeech.FinishFrames | crates/doubao/src/tts/speech.rs:225-235 | the closing frames carry FinishSession (102), then FinishConnection (2) |
| TtsSpeech.Create | crates/doubao/src/tts/speech.rs:85-243 | the method returns, sends and consumes what the `create` specification says |
| TtsSpeech.SentEvents | crates/doubao/src/tts/speech.rs:92-235 | the frames `create` builds carry events 1, 100, 152, 102, 2 in that order |
| TtsSpeech.CreateCharacterised | crates/doubao/src/tts/speech.rs:85-243 | success exactly when both acknowledgements arrive and the loop does not abort; the frames sent on success and on failure; the response's bytes are the collected audio, its format the requested one or Mp3, its rate the requested one or 24000 |
| TtsSpeech.CreateSendsEvents | crates/doubao/src/tts/speech.rs:92-235 | events 1, 100, 152, 102, 2 on success, a prefix of 1, 100, 152 on failure, and TaskRequest (200) never |
| AsrSpec.TaskStatus.FromCode | crates/doubao/src/spec/asr.rs:264-273 | the status is an error exactly for codes other than the four known ones, and carries that code |
| AsrSpec.FromCodeMapping | crates/doubao/src/spec/asr.rs:264-273 | 20000000..20000003 map to Success, Processing, InQueue, Silent; every other code to `Error(code)` |
| AsrSpec.StatusClassesPartition | crates/doubao/src/spec/asr.rs:277-291 | every status is exactly one of pending, completed and error; completed is Success or Silent; pending is Processing or InQueue |
| AsrSpec.TaskStatus.IsPending | crates/doubao/src/spec/asr.rs:277-279 | pending exactly for the statuses of codes 20000001 and 20000002; a pending status is neither completed nor an error |
| AsrSpec.TaskStatus.IsCompleted | crates/doubao/src/spec/asr.rs:283-285 | completed exactly for the statuses of codes 20000000 and 20000003; a completed status is not an error |
| AsrSpec.TaskStatus.IsError | crates/doubao/src/spec/asr.rs:289-291 | an error exactly for the statuses other than the four named ones |
| TtsSpec.ToU32 | crates/doubao/src/spec/tts.rs:48-60 | every rate converts to one of the seven supported frequencies |
| TtsSpec.SampleRateMapping | crates/doubao/src/spec/tts.rs:48-60 | Hz8000, Hz16000, Hz22050, Hz24000, Hz32000, Hz44100 and Hz48000 convert to 8000, 16000, 22050, 24000, 32000, 44100 and 48000 |
| TtsSpec.TryFromU32 | crates/doubao/src/spec/tts.rs:62-77 | `Ok` exactly for the seven frequencies, with the rate converting back to the value; otherwise the error names the value in decimal |
| TtsSpec.SampleRateRoundTrip | crates/doubao/src/spec/tts.rs:48-77 | `try_from(u32::from(r)) == Ok(r)`, so `u32::from` is injective |
| TtsSpec.DefaultAudioFormat | crates/doubao/src/spec/tts.rs:15-25 | the default format is Mp3 (holds by definition) |
| TtsSpec.DefaultSampleRate | crates/doubao/src/spec/tts.rs:30-46 | the default rate converts to 24000 Hz |
| TtsSpec.Decimal | crates/doubao/src/spec/tts.rs:74 | the value is written as at least one decimal digit, with no leading zero except for 0, and the digits read back left to right as the value |
| TtsSpec.Additions.New | crates/doubao/src/spec/tts.rs:261-265 | the markdown-filter flag is always present, with the given value |
| TtsSpec.CreateSpeechResponse.New | crates/doubao/src/spec/tts.rs:219-225 | bytes, format and sample rate are stored unchanged |
| DoubaoConfig.EnvOr | crates/doubao/src/config.rs:61-87 | the variable's value when set, the fallback otherwise |
| DoubaoConfig.Default | crates/doubao/src/config.rs:44-87 | ids and secrets from the environment or empty; resource id, HTTP base, voice type and cluster from the environment or their fixed fallbacks; the three TTS bases fixed |
| DoubaoConfig.DefaultHttpBaseNotTrimmed | crates/doubao/src/config.rs:77-79 | the default HTTP base keeps a trailing `/` from the environment, unlike `with_http_base` |
| DoubaoConfig.Config.WithAppId | crates/doubao/src/config.rs:98-101 | the app id getter returns the value set and every other field is unchanged |
| DoubaoConfig.Config.WithApiKey | crates/doubao/src/config.rs:105-108 | the API key getter returns the value set and every other field is unchanged |
| DoubaoConfig.Config.WithAccessToken | crates/doubao/src/config.rs:112-115 | the access token getter returns the value set and every other field is unchanged |
| DoubaoConfig.Config.WithResourceId | crates/doubao/src/config.rs:119-122 | the resource id getter returns the value set and every other field is unchanged |
| DoubaoConfig.Config.WithTtsWsBase | crates/doubao/src/config.rs:126-129 | the value is stored verbatim, slashes included, and every other field is unchanged |
| DoubaoConfig.Config.WithTtsWsV3UniBase | crates/doubao/src/config.rs:133-136 | the value is stored verbatim and every other field is unchanged |
| DoubaoConfig.Config.WithTtsHttpV3Base | crates/doubao/src/config.rs:140-143 | the value is stored verbatim and every other field is unchanged |
| DoubaoConfig.Config.WithVoiceType | crates/doubao/src/config.rs:147-150 | the voice type getter returns the value set and every other field is unchanged |
| DoubaoConfig.Config.WithCluster | crates/doubao/src/config.rs:154-157 | the cluster getter returns the value set and every other field is unchanged |
| DoubaoConfig.Config.WithHttpBase | crates/doubao/src/config.rs:221-225 | the stored base is the argument with trailing slashes removed, so it never ends in `/`; nothing else changes |
| DoubaoConfig.Config.Authorization | crates/doubao/src/config.rs:215-217 | `"Bearer;"` immediately followed by the API key |
| DoubaoConfig.Config.Url | crates/doubao/src/config.rs:235-237 | the HTTP base immediately followed by the path |
| DoubaoConfig.TrimEndSlashes | crates/doubao/src/config.rs:223 | the result is a prefix of the input, only slashes follow it, and it does not end in `/` |
| DoubaoConfig.TrimKeepsUnslashed | crates/doubao/src/config.rs:222-223 | a base without a trailing `/` is stored unchanged |
| DoubaoConfig.TrimIdempotent | crates/doubao/src/config.rs:223 | trimming twice is trimming once |
| DoubaoConfig.TrimUnique | crates/doubao/src/config.rs:223 | any split into a part not ending in `/` and slashes is the one found |
| DoubaoConfig.UrlAfterWithHttpBase | crates/doubao/src/config.rs:221-237 | after `with_http_base(b + "///")` the URLs are those for `b` trimmed, followed by the path |
| Utf8.EncodeChar | crates/zhipu/src/voice.rs:19 | one byte exactly for ASCII, and then the character's code |
| Utf8.EncodeCharIsUtf8 | crates/zhipu/src/voice.rs:19 | the bytes decode back to the character, with the lead byte in the range for its length and continuation bytes 0x80..0xBF |
| ZhipuVoice.HexDigit | crates/zhipu/src/voice.rs:20 | hex digits are unreserved characters |
| ZhipuVoice.PercentByte | crates/zhipu/src/voice.rs:20 | `%XX` is three characters |
| ZhipuVoice.HexDigitValue | crates/zhipu/src/voice.rs:20 | the digit written for a value below 16 is a hexadecimal digit that reads back as that value |
| ZhipuVoice.PercentBytesAppend | crates/zhipu/src/voice.rs:19-21 | percent-encoding distributes over byte concatenation |
| ZhipuVoice.PercentDecodeByte | crates/zhipu/src/voice.rs:20 | decoding one `%XX` triple gives back its byte |
| ZhipuVoice.EncodeUrlChar | crates/zhipu/src/voice.rs:14-22 | an unreserved character is written as itself, any other as three characters per UTF-8 byte |
| ZhipuVoice.UrlEncoded | crates/zhipu/src/voice.rs:11-26 | the encoding is never shorter than the input, and a string of unreserved characters is left unchanged |
| ZhipuVoice.UrlEncode | crates/zhipu/src/voice.rs:11-26 | the loop builds the in-order concatenation of the characters' encodings |
| ZhipuVoice.PushPercentBytes | crates/zhipu/src/voice.rs:19-21 | the inner loop appends the percent-encoding of the character's UTF-8 bytes |
| ZhipuVoice.EncodeUrlCharCases | crates/zhipu/src/voice.rs:14-22 | each of `a-z A-Z 0-9 - _ . ~` is kept as it is, and any other character becomes `%XX` triples, one per UTF-8 byte |
| ZhipuVoice.UrlEncodedAppend | crates/zhipu/src/voice.rs:13-24 | encoding distributes over string concatenation |
| ZhipuVoice.UrlEncodedShape | crates/zhipu/src/voice.rs:11-26 | the length is one per unreserved character plus three per UTF-8 byte of the others, and the output holds only unreserved characters and `%` |
| ZhipuVoice.PercentDecodeBytes | crates/zhipu/src/voice.rs:19-21 | decoding `%XX` triples gives back their bytes |
| ZhipuVoice.PercentDecodeUrlEncoded | crates/zhipu/src/voice.rs:11-26 | percent-decoding the encoding gives the UTF-8 bytes of the original string |
| ZhipuVoice.VoiceTypeParam | crates/zhipu/src/voice.rs:84-87 | Official is written OFFICIAL, Private is written PRIVATE |
| ZhipuVoice.QueryString | crates/zhipu/src/voice.rs:78-93 | the query string is empty exactly when no filter is given, and otherwise starts with `?` |
| ZhipuVoice.ListUrl | crates/zhipu/src/voice.rs:74-93 | the method appends exactly the specified query string to the endpoint URL |
| ZhipuVoice.QueryStringCases | crates/zhipu/src/voice.rs:78-93 | no `?` without a query or with no filter; `voiceName=` with the encoded name, `voiceType=` with the type, both joined by `&` in that order |
| Strings.JoinLength | crates/openai/src/spec/text.rs:83-87 | a join is as long as its parts plus one separator between each pair of neighbours |
| OpenaiText.TextObject.ToString | crates/openai/src/spec/text.rs:23-27 | a text object displays as its text (holds by definition) |
| OpenaiText.TextObjectFrom | crates/openai/src/spec/text.rs:11-21 | the text object holds the given string and displays as it |
| OpenaiText.PartibleTextContent.ToTexts | crates/openai/src/spec/text.rs:57-62 | a text gives a one-element list; an array gives one entry per part, in order, each the part's text |
| OpenaiText.PartibleTextContent.IntoTexts | crates/openai/src/spec/text.rs:63-68 | the one text, or each part's text in order |
| OpenaiText.IntoTextsIsToTexts | crates/openai/src/spec/text.rs:57-68 | `into_texts` gives the same list as `to_texts` |
| OpenaiText.PartibleTextContent.IsEmpty | crates/openai/src/spec/text.rs:69-74 | empty exactly for an empty text or an array with no parts |
| OpenaiText.PartibleTextContent.Fmt | crates/openai/src/spec/text.rs:76-91 | a text displays as itself |
| OpenaiText.FmtJoinsTexts | crates/openai/src/spec/text.rs:76-91 | the display is the newline-join of `to_texts`, for both variants |
| OpenaiText.EmptyDisplaysEmpty | crates/openai/src/spec/text.rs:69-91 | empty content displays as ""; an array of one empty part also displays as "" but is not empty |
| OpenaiText.PartibleFrom | crates/openai/src/spec/text.rs:92-102 | the Text variant, whose texts are the one string and which is empty exactly for "" |
| OpenaiText.PartibleDefault | crates/openai/src/spec/text.rs:103-107 | `Text("")`, which is empty and displays as "" |
| OpenaiText.UnitaryTextContent.Fmt | crates/openai/src/spec/text.rs:115-121 | unitary content displays as its part's text |
| OpenaiText.UnitaryFrom | crates/openai/src/spec/text.rs:122-132 | the content holds a text object with the string and displays as it |
| OpenaiText.UnitaryFromObject | crates/openai/src/spec/text.rs:133-137 | the part is kept and displayed |
| OpenaiText.UnitaryDefault | crates/openai/src/spec/text.rs:138-142 | the default displays as "" |
| ZhipuTtsSpec.VoiceId | crates/zhipu/src/spec/tts.rs:33-43 | every voice id is non-empty; the three Chinese voices get 彤彤, 锤锤, 小陈, and the other four their serialized names |
| ZhipuTtsSpec.VoiceIdMapping | crates/zhipu/src/spec/tts.rs:35-41 | all seven ids: 彤彤, 锤锤, 小陈, jam, kazi, douji, luodo |
| ZhipuTtsSpec.VoiceOfId | crates/zhipu/src/spec/tts.rs:33-43 | an id found maps back to a voice with that id |
| ZhipuTtsSpec.VoiceIdInjective | crates/zhipu/src/spec/tts.rs:33-43 | every voice is recovered from its id, so no two voices share an id |
| ZhipuTtsSpec.VoiceDisplay | crates/zhipu/src/spec/tts.rs:46-50 | Display equals `as_str` (holds by definition) |
| ZhipuTtsSpec.VoiceSerdeName | crates/zhipu/src/spec/tts.rs:10-28 | a voice serializes to its lowercased variant name: tongtong, chuichui, xiaochen, jam, kazi, douji, luodo |
| ZhipuTtsSpec.VoiceSerdeNameVersusId | crates/zhipu/src/spec/tts.rs:10-43 | the serialized voice name equals `as_str` exactly for jam, kazi, douji and luodo |
| ZhipuTtsSpec.FormatName | crates/zhipu/src/spec/tts.rs:63-72 | Wav is "wav" and Pcm is "pcm", each exactly |
| ZhipuTtsSpec.DefaultFormatIsWav | crates/zhipu/src/spec/tts.rs:53-61 | the default format is named "wav" (holds by definition) |
| ZhipuTtsSpec.ModelName | crates/zhipu/src/spec/tts.rs:94-122 | the model is written "glm-tts" by `as_str`, Display, `From` and Serialize |
| ZhipuTtsSpec.DeserializeModel | crates/zhipu/src/spec/tts.rs:124-135 | only "glm-tts" deserializes; any other string gives an unknown-variant error naming it |
| ZhipuTtsSpec.ModelRoundTrip | crates/zhipu/src/spec/tts.rs:115-135 | deserializing the serialized model gives it back |
| ZhipuTtsSpec.SpeechResponse.AsBytes | crates/zhipu/src/spec/tts.rs:211-213 | `as_bytes` is the audio (holds by definition) |
| ZhipuTtsSpec.NewSpeechResponse | crates/zhipu/src/spec/tts.rs:193-198 | audio and content type are stored unchanged |
| ZhipuAsrSpec.ModelName | crates/zhipu/src/spec/asr.rs:20-24 | the model is written "glm-asr-2512" |
| ZhipuAsrSpec.ModelDisplay | crates/zhipu/src/spec/asr.rs:27-31 | Display equals `as_str` (holds by definition) |
| ZhipuAsrSpec.ModelIntoString | crates/zhipu/src/spec/asr.rs:33-37 | `From<AsrModel> for String` equals `as_str` and Display (holds by definition) |
| ZhipuAsrSpec.DeserializeModel | crates/zhipu/src/spec/asr.rs:48-59 | only "glm-asr-2512" deserializes; any other string gives an unknown-variant error naming it |
| ZhipuAsrSpec.ModelRoundTrip | crates/zhipu/src/spec/asr.rs:39-59 | deserializing the serialized model gives it back |
| ZhipuAsrSpec.FromBytes | crates/zhipu/src/spec/asr.rs:72-77 | `File` with the given data and file name |
| ZhipuAsrSpec.FromBase64 | crates/zhipu/src/spec/asr.rs:80-82 | `Base64` with the given text |
| ZhipuAsrSpec.TranscriptionRequestArgs.constructor | crates/zhipu/src/spec/asr.rs:105-134 | a fresh builder has every slot unset |
| ZhipuAsrSpec.TranscriptionRequestArgs.Audio | crates/zhipu/src/spec/asr.rs:138-141 | only the audio slot changes, to `Some(Some(input))` |
| ZhipuAsrSpec.TranscriptionRequestArgs.AudioBytes | crates/zhipu/src/spec/asr.rs:144-150 | only the audio slot changes, to a `File` input |
| ZhipuAsrSpec.TranscriptionRequestArgs.AudioBase64 | crates/zhipu/src/spec/asr.rs:153-155 | only the audio slot changes, to a `Base64` input |

## Left out

- Networking: `connect_async`, the WebSocket request and its headers, and every HTTP call are outside the model. A socket is a sequence of received messages, and the session id is a parameter, which stands in for `uuid`.
- Concurrency: `tokio::spawn`, `select!`, the mpsc channels and their capacity of 32, and the 100 ms `sleep` are not modelled. The pump is a sequential fold over the events its `select!` would observe, in the order observed. `StreamingSession::close` does nothing in the source.
- `StreamingSession::send_audio`, `recv` and `session_id` only forward through the channels or return a field, so they are not modelled.
- JSON: `serde_json` serialization and parsing are not modelled. Payloads are opaque byte sequences; the StartSession payload is a parameter; the result JSON decoder of `parse_asr_result` is a function parameter returning the three fields it reads.
- The TaskRequest payload that `create` builds is never sent, so it is not modelled. The possible `serde_json::to_value` error before StartSession is left out along with JSON.
- Handshake writes: the `?` on each `write.send` during the handshakes is left out, and every such write is taken to succeed. The pump's audio write result is kept, as a field of each audio event.
- `SecretString` is a plain string here; exposing the secret is reading the field.
- The Doubao `headers` builder needs `reqwest`, and its only error is header-value validation, so it is left out.
- Floating-point fields (speed, volume, word confidence) are left out.
- Environment variables are a map argument of `DoubaoConfig.Default`; file I/O (`save`, `from_path`) and logging are left out.
- The derive-generated builders (`build()`, and setters other than the audio ones) and serde's `Deserialize` for whole configs are generated code and are not modelled.
- `AsrStreaming.ParseAsrResult`: `utterances` is always empty in the source too; `additions` is passed through as the decoder returns it.
- `TtsProtocol.ExtractAudioFromFrame`: the `println!` diagnostics on its `None` paths are left out.
