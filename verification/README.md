# GPTService voice-conversation pipeline, in Dafny

This project models the core of `GPTService`, the Unity component that runs one spoken
conversation turn of an English-coaching app:

1. it records the user;
2. it encodes the clip as a 16-bit PCM WAV file;
3. it sends the WAV file to a speech-to-text service and picks the transcript from the reply,
   scraping the raw JSON when the structured parse finds nothing;
4. it sends the transcript to a chat-completion service, behind a fixed coach prompt;
5. it has the reply synthesised to speech and plays it.

Along the way it raises the events `OnAudioRecordingStarted`, `OnAudioRecordingStopped`,
`OnSpeechToTextStarted`, `OnSpeechToTextCompleted`, `OnGPTThinking`, `OnGPTResponseReceived`,
`OnTextToSpeechStarted`, `OnTextToSpeechCompleted` and `OnError`.

The modules:

- `Wrappers` (`wrappers.dfy`): `Option`, used for C# references that may be null.
- `Bytes` (`bytes.dfy`):
  - bytes and C# `short`/`int`;
  - the wrap-around of C# `int` arithmetic and `(short)` casts;
  - little-endian 16/32-bit encoding, as `BitConverter.GetBytes` and `BinaryWriter.Write` produce it on a little-endian host;
  - readers for those encodings.
- `Wav` (`wav.dfy`): the WAV encoder.
  - `PackPcm` is the sample-packing loop of `AudioClipToWav`, written into an array.
  - `BinaryWriter` is a class whose byte stream is a `seq` the writes append to.
  - `AddWavHeader` writes the 44-byte RIFF/WAVE header, with the PCM "fmt " and "data" chunks of the WAVE form in the Microsoft/IBM Multimedia Programming Interface and Data Specifications 1.0. It uses C#'s wrapping arithmetic.
  - Both methods are proved against the specification functions `PcmBytes` and `WavFile`.
  - `WavFile` is proved against an independent reader, `ParseWav`: every header field reads back at its offset, and the file round-trips to the clip's samples, channel count and rate.
- `Transcript` (`transcript.dfy`):
  - ordinal `IndexOf` and `Contains`, characterised as "first occurrence";
  - the fallback scraper `ExtractTranscriptFromJson`. A transcript it returns is characterised in both directions (`ExtractedTranscript` and `ScraperFinds`), and the cases in which it returns null are listed (`ExtractTranscriptNone`).
- `Messages` (`messages.dfy`): the request and response payloads (`STTConfig`, `STTResponse`, `GPTRequest`, `GPTResponse`, `TTSRequest`, `TTSResponse` and their parts) as already-parsed values.
- `Pipeline` (`pipeline.dfy`): the operations and coroutines as functions.
  - Inputs: what the outside world answers, bundled in `Services`. That is the key, and for each web request a transport error or a body together with what `JsonUtility.FromJson` makes of it. It also holds the playback outcome.
  - Output: the trace of raised events and sent requests, in order.
  - A lifecycle automaton (`Next`, `Run`) is the independent reference. Each coroutine's contract says the automaton accepts its trace from the phase it starts in and the turn settles. The ordering guarantees (a single final error, hand-offs with the same text, no error after a reply) are proved from the automaton alone and then carried over to whole turns.
  - The recording service is reduced to what `GPTService` sees of it (`Recorder`): not assigned, or assigned with a `StopRecording` that returns or throws.

## Model

| member | source | states |
|---|---|---|
| Bytes.WrapInt32 | Assets/Modules/GPTService/Scripts/Internal/GPTService.cs:278-281 | the C# `int` result of the header arithmetic is in the 32-bit signed range and congruent to the exact value modulo 2^32 |
| Bytes.WrapInt16 | Assets/Modules/GPTService/Scripts/Internal/GPTService.cs:292-295 | a `(short)` cast lands in the 16-bit signed range and is congruent to its operand modulo 2^16 |
| Bytes.Le16 | Assets/Modules/GPTService/Scripts/Internal/GPTService.cs:291-296 | the two bytes written for a `short` are low byte first: an independent little-endian reader gives back the value modulo 2^16 |
| Bytes.Le32 | Assets/Modules/GPTService/Scripts/Internal/GPTService.cs:285-294 | the four bytes written for an `int` are lowest byte first: an independent little-endian reader gives back the value modulo 2^32 |
| Bytes.Int16RoundTrip | Assets/Modules/GPTService/Scripts/Internal/GPTService.cs:264-265 | the two bytes of a `short` decode, as two's complement, to the same `short` |
| Bytes.Le32Congruent | Assets/Modules/GPTService/Scripts/Internal/GPTService.cs:278-285 | values congruent modulo 2^32 are written as the same four bytes, so the wrap-around does not change the file |
| Bytes.Le16Congruent | Assets/Modules/GPTService/Scripts/Internal/GPTService.cs:292-295 | values congruent modulo 2^16 are written as the same two bytes |
| Wav.PcmBytes | Assets/Modules/GPTService/Scripts/Internal/GPTService.cs:258-259 | the packed PCM payload has two bytes per sample |
| Wav.PcmBytesAt | Assets/Modules/GPTService/Scripts/Internal/GPTService.cs:261-266 | sample i sits at bytes 2i (low) and 2i+1 (high), and those two bytes decode to sample i |
| Wav.PcmRoundTrip | Assets/Modules/GPTService/Scripts/Internal/GPTService.cs:258-266 | decoding the packed payload gives back exactly the samples, in order |
| Wav.PackPcm | Assets/Modules/GPTService/Scripts/Internal/GPTService.cs:258-266 | the loop fills an array of length 2×samples whose contents are the packed payload |
| Wav.WavFile | Assets/Modules/GPTService/Scripts/Internal/GPTService.cs:273-309 | the WAV file is exactly 44 bytes longer than its payload |
| Wav.WavLayout | Assets/Modules/GPTService/Scripts/Internal/GPTService.cs:284-301 | the offsets of every header field and their contents: "RIFF" at 0, chunk size 36+\|pcm\| at 4, "WAVE" at 8, "fmt " at 12, 16 at 16, 1 at 20, channels at 22, sample rate at 24, sample rate×channels×2 at 28, channels×2 at 32, 16 at 34, "data" at 36, \|pcm\| at 40, and the payload unchanged from 44 on (all little-endian, modulo the field width) |
| Wav.ParseWav | Assets/Modules/GPTService/Scripts/Internal/GPTService.cs:273-309 | the independent WAV reader accepts only files of at least 44 bytes, and the payload it returns is everything from byte 44 on |
| Wav.WavRoundTrip | Assets/Modules/GPTService/Scripts/Internal/GPTService.cs:273-309 | when the sizes fit their fields, an independent WAV reader accepts the file and returns its channels, rate, byte rate, block align and payload |
| Wav.ClipRoundTrip | Assets/Modules/GPTService/Scripts/Internal/GPTService.cs:252-270 | the WAV file of a clip reads back as the clip's channel count, frequency and samples |
| Wav.BinaryWriter.constructor | Assets/Modules/GPTService/Scripts/Internal/GPTService.cs:275-276 | a new writer over an empty stream has written nothing |
| Wav.BinaryWriter.WriteBytes | Assets/Modules/GPTService/Scripts/Internal/GPTService.cs:284 | writing a byte array appends it to the stream |
| Wav.BinaryWriter.WriteInt32 | Assets/Modules/GPTService/Scripts/Internal/GPTService.cs:285 | writing an `int` appends its four little-endian bytes |
| Wav.BinaryWriter.WriteInt16 | Assets/Modules/GPTService/Scripts/Internal/GPTService.cs:291 | writing a `short` appends its two little-endian bytes |
| Wav.BinaryWriter.ToArray | Assets/Modules/GPTService/Scripts/Internal/GPTService.cs:304 | the returned array holds exactly the bytes written |
| Wav.WrappedHeaderAgrees | Assets/Modules/GPTService/Scripts/Internal/GPTService.cs:278-296 | the chunks written from the wrapped `int`/`short` fields are byte for byte the chunks of the exact values |
| Wav.WriteRiffChunk | Assets/Modules/GPTService/Scripts/Internal/GPTService.cs:283-286 | the RIFF writes append the RIFF chunk header for the given chunk size |
| Wav.WriteFmtChunk | Assets/Modules/GPTService/Scripts/Internal/GPTService.cs:288-296 | the "fmt " writes append the 24-byte PCM format chunk |
| Wav.WriteDataChunk | Assets/Modules/GPTService/Scripts/Internal/GPTService.cs:298-301 | the "data" writes append the data chunk header and then the payload unchanged |
| Wav.AddWavHeader | Assets/Modules/GPTService/Scripts/Internal/GPTService.cs:273-309 | the returned bytes are the WAV file of the payload, channels and sample rate, despite the wrapping arithmetic |
| Wav.AudioClipToWav | Assets/Modules/GPTService/Scripts/Internal/GPTService.cs:252-270 | the result is the WAV file of the clip's packed samples, 44 + 2×samples bytes long |
| Transcript.IndexOf | Assets/Modules/GPTService/Scripts/Internal/GPTService.cs:233-237 | the result is the first index at or after `from` where the pattern occurs, or -1 exactly when it occurs nowhere from there |
| Transcript.Contains | Assets/Modules/GPTService/Scripts/Internal/GPTService.cs:175 | true exactly when the pattern occurs somewhere |
| Transcript.ExtractTranscriptFromJson | Assets/Modules/GPTService/Scripts/Internal/GPTService.cs:228-249 | a transcript the scraper returns is never empty and never holds a quote |
| Transcript.ExtractedTranscript | Assets/Modules/GPTService/Scripts/Internal/GPTService.cs:233-240 | a scraped transcript is `json[s..e]`: s is one past the first quote at or after the end of the first `"transcript":`, e is the next quote; it is non-empty and holds no quote |
| Transcript.ExtractTranscriptNone | Assets/Modules/GPTService/Scripts/Internal/GPTService.cs:233-248 | the scraper returns null when the key is missing, when no quote follows it, or when the quote after it is followed by no quote or directly by another quote |
| Transcript.ScraperFinds | Assets/Modules/GPTService/Scripts/Internal/GPTService.cs:233-241 | conversely, when the key occurs, a quote follows its first occurrence and a further quote follows that one with at least one character between, the scraper returns exactly the text between those two quotes |
| Pipeline.StartRecording | Assets/Modules/GPTService/Scripts/Internal/GPTService.cs:73-84 | one step: with a recorder the lifecycle moves from idle to recording; without one it reports "Recording service not assigned." and the turn fails |
| Pipeline.StopRecording | Assets/Modules/GPTService/Scripts/Internal/GPTService.cs:89-102 | without a recorder the call is a failed turn of its own; a recorder that throws ends the call with nothing raised; otherwise `OnAudioRecordingStopped` comes first and the lifecycle accepts the whole trace from the recording phase, ending settled |
| Pipeline.ProcessRecording | Assets/Modules/GPTService/Scripts/Internal/GPTService.cs:108-222 | processing starts with `OnSpeechToTextStarted`, and every trace of the coroutine is accepted from the stopped phase and ends settled |
| Pipeline.Recognize | Assets/Modules/GPTService/Scripts/Internal/GPTService.cs:163-222 | a refused reply carries one of the three recognition messages; a forwarded transcript comes from a non-empty body that mentions "results" and parsed without an exception; without structured results it is the scraper's output, which is not null or empty |
| Pipeline.Transcribe | Assets/Modules/GPTService/Scripts/Internal/GPTService.cs:163-222 | every trace after the speech-to-text request, including the completion and synthesis it starts, is accepted from the awaiting-transcript phase and ends settled |
| Pipeline.ChatRequest | Assets/Modules/GPTService/Scripts/Internal/GPTService.cs:320-329 | the chat request uses gpt-3.5-turbo and has exactly two messages: the system message with the coach prompt, then the user message, from which the input text reads back unchanged |
| Pipeline.SendTextToGPT | Assets/Modules/GPTService/Scripts/Internal/GPTService.cs:314-365 | `OnGPTThinking` and then the chat request for the given text come first; every completion trace, including one started by the public `SendTextToGPT` at lines 503-506, is accepted from the transcribed phase and ends settled |
| Pipeline.PlaceholderKeyRefused | Assets/Modules/GPTService/Scripts/Internal/GPTService.cs:373-377 | a missing key, an empty key and every key beginning with `YOUR_` are refused, and a real-looking key is accepted |
| Pipeline.TextToSpeech | Assets/Modules/GPTService/Scripts/Internal/GPTService.cs:367-445 | synthesis starts with `OnTextToSpeechStarted`, and every synthesis trace is accepted from the replied phase and ends settled |
| Pipeline.Play | Assets/Modules/GPTService/Scripts/Internal/GPTService.cs:416-441 | saving, loading and playing the clip are accepted once the synthesis request is out, and `OnTextToSpeechCompleted` is raised exactly when the clip plays |
| Pipeline.NoClipReported | Assets/Modules/GPTService/Scripts/Internal/GPTService.cs:108-121 | with no recorded clip, processing announces its start, reports "No recorded audio found." and sends nothing |
| Pipeline.SttAudioIsWav | Assets/Modules/GPTService/Scripts/Internal/GPTService.cs:122-147 | the speech-to-text request declares the clip's frequency, and its audio is a RIFF/WAVE file whose header states that same rate |
| Pipeline.TranscriptionFailures | Assets/Modules/GPTService/Scripts/Internal/GPTService.cs:163-207 | a transport failure, an empty body or one without "results", and a parse exception or missing alternative each end processing with exactly one error carrying its own message; the completion step never starts |
| Pipeline.StructuredTranscriptForwarded | Assets/Modules/GPTService/Scripts/Internal/GPTService.cs:186-215 | when the structured parse has results, the first alternative's transcript is announced and handed to the completion step as it is, even when it is null or empty |
| Pipeline.FallbackTranscript | Assets/Modules/GPTService/Scripts/Internal/GPTService.cs:195-222 | otherwise the scraper decides: a scraped transcript (never empty) is announced and handed on; no transcript gives "Could not recognize speech. Please try again." |
| Pipeline.CompletionOutcomes | Assets/Modules/GPTService/Scripts/Internal/GPTService.cs:314-365 | `OnGPTThinking` then the chat request come first; a transport failure reports "GPT API Error: " and the error; an unreadable body ends silently; a null response or missing/empty choices reports the invalid-structure error; otherwise the first choice's content is announced and synthesis runs on that same text |
| Pipeline.SpeechOutcomes | Assets/Modules/GPTService/Scripts/Internal/GPTService.cs:367-445 | synthesis starts with its event and never reports an error; without a usable key it stops before any request; otherwise it first requests the reply text; it completes exactly when the key is usable, the reply carries audio and the clip plays |
| Pipeline.TurnAccepted | Assets/Modules/GPTService/Scripts/Internal/GPTService.cs:73-102 | with a recorder whose stop returns, a whole turn (start, stop, and the coroutines they start) is accepted by the lifecycle and ends settled; a recorder that throws on stop leaves the turn recording; without a recorder the turn is two "Recording service not assigned." errors, which no single turn allows, and each call alone is a failed turn |
| Pipeline.RunAppend | Assets/Modules/GPTService/Scripts/Internal/GPTService.cs:209-216 | running two stages one after the other is running their concatenated traces |
| Pipeline.ErrorEndsTurn | Assets/Modules/GPTService/Scripts/Internal/GPTService.cs:163-222 | in any allowed trace an error is the last step, and the turn ends failed |
| Pipeline.SpeakingNoError | Assets/Modules/GPTService/Scripts/Internal/GPTService.cs:367-445 | after the reply the lifecycle stays in the speaking phases and no error can occur |
| Pipeline.NoErrorAfterReply | Assets/Modules/GPTService/Scripts/Internal/GPTService.cs:353-357 | in any allowed trace no error follows a received reply |
| Pipeline.TranscriptHandedOn | Assets/Modules/GPTService/Scripts/Internal/GPTService.cs:213-216 | in a settled trace a completed transcript is directly followed by `OnGPTThinking` and by a chat request whose user message is that transcript |
| Pipeline.ReplyHandedOn | Assets/Modules/GPTService/Scripts/Internal/GPTService.cs:353-357 | in a settled trace a received reply is directly followed by `OnTextToSpeechStarted`, and the next request, if any, synthesises that reply |
| Pipeline.TurnErrorIsLast | Assets/Modules/GPTService/Scripts/Internal/GPTService.cs:73-222 | with a recorder assigned, at most one error is reported in a turn, as its last event; without one, both steps of the turn are the same error |
| Pipeline.TurnForwardsTranscript | Assets/Modules/GPTService/Scripts/Internal/GPTService.cs:213-216 | in every turn each announced transcript is sent, unchanged, as the user message of the next chat request |
| Pipeline.TurnSpeaksReply | Assets/Modules/GPTService/Scripts/Internal/GPTService.cs:353-357 | in every turn each announced reply is followed by the start of synthesis, and the synthesis request asks for that reply |

## Left out

- Network I/O: `UnityWebRequest`, URLs, headers and the waits on `SendWebRequest`. Each request is a `Send` step and its result is a parameter: a transport error or a body. An HTTP failure and a transport failure are the same case, as in the source.
- JSON and Base64. `JsonUtility.ToJson`/`FromJson` and `Convert.ToBase64String`/`FromBase64String` are foreign calls. Parsed values are datatypes, and what `FromJson` does is a parameter: it throws, returns null, or returns an object. The speech-to-text request carries the WAV bytes before Base64 encoding.
- `AudioClipToWav`: the float-to-`short` quantisation `(short)(samples[i] * short.MaxValue)` at line 263 and `clip.GetData` are left out; they are floating point and engine API. The model starts from the quantised interleaved samples.
- `BitConverter.GetBytes` is modelled as little-endian, which is the byte order on the platforms Unity targets.
- Writing `tts.mp3`, loading it as a clip, `audioSource.Play` and the wait of `clip.length` (lines 416-441) are file and audio I/O and timing. They are reduced to the outcome `Playback`: the decode or write throws, the load fails, no audio source, or played. The Android path rewrite at lines 421-424 is left out as well.
- The recording service (`RecordingService`) is not part of this model: its microphone permission and device checks, the trimming and the saving of the clip. `Recorder` keeps only whether a recorder is assigned and whether its `StopRecording` throws. It throws when no recording was ever started, because it then trims a null clip. A start the recorder itself refuses still raises `OnAudioRecordingStarted`. The last recorded clip is a parameter.
- The second `recordAudio == null` test in `ProcessRecordingCoroutine` (line 116) is folded into the missing-clip case. The coroutine is only started by `StopRecording`, after a recorder was found.
- `Debug.Log` and `Debug.LogError` are not part of the model. They are what the synthesis step does instead of raising `OnError`.
- The unused `TextToSpeechCoroutine` (lines 462-497) is not called anywhere.
- Coroutine scheduling is not part of this model. `StartCoroutine` runs each stage to the end, so overlapping runs, and events from two turns interleaving, are not modelled; one turn is one sequential trace.
- `IndexOf`, `Contains` and `StartsWith` are modelled as ordinal comparisons. C#'s `string.IndexOf(string)` and `StartsWith(string)` are culture-sensitive, which matters only for characters that the culture's rules ignore or fold.
- Nullability:
  - String and array fields of deserialised objects may be null (`Option`).
  - Nested objects and array elements are taken to be present, as `JsonUtility` creates them.
  - `message` of the first choice is therefore never null.
- `STTAlternative.confidence` (a `float`) is not read by the pipeline and is not modelled.
- Where the code differs from the intended design, the model follows the code:
  - `StartRecording` and `StopRecording` check only that a recorder is assigned. There is no idle state, no guard against a second run and no cancellation.
  - An empty or null transcript from the structured parse is handed on (lines 192-193).
  - A missing `content` in the first choice is announced as the reply rather than treated as an error.
  - Every synthesis failure only logs, so no `OnError` is raised after a reply.
  - An unreadable completion or synthesis body (`FromJson` throwing outside any `try`) ends the coroutine with no event.
  - An empty recording is not an error: it gives a 44-byte file.
  - The event names are the source's.
- Wav.WavRoundTrip: requires that the channel count fits 16 bits, the rate is not negative and the file fits 32-bit sizes. Outside those bounds the header fields wrap, and `WavLayout` states what they then hold.
- Wav.ClipRoundTrip: has the same bounds as `WavRoundTrip`.
- Pipeline.TurnAccepted: the lifecycle accepts and settles only a turn whose recorder stops normally. A recorder that throws on stop leaves the turn in the recording phase. Without a recorder the turn is two errors, which the lifecycle rejects as one turn; the lemma states that trace and that each call alone is a failed turn.
- Pipeline.TurnErrorIsLast: "at most one error, as the last event" holds only with a recorder assigned. Without one, each of the two calls reports the same error, as the lemma states.
