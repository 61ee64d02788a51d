/**
 * The conversation pipeline of GPTService: record, transcribe (speech-to-text), ask the
 * chat-completion service, and speak the reply (text-to-speech). Each public operation and
 * coroutine is a function from what the outside world answers to the trace it produces:
 * the events it raises and the requests it sends, in order.
 *
 * A lifecycle automaton (`Next`, `Run`) states independently which traces are allowed;
 * the lemmas at the end show that every trace the pipeline produces is accepted by it and
 * derive the ordering guarantees from the automaton alone.
 */
module Pipeline {
  import opened Wrappers
  import opened Bytes
  import opened Wav
  import opened Transcript
  import opened Messages

  // ---------------------------------------------------------------- events and requests

  /** The public C# events of GPTService. */
  datatype Event =
    | AudioRecordingStarted
    | AudioRecordingStopped
    | SpeechToTextStarted
    | SpeechToTextCompleted(transcript: Option<string>)
    | GPTThinking
    | GPTResponseReceived(reply: Option<string>)
    | TextToSpeechStarted
    | TextToSpeechCompleted
    | Error(message: string)

  /**
   * The web requests GPTService sends. The speech-to-text request carries the WAV bytes
   * before Base64 encoding; `LoadClip` reads the saved MP3 back as an audio clip.
   */
  datatype Request =
    | RecognizeSpeech(config: STTConfig, audio: seq<byte>)
    | ChatCompletion(body: GPTRequest)
    | SynthesizeSpeech(speech: TTSRequest)
    | LoadClip

  datatype Step = Emit(event: Event) | Send(request: Request)

  // ---------------------------------------------------------------- the outside world

  /** How a web request ended: a transport or HTTP failure with its message, or a body. */
  datatype Transport<T> = NetworkError(error: string) | Delivered(body: T)

  /** What `JsonUtility.FromJson` made of a body: an exception, null, or an object. */
  datatype Deserialized<T> = Threw | Null | Parsed(value: T)

  /** A speech-to-text reply: the raw text (null or not) and what the structured parse gives. */
  datatype SttReply = SttReply(text: Option<string>, parsed: Deserialized<STTResponse>)

  /**
   * What happens after a non-empty synthesis reply: the Base64 decode or the file write
   * throws, loading the saved clip fails, no audio source is set, or the clip plays.
   */
  datatype Playback = SaveThrew | LoadFailed(error: string) | NoAudioSource | Played

  /** Everything the pipeline learns from outside, for one run. */
  datatype Services = Services(
    googleCloudKey: Option<string>,
    stt: Transport<SttReply>,
    gpt: Transport<Deserialized<GPTResponse>>,
    tts: Transport<Deserialized<TTSResponse>>,
    playback: Playback)

  // ---------------------------------------------------------------- messages and constants

  const RecorderMissing: string := "Recording service not assigned."
  const NoRecordedAudio: string := "No recorded audio found."
  const SttFailedPrefix: string := "Speech recognition failed: "
  const NoResults: string := "Speech recognition returned no results. Please try speaking more clearly."
  const ProcessingFailed: string := "Error processing speech recognition results."
  const NotRecognized: string := "Could not recognize speech. Please try again."
  const GptErrorPrefix: string := "GPT API Error: "
  const InvalidGptResponse: string := "Invalid GPT API response structure."

  const GptModel: string := "gpt-3.5-turbo"
  const CoachPrompt: string := "You are an English language coach. Engage in a friendly conversation, correct the user's mistakes, and provide constructive feedback to help improve their spoken English."

  /** `string.IsNullOrEmpty`. */
  predicate IsNullOrEmpty(s: Option<string>)
  {
    s.None? || |s.value| == 0
  }

  /** `s.StartsWith(p)`, ordinal. */
  predicate StartsWith(s: string, p: string)
  {
    |p| <= |s| && s[..|p|] == p
  }

  // ---------------------------------------------------------------- recording

  /**
   * The recording service as GPTService sees it: not assigned, or assigned, with its
   * `StopRecording` either returning or throwing. It throws when no recording was ever
   * started (the microphone permission was refused or there is no microphone), because it
   * then trims a null clip.
   */
  datatype Recorder = Unassigned | Assigned(stopThrows: bool)

  /** `StartRecording`: with a recorder a turn begins; without one it fails at once. */
  function StartRecording(recorder: Recorder): (steps: seq<Step>)
    ensures |steps| == 1
    ensures Run(Idle, steps) == Some(if recorder.Assigned? then Recording else Failed)
  {
    if recorder.Assigned? then [Emit(AudioRecordingStarted)] else [Emit(Error(RecorderMissing))]
  }

  /**
   * `StopRecording`: stops the recorder, announces it and runs the processing coroutine on
   * the last clip, and the turn settles. A recorder that throws ends the call before anything
   * is announced; without a recorder the call is a failed turn of its own.
   */
  function StopRecording(recorder: Recorder, lastClip: Option<AudioClip>, env: Services): (steps: seq<Step>)
    ensures recorder.Unassigned? ==> Run(Idle, steps) == Some(Failed)
    ensures recorder == Assigned(true) ==> steps == []
    ensures recorder == Assigned(false) ==>
      && |steps| >= 3 && steps[0] == Emit(AudioRecordingStopped)
      && Run(Recording, steps).Some? && Settled(Run(Recording, steps).value)
  {
    match recorder
    case Unassigned => [Emit(Error(RecorderMissing))]
    case Assigned(stopThrows) =>
      if stopThrows then []
      else
        RunCons(Recording, Emit(AudioRecordingStopped), ProcessRecording(lastClip, env));
        [Emit(AudioRecordingStopped)] + ProcessRecording(lastClip, env)
  }

  // ---------------------------------------------------------------- speech to text

  /**
   * The speech-to-text request for a clip: LINEAR16 at the clip's frequency, US English, the
   * default model with enhancement and automatic punctuation.
   */
  function SttRequest(clip: AudioClip): Request
  {
    RecognizeSpeech(
      STTConfig("LINEAR16", clip.frequency, "en-US", "default", true, true),
      WavFile(PcmBytes(clip.samples), clip.channels, clip.frequency))
  }

  /** What the reply handling decides: a transcript to forward (possibly null or empty), or an error. */
  datatype Recognition = Recognized(transcript: Option<string>) | Unrecognized(message: string)

  /**
   * The handling of a delivered speech-to-text reply: a body that is empty or does not
   * mention `results` is refused; a structured parse with results takes the first
   * alternative of the first result (a missing alternative is an exception, reported as a
   * processing error); otherwise the text is scraped, and only a non-empty scrape counts.
   */
  function Recognize(reply: SttReply): (r: Recognition)
    ensures r.Unrecognized? ==> r.message in {NoResults, ProcessingFailed, NotRecognized}
    ensures r.Recognized? ==>
      !IsNullOrEmpty(reply.text) && Contains(reply.text.value, "results") && !reply.parsed.Threw?
    ensures r.Recognized? && !HasResults(reply.parsed) ==>
      r.transcript == ExtractTranscriptFromJson(reply.text.value) && !IsNullOrEmpty(r.transcript)
  {
    if IsNullOrEmpty(reply.text) || !Contains(reply.text.value, "results") then Unrecognized(NoResults)
    else if reply.parsed.Threw? then Unrecognized(ProcessingFailed)
    else if HasResults(reply.parsed) then
      var alternatives := reply.parsed.value.results.value[0].alternatives;
      if alternatives.None? || |alternatives.value| == 0 then Unrecognized(ProcessingFailed)
      else Recognized(alternatives.value[0].transcript)
    else
      var scraped := ExtractTranscriptFromJson(reply.text.value);
      if IsNullOrEmpty(scraped) then Unrecognized(NotRecognized) else Recognized(scraped)
  }

  /** The structured parse gave an object whose `results` is a non-empty array. */
  predicate HasResults(parsed: Deserialized<STTResponse>)
  {
    parsed.Parsed? && parsed.value.results.Some? && |parsed.value.results.value| > 0
  }

  /**
   * `ProcessRecordingCoroutine`: transcribe the last clip and hand the text on. From the
   * stopped phase the lifecycle accepts the whole trace, and the turn settles.
   */
  function ProcessRecording(lastClip: Option<AudioClip>, env: Services): (steps: seq<Step>)
    ensures |steps| >= 2 && steps[0] == Emit(SpeechToTextStarted)
    ensures Run(Stopped, steps).Some? && Settled(Run(Stopped, steps).value)
  {
    var rest :=
      match lastClip {
        case None => [Emit(Error(NoRecordedAudio))]
        case Some(clip) =>
          SttAudioIsWav(clip);
          RunCons(Transcribing, Send(SttRequest(clip)), Transcribe(env));
          [Send(SttRequest(clip))] + Transcribe(env)
      };
    RunCons(Stopped, Emit(SpeechToTextStarted), rest);
    [Emit(SpeechToTextStarted)] + rest
  }

  /**
   * What follows the speech-to-text request: one error, or the transcript and the completion
   * step. The lifecycle accepts it once the request is out, and the turn settles.
   */
  function Transcribe(env: Services): (steps: seq<Step>)
    ensures Run(AwaitingTranscript, steps).Some? && Settled(Run(AwaitingTranscript, steps).value)
  {
    match env.stt
    case NetworkError(e) => [Emit(Error(SttFailedPrefix + e))]
    case Delivered(reply) =>
      match Recognize(reply)
      case Unrecognized(message) => [Emit(Error(message))]
      case Recognized(t) =>
        RunCons(AwaitingTranscript, Emit(SpeechToTextCompleted(t)), SendTextToGPT(t, env));
        [Emit(SpeechToTextCompleted(t))] + SendTextToGPT(t, env)
  }

  // ---------------------------------------------------------------- chat completion

  /** The chat request: the coach instructions as the system message, then the user's text. */
  function ChatRequest(text: Option<string>): (r: GPTRequest)
    ensures r.model == GptModel && |r.messages| == 2
    ensures r.messages[0] == GPTMessage(Some("system"), Some(CoachPrompt))
    ensures UserUtterance(r) == Some(text)
  {
    GPTRequest(GptModel, [GPTMessage(Some("system"), Some(CoachPrompt)), GPTMessage(Some("user"), text)])
  }

  /** What the user said in a chat request of this shape, if it has that shape. */
  function UserUtterance(r: GPTRequest): Option<Option<string>>
  {
    if |r.messages| == 2 && r.messages[0].role == Some("system") && r.messages[1].role == Some("user")
    then Some(r.messages[1].content)
    else None
  }

  /**
   * `SendTextToGPTCoroutine`. A body that `FromJson` cannot read ends the coroutine silently.
   * The request always carries the text it was given; from a transcript the lifecycle accepts
   * the whole trace, and the turn settles.
   */
  function SendTextToGPT(text: Option<string>, env: Services): (steps: seq<Step>)
    ensures |steps| >= 2 && steps[..2] == [Emit(GPTThinking), Send(ChatCompletion(ChatRequest(text)))]
    ensures Run(Transcribed(text), steps).Some? && Settled(Run(Transcribed(text), steps).value)
  {
    var head := [Emit(GPTThinking), Send(ChatCompletion(ChatRequest(text)))];
    var tail :=
      match env.gpt {
        case NetworkError(e) => [Emit(Error(GptErrorPrefix + e))]
        case Delivered(parsed) =>
          if parsed.Threw? then []
          else if HasChoices(parsed) then
            var reply := parsed.value.choices.value[0].message.content;
            RunCons(AwaitingReply, Emit(GPTResponseReceived(reply)), TextToSpeech(reply, env));
            [Emit(GPTResponseReceived(reply))] + TextToSpeech(reply, env)
          else [Emit(Error(InvalidGptResponse))]
      };
    RunCons(Transcribed(text), head[0], head[1..]);
    RunCons(Thinking(text), head[1], []);
    RunAppend(Transcribed(text), head, tail);
    head + tail
  }

  /** The completion parse gave an object whose `choices` is a non-empty array. */
  predicate HasChoices(parsed: Deserialized<GPTResponse>)
  {
    parsed.Parsed? && parsed.value.choices.Some? && |parsed.value.choices.value| > 0
  }

  // ---------------------------------------------------------------- text to speech

  /** A key that is set and is not the `YOUR_...` placeholder. */
  predicate ValidKey(key: Option<string>)
  {
    !IsNullOrEmpty(key) && !StartsWith(key.value, "YOUR_")
  }

  /** A missing key, an empty key and every key in the placeholder form are refused. */
  lemma PlaceholderKeyRefused(suffix: string)
    ensures !ValidKey(None) && !ValidKey(Some(""))
    ensures !ValidKey(Some("YOUR_" + suffix))
    ensures ValidKey(Some("AIza" + suffix))
  {
    assert ("YOUR_" + suffix)[..5] == "YOUR_";
    assert ("AIza" + suffix)[0] == 'A';
  }

  /** The synthesis request: the text, the en-US Wavenet-D voice, MP3 audio. */
  function SpeechRequest(text: Option<string>): TTSRequest
  {
    TTSRequest(TTSInput(text), TTSVoice("en-US", "en-US-Wavenet-D"), TTSConfig("MP3"))
  }

  /**
   * `TextToSpeechGoogleCoroutine`. None of its failures raises an event. From a reply the
   * lifecycle accepts the whole trace, and the turn settles.
   */
  function TextToSpeech(text: Option<string>, env: Services): (steps: seq<Step>)
    ensures |steps| >= 1 && steps[0] == Emit(TextToSpeechStarted)
    ensures Run(Replied(text), steps).Some? && Settled(Run(Replied(text), steps).value)
  {
    var rest :=
      if !ValidKey(env.googleCloudKey) then []
      else (
        var audio := if SpeechDelivered(env.tts) then Play(env.playback) else [];
        RunCons(Synthesizing(text), Send(SynthesizeSpeech(SpeechRequest(text))), audio);
        [Send(SynthesizeSpeech(SpeechRequest(text)))] + audio);
    RunCons(Replied(text), Emit(TextToSpeechStarted), rest);
    [Emit(TextToSpeechStarted)] + rest
  }

  /** A synthesis reply that carries audio. */
  predicate SpeechDelivered(tts: Transport<Deserialized<TTSResponse>>)
  {
    tts.Delivered? && tts.body.Parsed? && !IsNullOrEmpty(tts.body.value.audioContent)
  }

  /**
   * Saving, loading and playing the synthesized clip. The lifecycle accepts it once the
   * synthesis request is out, and it completes exactly when the clip plays.
   */
  function Play(playback: Playback): (steps: seq<Step>)
    ensures Run(AwaitingSpeech, steps).Some? && Settled(Run(AwaitingSpeech, steps).value)
    ensures Emit(TextToSpeechCompleted) in steps <==> playback.Played?
  {
    match playback
    case SaveThrew => []
    case LoadFailed(_) => [Send(LoadClip)]
    case NoAudioSource => [Send(LoadClip)]
    case Played =>
      RunCons(AwaitingSpeech, Send(LoadClip), [Emit(TextToSpeechCompleted)]);
      [Send(LoadClip), Emit(TextToSpeechCompleted)]
  }

  // ---------------------------------------------------------------- lifecycle automaton

  /** Where a conversation turn stands. */
  datatype Phase =
    | Idle
    | Recording
    | Stopped
    | Transcribing
    | AwaitingTranscript
    | Transcribed(transcript: Option<string>)
    | Thinking(transcript: Option<string>)
    | AwaitingReply
    | Replied(reply: Option<string>)
    | Synthesizing(reply: Option<string>)
    | AwaitingSpeech
    | LoadingClip
    | Spoken
    | Failed

  /**
   * The audio of a speech-to-text request is a RIFF/WAVE file whose header names the
   * sample rate the request declares.
   */
  predicate WavForRate(audio: seq<byte>, rate: int32)
  {
    |audio| >= HeaderSize && audio[0..4] == Ascii("RIFF") && audio[8..12] == Ascii("WAVE")
    && ReadU32(audio, 24) == rate % 0x1_0000_0000
  }

  /** The allowed moves. An error is possible only before the reply arrives, and ends the turn. */
  function Next(p: Phase, s: Step): (q: Option<Phase>)
  {
    match (p, s)
    case (Idle, Emit(AudioRecordingStarted)) => Some(Recording)
    case (Idle, Emit(Error(_))) => Some(Failed)
    case (Recording, Emit(AudioRecordingStopped)) => Some(Stopped)
    case (Recording, Emit(Error(_))) => Some(Failed)
    case (Stopped, Emit(SpeechToTextStarted)) => Some(Transcribing)
    case (Transcribing, Send(RecognizeSpeech(config, audio))) =>
      if WavForRate(audio, config.sampleRateHertz) then Some(AwaitingTranscript) else None
    case (Transcribing, Emit(Error(_))) => Some(Failed)
    case (AwaitingTranscript, Emit(SpeechToTextCompleted(t))) => Some(Transcribed(t))
    case (AwaitingTranscript, Emit(Error(_))) => Some(Failed)
    case (Transcribed(t), Emit(GPTThinking)) => Some(Thinking(t))
    case (Thinking(t), Send(ChatCompletion(body))) =>
      if UserUtterance(body) == Some(t) then Some(AwaitingReply) else None
    case (AwaitingReply, Emit(GPTResponseReceived(r))) => Some(Replied(r))
    case (AwaitingReply, Emit(Error(_))) => Some(Failed)
    case (Replied(r), Emit(TextToSpeechStarted)) => Some(Synthesizing(r))
    case (Synthesizing(r), Send(SynthesizeSpeech(speech))) =>
      if speech.input.text == r then Some(AwaitingSpeech) else None
    case (AwaitingSpeech, Send(LoadClip)) => Some(LoadingClip)
    case (LoadingClip, Emit(TextToSpeechCompleted)) => Some(Spoken)
    case _ => None
  }

  /** The phase after a whole trace, or `None` if some step is not allowed. */
  function Run(p: Phase, steps: seq<Step>): (q: Option<Phase>)
    decreases |steps|
  {
    if steps == [] then Some(p)
    else match Next(p, steps[0])
      case None => None
      case Some(q) => Run(q, steps[1..])
  }

  /**
   * The phases a turn can stop in: finished, failed, or silently abandoned while waiting on
   * the completion or synthesis services. A turn never stops between a transcript and its
   * chat request, or between a reply and the start of synthesis.
   */
  predicate Settled(p: Phase)
  {
    p.Failed? || p.AwaitingReply? || p.Synthesizing? || p.AwaitingSpeech? || p.LoadingClip? || p.Spoken?
  }

  /** Phases from which no error can follow any more. */
  predicate Speaking(p: Phase)
  {
    p.Replied? || p.Synthesizing? || p.AwaitingSpeech? || p.LoadingClip? || p.Spoken?
  }

  // ---------------------------------------------------------------- the automaton's guarantees

  lemma RunCons(p: Phase, s: Step, rest: seq<Step>)
    ensures Run(p, [s] + rest) == if Next(p, s).None? then None else Run(Next(p, s).value, rest)
  {
    assert ([s] + rest)[0] == s;
    assert ([s] + rest)[1..] == rest;
  }

  /** Running two traces one after the other is running their concatenation. */
  lemma {:induction false} RunAppend(p: Phase, a: seq<Step>, b: seq<Step>)
    ensures Run(p, a + b) == if Run(p, a).None? then None else Run(Run(p, a).value, b)
    decreases |a|
  {
    if a == [] {
      assert a + b == b;
    } else {
      assert a + b == [a[0]] + (a[1..] + b);
      assert a == [a[0]] + a[1..];
      RunCons(p, a[0], a[1..] + b);
      RunCons(p, a[0], a[1..]);
      if Next(p, a[0]).Some? {
        RunAppend(Next(p, a[0]).value, a[1..], b);
      }
    }
  }

  /** In an accepted trace an error is the last step: at most one error per turn, nothing after it. */
  lemma {:induction false} ErrorEndsTurn(p: Phase, steps: seq<Step>, i: int)
    requires Run(p, steps).Some?
    requires 0 <= i < |steps| && steps[i].Emit? && steps[i].event.Error?
    ensures i == |steps| - 1 && Run(p, steps) == Some(Failed)
    decreases |steps|
  {
    var q := Next(p, steps[0]).value;
    if i == 0 {
      assert q == Failed;
      assert Run(p, steps) == Run(Failed, steps[1..]);
    } else {
      ErrorEndsTurn(q, steps[1..], i - 1);
    }
  }

  /** Once the reply has arrived, the phase stays among the speaking phases. */
  lemma {:induction false} SpeakingNoError(p: Phase, steps: seq<Step>)
    requires Speaking(p) && Run(p, steps).Some?
    ensures Speaking(Run(p, steps).value)
    ensures forall k :: 0 <= k < |steps| ==> !(steps[k].Emit? && steps[k].event.Error?)
    decreases |steps|
  {
    if steps != [] {
      var q := Next(p, steps[0]).value;
      SpeakingNoError(q, steps[1..]);
      assert forall k :: 1 <= k < |steps| ==> steps[k] == steps[1..][k - 1];
    }
  }

  /** No error is reported after a reply has been received. */
  lemma {:induction false} NoErrorAfterReply(p: Phase, steps: seq<Step>, i: int, j: int)
    requires Run(p, steps).Some?
    requires 0 <= i < j < |steps| && steps[i].Emit? && steps[i].event.GPTResponseReceived?
    ensures !(steps[j].Emit? && steps[j].event.Error?)
    decreases |steps|
  {
    var q := Next(p, steps[0]).value;
    if i == 0 {
      SpeakingNoError(q, steps[1..]);
      assert steps[j] == steps[1..][j - 1];
    } else {
      NoErrorAfterReply(q, steps[1..], i - 1, j - 1);
    }
  }

  /**
   * In a turn that has settled, a completed transcript is followed at once by `OnGPTThinking`
   * and by a chat request whose user message is that very transcript.
   */
  lemma {:induction false} TranscriptHandedOn(p: Phase, steps: seq<Step>, i: int, t: Option<string>)
    requires Run(p, steps).Some? && Settled(Run(p, steps).value)
    requires 0 <= i < |steps| && steps[i] == Emit(SpeechToTextCompleted(t))
    ensures i + 2 < |steps| && steps[i + 1] == Emit(GPTThinking)
    ensures steps[i + 2].Send? && steps[i + 2].request.ChatCompletion?
    ensures UserUtterance(steps[i + 2].request.body) == Some(t)
    decreases |steps|
  {
    var q := Next(p, steps[0]).value;
    if i == 0 {
      assert q == Transcribed(t);
      var rest := steps[1..];
      assert Run(p, steps) == Run(Transcribed(t), rest);
      assert rest != [];
      assert rest[0] == Emit(GPTThinking);
      var rest2 := rest[1..];
      assert Run(Transcribed(t), rest) == Run(Thinking(t), rest2);
      assert rest2 != [];
      assert Next(Thinking(t), rest2[0]).Some?;
      assert steps[2] == rest2[0];
    } else {
      TranscriptHandedOn(q, steps[1..], i - 1, t);
    }
  }

  /**
   * In a turn that has settled, a received reply is followed at once by `OnTextToSpeechStarted`,
   * and any synthesis request after it asks to speak that very reply.
   */
  lemma {:induction false} ReplyHandedOn(p: Phase, steps: seq<Step>, i: int, r: Option<string>)
    requires Run(p, steps).Some? && Settled(Run(p, steps).value)
    requires 0 <= i < |steps| && steps[i] == Emit(GPTResponseReceived(r))
    ensures i + 1 < |steps| && steps[i + 1] == Emit(TextToSpeechStarted)
    ensures i + 2 < |steps| ==>
      steps[i + 2].Send? && steps[i + 2].request.SynthesizeSpeech? && steps[i + 2].request.speech.input.text == r
    decreases |steps|
  {
    var q := Next(p, steps[0]).value;
    if i == 0 {
      assert q == Replied(r);
      var rest := steps[1..];
      assert rest != [];
      assert rest[0] == Emit(TextToSpeechStarted);
      if |steps| > 2 {
        var rest2 := rest[1..];
        assert Run(Synthesizing(r), rest2).Some?;
        assert Next(Synthesizing(r), rest2[0]).Some?;
        assert steps[2] == rest2[0];
      }
    } else {
      ReplyHandedOn(q, steps[1..], i - 1, r);
    }
  }

  // ---------------------------------------------------------------- whole turns

  /** The speech-to-text request carries a WAV file whose header states the request's sample rate. */
  lemma SttAudioIsWav(clip: AudioClip)
    ensures SttRequest(clip).config.sampleRateHertz == clip.frequency
    ensures WavForRate(SttRequest(clip).audio, clip.frequency)
  {
    WavRiffLayout(PcmBytes(clip.samples), clip.channels, clip.frequency);
    WavFmtLayout(PcmBytes(clip.samples), clip.channels, clip.frequency);
  }

  /** The trace of one turn, as the user interface drives it: `StartRecording`, then `StopRecording`. */
  function Turn(recorder: Recorder, lastClip: Option<AudioClip>, env: Services): seq<Step>
  {
    StartRecording(recorder) + StopRecording(recorder, lastClip, env)
  }

  /**
   * With a recorder whose stop returns, the lifecycle accepts every turn and it ends settled.
   * A recorder that throws on stop leaves the turn in the recording phase for good. Without a
   * recorder the turn is two identical errors, one per call, which no single turn allows:
   * each call is a failed turn of its own.
   */
  lemma TurnAccepted(recorder: Recorder, lastClip: Option<AudioClip>, env: Services)
    ensures recorder == Assigned(false) ==>
      Run(Idle, Turn(recorder, lastClip, env)).Some? && Settled(Run(Idle, Turn(recorder, lastClip, env)).value)
    ensures recorder == Assigned(true) ==> Run(Idle, Turn(recorder, lastClip, env)) == Some(Recording)
    ensures recorder.Unassigned? ==>
      && Turn(recorder, lastClip, env) == [Emit(Error(RecorderMissing)), Emit(Error(RecorderMissing))]
      && Run(Idle, Turn(recorder, lastClip, env)).None?
      && Run(Idle, StartRecording(recorder)) == Run(Idle, StopRecording(recorder, lastClip, env)) == Some(Failed)
  {
    RunAppend(Idle, StartRecording(recorder), StopRecording(recorder, lastClip, env));
    if recorder.Unassigned? {
      RunCons(Failed, Emit(Error(RecorderMissing)), []);
    }
  }

  /**
   * With a recorder assigned, at most one error is reported in a turn, as its last event.
   * Without one, both steps of the turn are errors.
   */
  lemma TurnErrorIsLast(recorder: Recorder, lastClip: Option<AudioClip>, env: Services)
    ensures var steps := Turn(recorder, lastClip, env);
      && (recorder.Assigned? ==>
            forall i :: 0 <= i < |steps| && steps[i].Emit? && steps[i].event.Error? ==> i == |steps| - 1)
      && (recorder.Unassigned? ==> |steps| == 2 && steps[0] == steps[1] == Emit(Error(RecorderMissing)))
  {
    var steps := Turn(recorder, lastClip, env);
    TurnAccepted(recorder, lastClip, env);
    if recorder.Assigned? {
      forall i | 0 <= i < |steps| && steps[i].Emit? && steps[i].event.Error?
        ensures i == |steps| - 1
      {
        ErrorEndsTurn(Idle, steps, i);
      }
    }
  }

  /** In every turn, each completed transcript is sent, unchanged, as the user message of a chat request. */
  lemma TurnForwardsTranscript(recorder: Recorder, lastClip: Option<AudioClip>, env: Services)
    ensures var steps := Turn(recorder, lastClip, env);
      forall i :: 0 <= i < |steps| && steps[i].Emit? && steps[i].event.SpeechToTextCompleted? ==>
        && i + 2 < |steps| && steps[i + 1] == Emit(GPTThinking)
        && steps[i + 2].Send? && steps[i + 2].request.ChatCompletion?
        && UserUtterance(steps[i + 2].request.body) == Some(steps[i].event.transcript)
  {
    var steps := Turn(recorder, lastClip, env);
    TurnAccepted(recorder, lastClip, env);
    if recorder == Assigned(false) {
      forall i | 0 <= i < |steps| && steps[i].Emit? && steps[i].event.SpeechToTextCompleted?
        ensures i + 2 < |steps| && steps[i + 1] == Emit(GPTThinking)
        ensures steps[i + 2].Send? && steps[i + 2].request.ChatCompletion?
        ensures UserUtterance(steps[i + 2].request.body) == Some(steps[i].event.transcript)
      {
        TranscriptHandedOn(Idle, steps, i, steps[i].event.transcript);
      }
    }
  }

  /** In every turn, each reply is spoken: synthesis starts next, and asks for that reply. */
  lemma TurnSpeaksReply(recorder: Recorder, lastClip: Option<AudioClip>, env: Services)
    ensures var steps := Turn(recorder, lastClip, env);
      forall i :: 0 <= i < |steps| && steps[i].Emit? && steps[i].event.GPTResponseReceived? ==>
        && i + 1 < |steps| && steps[i + 1] == Emit(TextToSpeechStarted)
        && (i + 2 < |steps| ==>
              steps[i + 2].Send? && steps[i + 2].request.SynthesizeSpeech?
              && steps[i + 2].request.speech.input.text == steps[i].event.reply)
  {
    var steps := Turn(recorder, lastClip, env);
    TurnAccepted(recorder, lastClip, env);
    if recorder == Assigned(false) {
      forall i | 0 <= i < |steps| && steps[i].Emit? && steps[i].event.GPTResponseReceived?
        ensures i + 1 < |steps| && steps[i + 1] == Emit(TextToSpeechStarted)
        ensures i + 2 < |steps| ==>
          steps[i + 2].Send? && steps[i + 2].request.SynthesizeSpeech?
          && steps[i + 2].request.speech.input.text == steps[i].event.reply
      {
        ReplyHandedOn(Idle, steps, i, steps[i].event.reply);
      }
    }
  }

  // ---------------------------------------------------------------- outcomes, stage by stage

  /** The first two steps of processing a clip. */
  function SttPrefix(clip: AudioClip): seq<Step>
  {
    [Emit(SpeechToTextStarted), Send(SttRequest(clip))]
  }

  /** No clip: the processing start is announced, then one error, and nothing is sent. */
  lemma NoClipReported(env: Services)
    ensures ProcessRecording(None, env) == [Emit(SpeechToTextStarted), Emit(Error(NoRecordedAudio))]
  {
  }

  /**
   * Every failure of speech recognition ends processing with exactly one error carrying its
   * own message, and the completion step never starts.
   */
  lemma TranscriptionFailures(clip: AudioClip, env: Services)
    ensures env.stt.NetworkError? ==>
      ProcessRecording(Some(clip), env) == SttPrefix(clip) + [Emit(Error(SttFailedPrefix + env.stt.error))]
    ensures env.stt.Delivered? && (IsNullOrEmpty(env.stt.body.text) || !Contains(env.stt.body.text.value, "results")) ==>
      ProcessRecording(Some(clip), env) == SttPrefix(clip) + [Emit(Error(NoResults))]
    ensures (env.stt.Delivered? && !IsNullOrEmpty(env.stt.body.text) && Contains(env.stt.body.text.value, "results")
             && (env.stt.body.parsed.Threw? || (HasResults(env.stt.body.parsed) && !HasAlternative(env.stt.body.parsed)))) ==>
      ProcessRecording(Some(clip), env) == SttPrefix(clip) + [Emit(Error(ProcessingFailed))]
  {
  }

  /** The first result's alternatives are a non-empty array. */
  predicate HasAlternative(parsed: Deserialized<STTResponse>)
    requires HasResults(parsed)
  {
    var alternatives := parsed.value.results.value[0].alternatives;
    alternatives.Some? && |alternatives.value| > 0
  }

  /**
   * When the structured parse finds results, the first alternative's transcript is announced
   * and sent to the completion step as it is, even when it is null or empty.
   */
  lemma StructuredTranscriptForwarded(clip: AudioClip, env: Services)
    requires env.stt.Delivered? && !IsNullOrEmpty(env.stt.body.text) && Contains(env.stt.body.text.value, "results")
    requires !env.stt.body.parsed.Threw? && HasResults(env.stt.body.parsed) && HasAlternative(env.stt.body.parsed)
    ensures var t := env.stt.body.parsed.value.results.value[0].alternatives.value[0].transcript;
      ProcessRecording(Some(clip), env) == SttPrefix(clip) + [Emit(SpeechToTextCompleted(t))] + SendTextToGPT(t, env)
  {
  }

  /**
   * When the structured parse finds no results, the scraper decides: a scraped transcript
   * (which is never empty) is announced and sent on; no transcript is an error.
   */
  lemma FallbackTranscript(clip: AudioClip, env: Services)
    requires env.stt.Delivered? && !IsNullOrEmpty(env.stt.body.text) && Contains(env.stt.body.text.value, "results")
    requires !env.stt.body.parsed.Threw? && !HasResults(env.stt.body.parsed)
    ensures var scraped := ExtractTranscriptFromJson(env.stt.body.text.value);
      && (scraped.None? ==> ProcessRecording(Some(clip), env) == SttPrefix(clip) + [Emit(Error(NotRecognized))])
      && (scraped.Some? ==>
            |scraped.value| > 0
            && ProcessRecording(Some(clip), env) == SttPrefix(clip) + [Emit(SpeechToTextCompleted(scraped))] + SendTextToGPT(scraped, env))
  {
  }

  /** The outcomes of the completion step. */
  lemma CompletionOutcomes(text: Option<string>, env: Services)
    ensures var steps := SendTextToGPT(text, env);
      && steps[..2] == [Emit(GPTThinking), Send(ChatCompletion(ChatRequest(text)))]
      && (env.gpt.NetworkError? ==> steps[2..] == [Emit(Error(GptErrorPrefix + env.gpt.error))])
      && (env.gpt == Delivered(Threw) ==> steps[2..] == [])
      && (env.gpt.Delivered? && !env.gpt.body.Threw? && !HasChoices(env.gpt.body) ==>
            steps[2..] == [Emit(Error(InvalidGptResponse))])
      && (env.gpt.Delivered? && HasChoices(env.gpt.body) ==>
            var reply := env.gpt.body.value.choices.value[0].message.content;
            steps[2..] == [Emit(GPTResponseReceived(reply))] + TextToSpeech(reply, env))
  {
    var steps := SendTextToGPT(text, env);
    assert steps == [Emit(GPTThinking), Send(ChatCompletion(ChatRequest(text)))] + steps[2..];
  }

  /**
   * The outcomes of the synthesis step: it always starts with its event, never reports an
   * error, stops at once without a usable key, and completes exactly when the key is usable,
   * the reply carries audio and the clip plays.
   */
  lemma SpeechOutcomes(text: Option<string>, env: Services)
    ensures var steps := TextToSpeech(text, env);
      && steps[0] == Emit(TextToSpeechStarted)
      && (forall k :: 0 <= k < |steps| ==> !(steps[k].Emit? && steps[k].event.Error?))
      && (!ValidKey(env.googleCloudKey) ==> steps == [Emit(TextToSpeechStarted)])
      && (ValidKey(env.googleCloudKey) ==> steps[1] == Send(SynthesizeSpeech(SpeechRequest(text))))
      && (Emit(TextToSpeechCompleted) in steps <==>
            ValidKey(env.googleCloudKey) && SpeechDelivered(env.tts) && env.playback.Played?)
  {
    RunCons(Replied(text), Emit(TextToSpeechStarted), TextToSpeech(text, env)[1..]);
    assert TextToSpeech(text, env) == [Emit(TextToSpeechStarted)] + TextToSpeech(text, env)[1..];
    SpeakingNoError(Replied(text), TextToSpeech(text, env));
  }
}
