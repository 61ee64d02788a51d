/**
 * The JSON payloads GPTService exchanges with the speech-to-text, chat-completion and
 * text-to-speech endpoints, as already-parsed values. A string or array field of a
 * deserialised object may be null (`None`); an object nested inside another is present.
 */
module Messages {
  import opened Wrappers
  import opened Bytes

  // Speech-to-text request configuration.
  datatype STTConfig = STTConfig(
    encoding: string,
    sampleRateHertz: int32,
    languageCode: string,
    model: string,
    useEnhanced: bool,
    enableAutomaticPunctuation: bool)

  // Speech-to-text response.
  datatype STTAlternative = STTAlternative(transcript: Option<string>)
  datatype STTResult = STTResult(alternatives: Option<seq<STTAlternative>>)
  datatype STTResponse = STTResponse(results: Option<seq<STTResult>>)

  // Chat completion request and response.
  datatype GPTMessage = GPTMessage(role: Option<string>, content: Option<string>)
  datatype GPTChoice = GPTChoice(message: GPTMessage)
  datatype GPTResponse = GPTResponse(choices: Option<seq<GPTChoice>>)
  datatype GPTRequest = GPTRequest(model: string, messages: seq<GPTMessage>)

  // Text-to-speech request and response.
  datatype TTSInput = TTSInput(text: Option<string>)
  datatype TTSVoice = TTSVoice(languageCode: string, name: string)
  datatype TTSConfig = TTSConfig(audioEncoding: string)
  datatype TTSRequest = TTSRequest(input: TTSInput, voice: TTSVoice, audioConfig: TTSConfig)
  datatype TTSResponse = TTSResponse(audioContent: Option<string>)
}
