/** The speech-generation service: it checks for an API key, builds the voice
    configuration for the chosen mode, sends one request to the remote model,
    extracts the base64 audio from the reply, and wraps every failure in an
    `Error` with a descriptive message. The remote call itself is a parameter
    (`network`), so whatever it answers is taken as given. */
module GeminiService {
  import opened Types

  const ModelName: string := "gemini-2.5-pro-preview-tts"
  const ApiKeyMissing: string := "API_KEY is not set in environment variables."
  const NoAudioData: string := "No audio data received from API."
  const FailurePrefix: string := "Failed to generate speech: "
  const UnknownFailure: string := "An unknown error occurred while generating speech."

  /** What the caller asks to have spoken, and how. */
  datatype Params = Params(
    text: string,
    mode: Mode,
    singleSpeakerVoice: string,
    multiSpeakers: seq<Speaker>,
    temperature: real)

  datatype PrebuiltVoiceConfig = PrebuiltVoiceConfig(voiceName: string)
  datatype VoiceConfig = VoiceConfig(prebuiltVoiceConfig: PrebuiltVoiceConfig)
  datatype SpeakerVoiceConfig = SpeakerVoiceConfig(speaker: string, voiceConfig: VoiceConfig)
  datatype MultiSpeakerVoiceConfig = MultiSpeakerVoiceConfig(speakerVoiceConfigs: seq<SpeakerVoiceConfig>)

  /** The speech configuration holds exactly one of its two variants. */
  datatype SpeechConfig =
    | SingleVoiceConfig(voiceConfig: VoiceConfig)
    | MultiSpeakerConfig(multiSpeakerVoiceConfig: MultiSpeakerVoiceConfig)

  datatype Modality = Audio
  datatype TextPart = TextPart(text: string)
  datatype Content = Content(parts: seq<TextPart>)

  /** The request handed to the remote model. */
  datatype Request = Request(
    model: string,
    contents: seq<Content>,
    responseModalities: seq<Modality>,
    speechConfig: SpeechConfig,
    temperature: real)

  /** The part of a reply the service reads; every level may be missing. */
  datatype InlineData = InlineData(data: Option<string>)
  datatype Part = Part(inlineData: Option<InlineData>)
  datatype CandidateContent = CandidateContent(parts: Option<seq<Part>>)
  datatype Candidate = Candidate(content: Option<CandidateContent>)
  datatype Response = Response(candidates: Option<seq<Candidate>>)

  /** The remote call either answers or throws. */
  datatype NetworkOutcome = Responded(response: Response) | Rejected(thrown: Thrown)

  /** A key counts as set only when it is present and non-empty. */
  predicate KeySet(apiKey: Option<string>) {
    apiKey.Some? && apiKey.value != ""
  }

  /** One voice-config entry per speaker, in list order; ids are not sent. */
  function SpeakerVoiceConfigs(speakers: seq<Speaker>): (r: seq<SpeakerVoiceConfig>)
    ensures |r| == |speakers|
    ensures forall k :: 0 <= k < |r| ==>
      r[k].speaker == speakers[k].name && r[k].voiceConfig.prebuiltVoiceConfig.voiceName == speakers[k].voice
  {
    seq(|speakers|, k requires 0 <= k < |speakers| =>
      SpeakerVoiceConfig(speakers[k].name, VoiceConfig(PrebuiltVoiceConfig(speakers[k].voice))))
  }

  /** The voice configuration for `mode`: a single prebuilt voice, or one
      entry per speaker in any other mode. */
  function BuildSpeechConfig(mode: Mode, singleSpeakerVoice: string, multiSpeakers: seq<Speaker>): (r: SpeechConfig)
    ensures mode == Single <==> r.SingleVoiceConfig?
    ensures r.SingleVoiceConfig? ==> r.voiceConfig.prebuiltVoiceConfig.voiceName == singleSpeakerVoice
    ensures r.MultiSpeakerConfig? ==>
      var configs := r.multiSpeakerVoiceConfig.speakerVoiceConfigs;
      |configs| == |multiSpeakers| &&
      forall k :: 0 <= k < |configs| ==>
        configs[k].speaker == multiSpeakers[k].name &&
        configs[k].voiceConfig.prebuiltVoiceConfig.voiceName == multiSpeakers[k].voice
  {
    if mode == Single then
      SingleVoiceConfig(VoiceConfig(PrebuiltVoiceConfig(singleSpeakerVoice)))
    else
      MultiSpeakerConfig(MultiSpeakerVoiceConfig(SpeakerVoiceConfigs(multiSpeakers)))
  }

  /** In single-speaker mode the speaker list plays no part. */
  lemma SingleIgnoresSpeakers(voice: string, a: seq<Speaker>, b: seq<Speaker>)
    ensures BuildSpeechConfig(Single, voice, a) == BuildSpeechConfig(Single, voice, b)
  {
  }

  /** The configuration depends on the speakers only through their names and
      voices: two lists that agree on those, whatever their ids, configure alike. */
  lemma ConfigIgnoresIds(mode: Mode, voice: string, a: seq<Speaker>, b: seq<Speaker>)
    requires |a| == |b|
    requires forall k :: 0 <= k < |a| ==> a[k].name == b[k].name && a[k].voice == b[k].voice
    ensures BuildSpeechConfig(mode, voice, a) == BuildSpeechConfig(mode, voice, b)
  {
  }

  /** The request for `p`: the text as one part of one content, audio output,
      the voice configuration and the temperature. */
  function BuildRequest(p: Params): (r: Request)
    ensures r.model == "gemini-2.5-pro-preview-tts"
    ensures r.contents == [Content([TextPart(p.text)])] && r.responseModalities == [Audio]
    ensures r.speechConfig == BuildSpeechConfig(p.mode, p.singleSpeakerVoice, p.multiSpeakers)
    ensures r.temperature == p.temperature
  {
    Request(ModelName, [Content([TextPart(p.text)])], [Audio],
            BuildSpeechConfig(p.mode, p.singleSpeakerVoice, p.multiSpeakers), p.temperature)
  }

  /** The inline data of the first part of the first candidate, read through
      the optional chain: any missing link (or an empty list) yields `None`. */
  function ExtractAudio(response: Response): (r: Option<string>)
    ensures r.Some? <==>
      && response.candidates.Some? && |response.candidates.value| > 0
      && response.candidates.value[0].content.Some?
      && response.candidates.value[0].content.value.parts.Some?
      && |response.candidates.value[0].content.value.parts.value| > 0
      && response.candidates.value[0].content.value.parts.value[0].inlineData.Some?
      && response.candidates.value[0].content.value.parts.value[0].inlineData.value.data.Some?
    ensures r.Some? ==>
      r.value == response.candidates.value[0].content.value.parts.value[0].inlineData.value.data.value
  {
    match response.candidates
    case None => None
    case Some(candidates) =>
      if |candidates| == 0 then None else
      match candidates[0].content
      case None => None
      case Some(content) =>
        match content.parts
        case None => None
        case Some(parts) =>
          if |parts| == 0 then None else
          match parts[0].inlineData
          case None => None
          case Some(inline) => inline.data
  }

  /** The outcome of the request block: the audio when the reply carries a
      non-empty string, the "no audio" error when it does not, and whatever
      the remote call threw when it threw. */
  function RequestAudio(outcome: NetworkOutcome): (r: Result<string>)
    ensures outcome.Rejected? ==> r == Fail(outcome.thrown)
    ensures outcome.Responded? ==>
      var audio := ExtractAudio(outcome.response);
      if audio.Some? && audio.value != "" then r == Ok(audio.value)
      else r == Fail(ErrorValue("No audio data received from API."))
  {
    match outcome
    case Rejected(thrown) => Fail(thrown)
    case Responded(response) =>
      match ExtractAudio(response)
      case Some(audio) => if audio != "" then Ok(audio) else Fail(ErrorValue(NoAudioData))
      case None => Fail(ErrorValue(NoAudioData))
  }

  /** The message of the `Error` the handler throws for a caught value: an
      `Error`'s own message behind the prefix, or a fixed message for any
      other value. */
  function WrapMessage(thrown: Thrown): (r: string)
    ensures thrown.ErrorValue? ==>
      var n := |"Failed to generate speech: "|;
      |r| == n + |thrown.message| && r[..n] == "Failed to generate speech: " && r[n..] == thrown.message
    ensures thrown.OtherValue? ==> r == "An unknown error occurred while generating speech."
  {
    match thrown
    case ErrorValue(message) => FailurePrefix + message
    case OtherValue => UnknownFailure
  }

  /** Generate speech for `p`. Without a key the service fails before any
      request is built; otherwise the one request goes out and every failure
      of the request block is rethrown as an `Error` with a wrapped message. */
  function GenerateSpeech(apiKey: Option<string>, p: Params, network: Request -> NetworkOutcome): (r: Result<string>)
    ensures !KeySet(apiKey) ==> r == Fail(ErrorValue("API_KEY is not set in environment variables."))
    ensures KeySet(apiKey) ==>
      var inner := RequestAudio(network(BuildRequest(p)));
      && (inner.Ok? ==> r == inner)
      && (inner.Fail? && inner.thrown.ErrorValue? ==>
            r == Fail(ErrorValue("Failed to generate speech: " + inner.thrown.message)))
      && (inner.Fail? && inner.thrown.OtherValue? ==>
            r == Fail(ErrorValue("An unknown error occurred while generating speech.")))
    // what comes back is always non-empty audio, and what is thrown always an Error
    ensures r.Ok? ==> r.value != ""
    ensures r.Fail? ==> r.thrown.ErrorValue?
  {
    if !KeySet(apiKey) then
      Fail(ErrorValue(ApiKeyMissing))
    else
      match RequestAudio(network(BuildRequest(p)))
      case Ok(audio) => Ok(audio)
      case Fail(thrown) => Fail(ErrorValue(WrapMessage(thrown)))
  }

  /** Non-empty inline audio in the reply is returned exactly as received. */
  lemma AudioReturned(apiKey: Option<string>, p: Params, network: Request -> NetworkOutcome, response: Response)
    requires KeySet(apiKey) && network(BuildRequest(p)) == Responded(response)
    requires ExtractAudio(response).Some? && ExtractAudio(response).value != ""
    ensures GenerateSpeech(apiKey, p, network) == Ok(ExtractAudio(response).value)
  {
  }

  /** A reply without audio fails with the "no audio" message wrapped a second
      time, because the handler around the request block catches it too. */
  lemma NoAudioWrappedTwice(apiKey: Option<string>, p: Params, network: Request -> NetworkOutcome, response: Response)
    requires KeySet(apiKey) && network(BuildRequest(p)) == Responded(response)
    requires ExtractAudio(response).None? || ExtractAudio(response).value == ""
    ensures GenerateSpeech(apiKey, p, network)
         == Fail(ErrorValue("Failed to generate speech: No audio data received from API."))
  {
    var inner := RequestAudio(network(BuildRequest(p)));
    assert inner == Fail(ErrorValue(NoAudioData));
    WrappedNoAudioMessage();
  }

  /** The prefixed "no audio" message, spelled out. Kept as a lemma of its own
      so that the proof of NoAudioWrappedTwice stays small on every solver seed. */
  lemma WrappedNoAudioMessage()
    ensures FailurePrefix + NoAudioData == "Failed to generate speech: No audio data received from API."
  {
  }

  /** Every failure message of the service is one of its own: the missing-key
      message, the unknown-failure message, or one that starts with the prefix. */
  lemma FailureMessages(apiKey: Option<string>, p: Params, network: Request -> NetworkOutcome)
    ensures var r := GenerateSpeech(apiKey, p, network);
      r.Fail? ==>
        || r.thrown.message == ApiKeyMissing
        || r.thrown.message == UnknownFailure
        || (|r.thrown.message| >= |FailurePrefix| && r.thrown.message[..|FailurePrefix|] == FailurePrefix)
  {
  }
}
