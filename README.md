# Text-to-speech front end: a Dafny model of its application logic

The application is a browser front end. It collects a text, style
instructions and a voice configuration, asks a remote speech model for audio,
and offers the audio for playback. This project models the application logic
that can be read in the repository's own source:

- **Speaker list editing** (module `Speakers`). The multi-speaker mode keeps an
  ordered list of speakers. The component appends a new speaker, removes
  speakers by id, and replaces one field of the speakers with a given id.
  Each edit builds a new list.
- **Prompt and button rules** (module `App`). The style instructions, when
  present, are put in front of the text. The generate button is enabled only
  when no request is running and the text is non-empty.
- **Saved preferences** (module `Preferences`). The component saves its
  preferences and reads them back on the first render. A field missing from
  the saved record falls back to the component's starting value.
- **The speech service** (module `GeminiService`). It checks the API key and
  builds a voice configuration for the mode. It sends one request, extracts
  the base64 audio from the reply, and wraps every failure in an `Error`
  with a descriptive message.
- **The generate lifecycle** (class `App.AppComponent`). The component's
  state fields are `isLoading`, `error` and `audioUrl`, beside the preferences.
  The generate handler first marks a request as running and clears the old
  error and URL. It ends with either a URL or an error message, and never
  still loading.

The remote call is a function parameter `network` from request to outcome.
The decoding of the returned base64 audio into a playable WAV resource is a
parameter `package` from audio to URL-or-thrown-value. Thrown JavaScript
values are `Thrown`: an `Error` with its message, or any other value.

The audio decoding in `services/audioUtils.ts` is outside the model (see
Left out). Nothing requires the speaker list to be non-empty, so in
multi-speaker mode an empty list yields an empty list of speaker voice
configurations.

## Model

| member | source | states |
|---|---|---|
| `Decimal.NatToString` | App.tsx:110 | the rendering of the new speaker's number is non-empty, all digits, and starts with `0` only for zero (which renders as `"0"`) |
| `Decimal.NatToStringRoundTrip` | App.tsx:110 | reading the rendered digits back gives the number |
| `Decimal.NatToStringInjective` | App.tsx:110 | distinct numbers render as distinct strings |
| `Speakers.AddSpeaker` | App.tsx:109-111 | the result is the old list plus one speaker at the end (the object literal `Speakers.NewSpeaker`), with the given id, voice `Kore`, and a name `Speaker ` followed by the digits of the new 1-based position, with no leading zero |
| `Speakers.RemoveSpeaker` | App.tsx:113-115 | the result is no longer than the input, and holds exactly the speakers of the input whose id differs |
| `Speakers.RemoveAppend` | App.tsx:114 | removal distributes over concatenation, so the kept speakers stay in their relative order |
| `Speakers.RemoveAbsent` | App.tsx:114 | removing an id no speaker has leaves the list unchanged |
| `Speakers.RemoveLeavesNoMatch` | App.tsx:114 | no speaker with the removed id remains |
| `Speakers.RemoveIdempotent` | App.tsx:114 | removing the same id twice equals removing it once |
| `Speakers.RemoveCommutes` | App.tsx:114 | two removals give the same list in either order |
| `Speakers.RemoveAfterAdd` | App.tsx:109-115 | removing a just-added speaker whose id was new restores the old list |
| `Speakers.SetField` | App.tsx:118 | the spread-with-key update keeps the id and replaces only the named field |
| `Speakers.ChangeSpeaker` | App.tsx:117-119 | length and every id are kept; speakers with other ids are unchanged; matching speakers get the named field replaced and keep the other |
| `Speakers.ChangeLastWins` | App.tsx:118 | of two changes to the same field of the same speaker, the later one wins |
| `Speakers.ChangeAbsent` | App.tsx:118 | changing an id no speaker has leaves the list unchanged |
| `Speakers.RemoveAfterChange` | App.tsx:113-119 | an edit to speakers that are then removed leaves no trace |
| `Preferences.Initial` | App.tsx:34-42 | the starting preferences: empty text, the warm-tone instruction, single mode, 0.8, `Puck`, and Joe/`Kore` and Jane/`Puck` |
| `Preferences.Load` | App.tsx:53-58 | each present field is taken as it is, even an empty string; each absent field gets its fixed default |
| `Preferences.Snapshot` | App.tsx:67-74 | the saved record carries every preference |
| `Preferences.LoadSnapshot` | App.tsx:53-74 | loading what was saved restores every preference |
| `Preferences.LoadEmptyIsInitial` | App.tsx:34-58 | a record with no fields loads as the starting state, so the fallbacks agree with the starting values |
| `Preferences.LoadIdempotent` | App.tsx:53-74 | saving what was loaded and loading it again changes nothing |
| `GeminiService.SpeakerVoiceConfigs` | services/geminiService.ts:37-42 | one entry per speaker in list order: entry k carries speaker k's name and voice, and no id |
| `GeminiService.BuildSpeechConfig` | services/geminiService.ts:26-45 | single mode gives only a prebuilt voice named by the single-speaker voice; any other mode gives only the per-speaker list, same length and order |
| `GeminiService.SingleIgnoresSpeakers` | services/geminiService.ts:28-33 | in single mode the speaker list does not affect the configuration |
| `GeminiService.ConfigIgnoresIds` | services/geminiService.ts:34-44 | lists that agree on names and voices configure alike, whatever their ids |
| `GeminiService.BuildRequest` | services/geminiService.ts:48-56 | the request names the TTS model, carries the text as one part, asks for audio, and carries the configuration and temperature |
| `GeminiService.ExtractAudio` | services/geminiService.ts:58 | the optional chain yields the first candidate's first part's inline data exactly when every link is present and both lists are non-empty |
| `GeminiService.RequestAudio` | services/geminiService.ts:47-64 | the request block returns non-empty inline audio; it throws the "no audio" error otherwise, and passes on what the remote call threw |
| `GeminiService.WrapMessage` | services/geminiService.ts:68-71 | a caught `Error` is rethrown with its message behind the `Failed to generate speech: ` prefix; any other value becomes `An unknown error occurred while generating speech.` |
| `GeminiService.GenerateSpeech` | services/geminiService.ts:14-73 | without a key (`GeminiService.KeySet` is false when the key is missing or empty, the `!API_KEY` test) it fails with the key message whatever the network does; otherwise an `Error` from the request block is rethrown with the `Failed to generate speech: ` prefix and any other value as the unknown-failure message; success is always non-empty; every failure is an `Error` |
| `GeminiService.AudioReturned` | services/geminiService.ts:58-64 | non-empty inline audio is returned exactly as received |
| `GeminiService.NoAudioWrappedTwice` | services/geminiService.ts:60-70 | a reply without audio fails with `Failed to generate speech: No audio data received from API.` |
| `GeminiService.FailureMessages` | services/geminiService.ts:21-71 | every failure message is the key message, the unknown-failure message, or starts with the prefix |
| `App.FullText` | App.tsx:88 | non-empty style instructions, then `": "`, then the text; exactly the text when the instructions are empty; the text is always the tail |
| `App.CanGenerate` | App.tsx:264 | the button is enabled if and only if nothing is loading and the text is non-empty; `App.AppComponent.GenerateEnabled` applies it to the component's fields |
| `App.ErrorMessage` | App.tsx:103 | an `Error` shows its own message; any other value shows `An unknown error occurred.` |
| `App.RequestParams` | App.tsx:88-89 | the service gets the composed prompt, the mode, the single voice, the speaker list and the temperature |
| `App.ServiceNeverShowsFallback` | App.tsx:102-103 | the service never causes the fallback message, so that message only comes from the packaging step |
| `App.AppComponent.constructor` | App.tsx:34-45 | the first render holds the starting preferences, nothing loading, no URL and no error |
| `App.AppComponent.LoadSavedState` | App.tsx:48-63 | a parsed record replaces the preferences by their loaded values; a missing or unreadable one changes nothing |
| `App.AppComponent.SavedRecord` | App.tsx:66-80 | the record saved from the current state loads back as the current preferences |
| `App.AppComponent.HandleAddSpeaker` | App.tsx:109-111 | the speaker list becomes the list with one speaker added |
| `App.AppComponent.HandleRemoveSpeaker` | App.tsx:113-115 | the speaker list becomes the list with the id removed |
| `App.AppComponent.HandleSpeakerChange` | App.tsx:117-119 | the speaker list becomes the list with the field changed |
| `App.AppComponent.StartGeneration` | App.tsx:84-86 | starting sets `isLoading` and clears `error` and `audioUrl`, which disables the button |
| `App.AppComponent.HandleGenerateSpeech` | App.tsx:83-107 | afterwards nothing is loading; a service or packaging failure leaves no URL and shows that failure's message; success shows the packaged URL and no error |

## Left out

- `services/audioUtils.ts` (base64 decoding, PCM interpretation, WAV packaging) is not part of this model. The generate handler's decode-and-package step, including the audio context it creates, is the `package` parameter.
- The remote call `ai.models.generateContent` is the `network` parameter. Creating the client is assumed not to throw. The `console.error` logging is not modelled.
- Browser storage, `JSON.parse` and `JSON.stringify` are I/O. `App.SavedState` stands for their outcome. Parsed fields are assumed to have their declared types; in particular a saved mode is assumed to be one of the two `Mode` values.
- `Date.now()` for a new speaker's id is nondeterministic; it is the `newId` parameter.
- The temperature is a JavaScript number; it is a `real` on which nothing computes. Its `toFixed` display is UI.
- Auto-play (`new Audio(...).play()`), the download link (`handleDownload`) and the rendering (JSX, icons, placeholders) are browser and UI code.
- React scheduling is not modelled. State setters take effect at once, and the handler reads the state as it was when it started. Overlapping runs of the generate handler are not modelled; the button is disabled while one runs.
- `Decimal.NatToString` renders an unbounded natural number. JavaScript renders a list length the same way for any length a list can have.
- The two `Mode` values are plain constructors; their string tags (`single-speaker`, `multi-speaker`) are not modelled.
