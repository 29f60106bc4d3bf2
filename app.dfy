/** The application component: the state it keeps, the rules that compose the
    prompt and enable the generate button, and the handlers that change the
    state. The decoding of the returned audio into a playable resource is a
    parameter (`package`): it yields a resource URL or throws. */
module App {
  import opened Types
  import Speakers
  import Preferences
  import GeminiService

  const UnknownError: string := "An unknown error occurred."

  /** The prompt sent for `text`: the style instructions, when there are any,
      go first, separated from the text by a colon and a space. */
  function FullText(styleInstructions: string, text: string): (r: string)
    ensures styleInstructions == "" ==> r == text
    ensures styleInstructions != "" ==>
      var n := |styleInstructions|;
      |r| == n + 2 + |text| && r[..n] == styleInstructions && r[n..n + 2] == ": " && r[n + 2..] == text
    // the text itself is always the tail of the prompt
    ensures |r| >= |text| && r[|r| - |text|..] == text
  {
    if styleInstructions != "" then styleInstructions + ": " + text else text
  }

  /** The generate button is disabled while a request runs or when there is no text. */
  function CanGenerate(isLoading: bool, text: string): (enabled: bool)
    ensures enabled <==> !isLoading && |text| > 0
  {
    !(isLoading || text == "")
  }

  /** The message shown for a caught value: an `Error`'s own message, or a
      fixed one for anything else. */
  function ErrorMessage(thrown: Thrown): (message: string)
    ensures thrown.ErrorValue? ==> message == thrown.message
    ensures thrown.OtherValue? ==> message == "An unknown error occurred."
  {
    match thrown
    case ErrorValue(m) => m
    case OtherValue => UnknownError
  }

  /** The parameters the generate handler passes to the service. */
  function RequestParams(p: Preferences.Prefs): (params: GeminiService.Params)
    ensures params.text == FullText(p.styleInstructions, p.text)
    ensures params.mode == p.mode && params.singleSpeakerVoice == p.singleSpeakerVoice
    ensures params.multiSpeakers == p.speakers && params.temperature == p.temperature
  {
    GeminiService.Params(FullText(p.styleInstructions, p.text), p.mode, p.singleSpeakerVoice, p.speakers, p.temperature)
  }

  /** What reading the saved record gave: nothing stored (or an empty string),
      a record that could not be read (a parse failure, or the value `null`,
      whose fields cannot be read), or a parsed record. Any other parsed value
      without the fields, such as a number, is a `Parsed` record whose every
      field is missing. */
  datatype SavedState = Missing | Unreadable | Parsed(state: Preferences.PersistedState)

  /** The fallback message can only come from the packaging step: the service
      never throws a value whose message is the fallback message. */
  lemma ServiceNeverShowsFallback(apiKey: Option<string>, p: GeminiService.Params,
                                  network: GeminiService.Request -> GeminiService.NetworkOutcome)
    ensures var speech := GeminiService.GenerateSpeech(apiKey, p, network);
      speech.Fail? ==> ErrorMessage(speech.thrown) != UnknownError
  {
  }

  class AppComponent {
    var text: string
    var styleInstructions: string
    var mode: Mode
    var temperature: real
    var singleSpeakerVoice: string
    var speakers: seq<Speaker>
    var isLoading: bool
    var audioUrl: Option<string>
    var error: Option<string>

    /** The persisted part of the state. */
    function Prefs(): Preferences.Prefs
      reads this
    {
      Preferences.Prefs(text, styleInstructions, mode, temperature, singleSpeakerVoice, speakers)
    }

    /** The state on first render: the initial preferences, nothing loading,
        no audio and no error. */
    constructor ()
      ensures Prefs() == Preferences.Initial()
      ensures !isLoading && audioUrl == None && error == None
    {
      text := "";
      styleInstructions := "Say in a warm and friendly tone";
      mode := Single;
      temperature := 0.8;
      singleSpeakerVoice := VOICES[1];
      speakers := [Speaker("1", "Joe", VOICES[0]), Speaker("2", "Jane", VOICES[1])];
      isLoading := false;
      audioUrl := None;
      error := None;
    }

    /** The load step of the first render: a parsed record replaces every
        preference (with defaults for its missing fields); a missing or
        unreadable one changes nothing. */
    method LoadSavedState(saved: SavedState)
      modifies this`text, this`styleInstructions, this`mode, this`temperature,
               this`singleSpeakerVoice, this`speakers
      ensures saved.Parsed? ==> Prefs() == Preferences.Load(saved.state)
      ensures !saved.Parsed? ==> Prefs() == old(Prefs())
    {
      if saved.Parsed? {
        var loaded := Preferences.Load(saved.state);
        text := loaded.text;
        styleInstructions := loaded.styleInstructions;
        mode := loaded.mode;
        temperature := loaded.temperature;
        singleSpeakerVoice := loaded.singleSpeakerVoice;
        speakers := loaded.speakers;
      }
    }

    /** The record saved after every change of a preference. */
    function SavedRecord(): (saved: Preferences.PersistedState)
      reads this
      ensures Preferences.Load(saved) == Prefs()
    {
      Preferences.LoadSnapshot(Prefs());
      Preferences.Snapshot(Prefs())
    }

    method HandleAddSpeaker(newId: string)
      modifies this`speakers
      ensures speakers == Speakers.AddSpeaker(old(speakers), newId)
    {
      speakers := Speakers.AddSpeaker(speakers, newId);
    }

    method HandleRemoveSpeaker(id: string)
      modifies this`speakers
      ensures speakers == Speakers.RemoveSpeaker(old(speakers), id)
    {
      speakers := Speakers.RemoveSpeaker(speakers, id);
    }

    method HandleSpeakerChange(id: string, field: Speakers.Field, value: string)
      modifies this`speakers
      ensures speakers == Speakers.ChangeSpeaker(old(speakers), id, field, value)
    {
      speakers := Speakers.ChangeSpeaker(speakers, id, field, value);
    }

    /** Whether the generate button is enabled. */
    predicate GenerateEnabled()
      reads this
    {
      CanGenerate(isLoading, text)
    }

    /** The first three steps of the generate handler: mark the request as
        running and clear the previous error and audio. */
    method StartGeneration()
      modifies this`isLoading, this`error, this`audioUrl
      ensures isLoading && error == None && audioUrl == None
      ensures !GenerateEnabled()
    {
      isLoading := true;
      error := None;
      audioUrl := None;
    }

    /** The generate handler, run to completion. The service is asked for
        audio for the current preferences, and the audio is packaged into a
        resource URL. Success shows the URL; the first failure shows its
        message and no URL. Either way the request is no longer running. */
    method HandleGenerateSpeech(apiKey: Option<string>,
                                network: GeminiService.Request -> GeminiService.NetworkOutcome,
                                package: string -> Result<string>)
      modifies this`isLoading, this`error, this`audioUrl
      ensures !isLoading
      ensures GenerateEnabled() <==> text != ""
      ensures var speech := GeminiService.GenerateSpeech(apiKey, RequestParams(old(Prefs())), network);
        && (speech.Fail? ==> audioUrl == None && error == Some(ErrorMessage(speech.thrown)))
        && (speech.Ok? && package(speech.value).Fail? ==>
              audioUrl == None && error == Some(ErrorMessage(package(speech.value).thrown)))
        && (speech.Ok? && package(speech.value).Ok? ==>
              audioUrl == Some(package(speech.value).value) && error == None)
    {
      StartGeneration();
      var speech := GeminiService.GenerateSpeech(apiKey, RequestParams(Prefs()), network);
      if speech.Fail? {
        error := Some(ErrorMessage(speech.thrown));
      } else {
        var packaged := package(speech.value);
        if packaged.Fail? {
          error := Some(ErrorMessage(packaged.thrown));
        } else {
          audioUrl := Some(packaged.value);
        }
      }
      isLoading := false;
    }
  }
}
