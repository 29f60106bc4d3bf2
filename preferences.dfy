/** The user preferences the application component keeps across visits: its
    initial values, the record it saves, and how a saved record is read back,
    each absent field falling back to its default (the `??` operator). */
module Preferences {
  import opened Types

  /** The persisted part of the component state. The temperature is a
      JavaScript number, carried as a value with no arithmetic done on it. */
  datatype Prefs = Prefs(
    text: string,
    styleInstructions: string,
    mode: Mode,
    temperature: real,
    singleSpeakerVoice: string,
    speakers: seq<Speaker>)

  /** A parsed saved record: each field may be missing. */
  datatype PersistedState = PersistedState(
    text: Option<string>,
    styleInstructions: Option<string>,
    mode: Option<Mode>,
    temperature: Option<real>,
    singleSpeakerVoice: Option<string>,
    speakers: Option<seq<Speaker>>)

  const DefaultText: string := ""
  const DefaultStyleInstructions: string := "Say in a warm and friendly tone"
  const DefaultMode: Mode := Single
  const DefaultTemperature: real := 0.8
  const DefaultSingleSpeakerVoice: string := VOICES[1]
  const DefaultSpeakers: seq<Speaker> := [Speaker("1", "Joe", VOICES[0]), Speaker("2", "Jane", VOICES[1])]

  /** The values the component starts with before anything is loaded. */
  function Initial(): (p: Prefs)
    ensures p.text == "" && p.styleInstructions == "Say in a warm and friendly tone"
    ensures p.mode == Single && p.temperature == 0.8 && p.singleSpeakerVoice == "Puck"
    ensures p.speakers == [Speaker("1", "Joe", "Kore"), Speaker("2", "Jane", "Puck")]
  {
    Prefs("", "Say in a warm and friendly tone", Single, 0.8, VOICES[1],
          [Speaker("1", "Joe", VOICES[0]), Speaker("2", "Jane", VOICES[1])])
  }

  /** Read a saved record: a present field is taken as it is, even when it is
      an empty string or zero; only an absent field gets its default. */
  function Load(saved: PersistedState): (p: Prefs)
    ensures saved.text.Some? ==> p.text == saved.text.value
    ensures saved.text.None? ==> p.text == ""
    ensures saved.styleInstructions.Some? ==> p.styleInstructions == saved.styleInstructions.value
    ensures saved.styleInstructions.None? ==> p.styleInstructions == "Say in a warm and friendly tone"
    ensures saved.mode.Some? ==> p.mode == saved.mode.value
    ensures saved.mode.None? ==> p.mode == Single
    ensures saved.temperature.Some? ==> p.temperature == saved.temperature.value
    ensures saved.temperature.None? ==> p.temperature == 0.8
    ensures saved.singleSpeakerVoice.Some? ==> p.singleSpeakerVoice == saved.singleSpeakerVoice.value
    ensures saved.singleSpeakerVoice.None? ==> p.singleSpeakerVoice == "Puck"
    ensures saved.speakers.Some? ==> p.speakers == saved.speakers.value
    ensures saved.speakers.None? ==> p.speakers == [Speaker("1", "Joe", "Kore"), Speaker("2", "Jane", "Puck")]
  {
    Prefs(
      saved.text.GetOr(DefaultText),
      saved.styleInstructions.GetOr(DefaultStyleInstructions),
      saved.mode.GetOr(DefaultMode),
      saved.temperature.GetOr(DefaultTemperature),
      saved.singleSpeakerVoice.GetOr(DefaultSingleSpeakerVoice),
      saved.speakers.GetOr(DefaultSpeakers))
  }

  /** The record the component saves whenever one of its preferences changes. */
  function Snapshot(p: Prefs): (saved: PersistedState)
    ensures saved.text.Some? && saved.styleInstructions.Some? && saved.mode.Some?
    ensures saved.temperature.Some? && saved.singleSpeakerVoice.Some? && saved.speakers.Some?
  {
    PersistedState(Some(p.text), Some(p.styleInstructions), Some(p.mode),
                   Some(p.temperature), Some(p.singleSpeakerVoice), Some(p.speakers))
  }

  /** Loading what was saved restores every preference. */
  lemma LoadSnapshot(p: Prefs)
    ensures Load(Snapshot(p)) == p
  {
  }

  /** A saved record with no fields loads as the initial state: the fallbacks
      agree with the component's starting values. */
  lemma LoadEmptyIsInitial()
    ensures Load(PersistedState(None, None, None, None, None, None)) == Initial()
  {
  }

  /** Loading is idempotent: saving what was loaded and loading it again
      changes nothing. */
  lemma LoadIdempotent(saved: PersistedState)
    ensures Load(Snapshot(Load(saved))) == Load(saved)
  {
  }
}
