/** The shared data model of the text-to-speech front end: the speaking mode,
    the speaker record, the voice catalogue, and the values the program throws. */
module Types {

  /** How the text is voiced: by one prebuilt voice, or by several named speakers. */
  datatype Mode = Single | Multi

  /** One speaker of a multi-speaker conversation. `id` is the key the list
      editors match on; `name` is the label used in the text ("Joe: ..."). */
  datatype Speaker = Speaker(id: string, name: string, voice: string)

  /** An optional value, for the fields a persisted record or a response may lack. */
  datatype Option<+T> = None | Some(value: T) {
    /** The carried value, or `default` when there is none (the `??` operator). */
    function GetOr(default: T): T {
      match this
      case Some(v) => v
      case None => default
    }
  }

  /** A value thrown by a failing step: an `Error` object, which carries a
      message, or any other JavaScript value. */
  datatype Thrown = ErrorValue(message: string) | OtherValue

  /** The outcome of a step that either produces a value or throws. */
  datatype Result<+T> = Ok(value: T) | Fail(thrown: Thrown)

  /** The prebuilt voices offered in the voice pickers, in display order. */
  const VOICES: seq<string> :=
    ["Kore", "Puck", "Charon", "Fenrir", "Zephyr", "Aura", "Cinder", "Ember", "Mist", "Nautilus"]

  /** The identifiers of a speaker list, position by position. */
  function Ids(speakers: seq<Speaker>): (ids: seq<string>)
    ensures |ids| == |speakers|
    ensures forall k :: 0 <= k < |speakers| ==> ids[k] == speakers[k].id
  {
    seq(|speakers|, k requires 0 <= k < |speakers| => speakers[k].id)
  }
}
