/** The speaker-list editors of the application component. Each builds a new
    list from the old one and never mutates it: adding appends a fresh
    speaker, removing filters by id, and changing a field maps over the list. */
module Speakers {
  import opened Types
  import opened Decimal

  /** The two editable fields of a speaker. */
  datatype Field = Name | Voice

  /** The speaker appended by the "Add Speaker" button to a list of `count`
      speakers: numbered by its 1-based position, with the first voice. */
  function NewSpeaker(newId: string, count: nat): Speaker {
    Speaker(newId, "Speaker " + NatToString(count + 1), VOICES[0])
  }

  /** Append one new speaker at the end; `newId` stands for the clock reading
      (`Date.now()`) the component uses as a fresh identifier. */
  function AddSpeaker(speakers: seq<Speaker>, newId: string): (r: seq<Speaker>)
    ensures |r| == |speakers| + 1
    ensures r[..|speakers|] == speakers
    ensures r[|speakers|].id == newId && r[|speakers|].voice == "Kore"
    ensures |r[|speakers|].name| > 8 && r[|speakers|].name[..8] == "Speaker "
    // the number in the new name is the new speaker's 1-based position
    ensures AllDigits(r[|speakers|].name[8..]) && DigitsValue(r[|speakers|].name[8..]) == |speakers| + 1
    // written in plain form, without a leading zero
    ensures r[|speakers|].name[8] != '0'
  {
    NatToStringRoundTrip(|speakers| + 1);
    var added := NewSpeaker(newId, |speakers|);
    assert added.name[8..] == NatToString(|speakers| + 1);
    speakers + [added]
  }

  /** Keep the speakers whose id differs from `id`, in their order. */
  function RemoveSpeaker(speakers: seq<Speaker>, id: string): (r: seq<Speaker>)
    ensures |r| <= |speakers|
    ensures forall s :: s in r <==> s in speakers && s.id != id
  {
    if speakers == [] then []
    else (if speakers[0].id == id then [] else [speakers[0]]) + RemoveSpeaker(speakers[1..], id)
  }

  /** Removal works element by element: on a concatenation it is the
      concatenation of the removals, so relative order is kept. */
  lemma {:induction false} RemoveAppend(a: seq<Speaker>, b: seq<Speaker>, id: string)
    ensures RemoveSpeaker(a + b, id) == RemoveSpeaker(a, id) + RemoveSpeaker(b, id)
  {
    if a == [] {
      assert a + b == b;
    } else {
      assert (a + b)[0] == a[0] && (a + b)[1..] == a[1..] + b;
      RemoveAppend(a[1..], b, id);
    }
  }

  /** Removing an id no speaker has leaves the list unchanged. */
  lemma {:induction false} RemoveAbsent(speakers: seq<Speaker>, id: string)
    requires id !in Ids(speakers)
    ensures RemoveSpeaker(speakers, id) == speakers
  {
    if speakers != [] {
      assert Ids(speakers)[0] == speakers[0].id;
      assert Ids(speakers[1..]) == Ids(speakers)[1..];
      RemoveAbsent(speakers[1..], id);
    }
  }

  /** After removal no speaker carries the removed id. */
  lemma RemoveLeavesNoMatch(speakers: seq<Speaker>, id: string)
    ensures id !in Ids(RemoveSpeaker(speakers, id))
  {
  }

  /** Removing the same id twice is removing it once. */
  lemma RemoveIdempotent(speakers: seq<Speaker>, id: string)
    ensures RemoveSpeaker(RemoveSpeaker(speakers, id), id) == RemoveSpeaker(speakers, id)
  {
    RemoveLeavesNoMatch(speakers, id);
    RemoveAbsent(RemoveSpeaker(speakers, id), id);
  }

  /** Two removals give the same list in either order. */
  lemma {:induction false} RemoveCommutes(speakers: seq<Speaker>, a: string, b: string)
    ensures RemoveSpeaker(RemoveSpeaker(speakers, a), b) == RemoveSpeaker(RemoveSpeaker(speakers, b), a)
  {
    if speakers != [] {
      var x, rest := speakers[0], speakers[1..];
      RemoveCommutes(rest, a, b);
      var headA := if x.id == a then [] else [x];
      var headB := if x.id == b then [] else [x];
      RemoveAppend(headA, RemoveSpeaker(rest, a), b);
      RemoveAppend(headB, RemoveSpeaker(rest, b), a);
    }
  }

  /** Removing a just-added speaker whose id was new restores the list. */
  lemma RemoveAfterAdd(speakers: seq<Speaker>, newId: string)
    requires newId !in Ids(speakers)
    ensures RemoveSpeaker(AddSpeaker(speakers, newId), newId) == speakers
  {
    RemoveAppend(speakers, [NewSpeaker(newId, |speakers|)], newId);
    RemoveAbsent(speakers, newId);
  }

  /** `s` with `field` replaced by `value` (the object spread with a computed key). */
  function SetField(s: Speaker, field: Field, value: string): (r: Speaker)
    ensures r.id == s.id
    ensures r.name == (if field == Name then value else s.name)
    ensures r.voice == (if field == Voice then value else s.voice)
  {
    match field
    case Name => s.(name := value)
    case Voice => s.(voice := value)
  }

  /** Replace `field` by `value` in every speaker whose id is `id`. */
  function ChangeSpeaker(speakers: seq<Speaker>, id: string, field: Field, value: string): (r: seq<Speaker>)
    ensures |r| == |speakers| && Ids(r) == Ids(speakers)
    ensures forall k :: 0 <= k < |r| && speakers[k].id != id ==> r[k] == speakers[k]
    ensures forall k :: 0 <= k < |r| && speakers[k].id == id ==>
      r[k].name == (if field == Name then value else speakers[k].name) &&
      r[k].voice == (if field == Voice then value else speakers[k].voice)
  {
    seq(|speakers|, k requires 0 <= k < |speakers| =>
      if speakers[k].id == id then SetField(speakers[k], field, value) else speakers[k])
  }

  /** Of two changes to the same field of the same speaker, the later wins. */
  lemma ChangeLastWins(speakers: seq<Speaker>, id: string, field: Field, v1: string, v2: string)
    ensures ChangeSpeaker(ChangeSpeaker(speakers, id, field, v1), id, field, v2)
         == ChangeSpeaker(speakers, id, field, v2)
  {
  }

  /** Changing an id no speaker has leaves the list unchanged. */
  lemma ChangeAbsent(speakers: seq<Speaker>, id: string, field: Field, value: string)
    requires id !in Ids(speakers)
    ensures ChangeSpeaker(speakers, id, field, value) == speakers
  {
  }

  /** An edit to a speaker that is then removed leaves no trace. */
  lemma {:induction false} RemoveAfterChange(speakers: seq<Speaker>, id: string, field: Field, value: string)
    ensures RemoveSpeaker(ChangeSpeaker(speakers, id, field, value), id) == RemoveSpeaker(speakers, id)
  {
    if speakers != [] {
      var changed := ChangeSpeaker(speakers, id, field, value);
      assert changed[1..] == ChangeSpeaker(speakers[1..], id, field, value);
      assert changed[0].id == speakers[0].id;
      RemoveAfterChange(speakers[1..], id, field, value);
    }
  }
}
