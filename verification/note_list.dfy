/**
 * The list operations `VoiceNotesViewModel` performs on `notes`, as values:
 * lookup by id, insertion of a generated note, removal by index or by a set of
 * offsets, and renaming in place.
 */
module NoteList {
  import opened Optional
  import opened Models
  import Formatting

  predicate HasId(notes: seq<VoiceNote>, id: NoteId) {
    exists i :: 0 <= i < |notes| && notes[i].id == id
  }

  predicate UniqueIds(notes: seq<VoiceNote>) {
    forall i, j :: 0 <= i < j < |notes| ==> notes[i].id != notes[j].id
  }

  /** `notes.firstIndex(where: { $0.id == id })`. */
  function FirstIndex(notes: seq<VoiceNote>, id: NoteId): (r: Option<nat>)
    ensures r.None? <==> !HasId(notes, id)
    ensures r.Some? ==> r.value < |notes| && notes[r.value].id == id
    ensures r.Some? ==> forall j :: 0 <= j < r.value ==> notes[j].id != id
  {
    if notes == [] then None
    else if notes[0].id == id then Some(0)
    else
      match FirstIndex(notes[1..], id)
      case None =>
        assert forall i :: 1 <= i < |notes| ==> notes[i] == notes[1..][i - 1];
        None
      case Some(k) => Some(k + 1)
  }

  /** `notes.remove(at: i)`: the neighbours of `i` close up, in order. */
  function RemoveAt(notes: seq<VoiceNote>, i: nat): (r: seq<VoiceNote>)
    requires i < |notes|
    ensures |r| == |notes| - 1
    ensures forall k :: 0 <= k < i ==> r[k] == notes[k]
    ensures forall k :: i <= k < |r| ==> r[k] == notes[k + 1]
  {
    notes[..i] + notes[i + 1..]
  }

  /**
   * Removing the note found by `FirstIndex` from a list with unique ids takes
   * out that note and nothing else, and the ids stay unique.
   */
  lemma RemoveFirstById(notes: seq<VoiceNote>, id: NoteId, i: nat)
    requires UniqueIds(notes) && FirstIndex(notes, id) == Some(i)
    ensures UniqueIds(RemoveAt(notes, i))
    ensures !HasId(RemoveAt(notes, i), id)
    ensures forall n :: n in RemoveAt(notes, i) <==> n in notes && n.id != id
  {
    var r := RemoveAt(notes, i);
    forall n
      ensures n in r <==> n in notes && n.id != id
    {
      if n in r {
        var k :| 0 <= k < |r| && r[k] == n;
        if k < i { assert notes[k] == n; } else { assert notes[k + 1] == n; }
      }
      if n in notes && n.id != id {
        var k :| 0 <= k < |notes| && notes[k] == n;
        if k < i { assert r[k] == n; } else { assert r[k - 1] == n; }
      }
    }
  }

  /** The literal part of a generated title. */
  const TitlePrefix: string := "New Recording "

  /** The title `stopRecording` gives the note it adds to a list of `count` notes. */
  function NewTitle(count: nat): (t: string)
    ensures |t| > |TitlePrefix| && t[..|TitlePrefix|] == TitlePrefix
    ensures Formatting.IsCanonical(t[|TitlePrefix|..])
    ensures Formatting.DigitsValue(t[|TitlePrefix|..]) == count + 1
  {
    var digits := Formatting.Decimal(count + 1);
    var t := TitlePrefix + digits;
    assert t[|TitlePrefix|..] == digits;
    t
  }

  /** Generated titles tell list lengths apart: equal titles mean equal counts. */
  lemma NewTitleInjective(a: nat, b: nat)
    ensures NewTitle(a) == NewTitle(b) <==> a == b
  {
    if NewTitle(a) == NewTitle(b) {
      var suffix := NewTitle(a)[|TitlePrefix|..];
      assert suffix == NewTitle(b)[|TitlePrefix|..];
    }
  }

  /**
   * The title depends on the count only, so it is not unique: after a note is
   * added and any note is then deleted, the next generated title repeats the
   * added note's title.
   */
  lemma GeneratedTitleRepeats(notes: seq<VoiceNote>, added: VoiceNote, i: nat)
    requires added.title == NewTitle(|notes|)
    requires i <= |notes|
    ensures NewTitle(|RemoveAt([added] + notes, i)|) == added.title
  {
  }

  /**
   * Two recordings into an empty list give "New Recording 1" and then
   * "New Recording 2", newest first; deleting the first one leaves the second.
   */
  lemma TwoRecordingsThenDelete(a: VoiceNote, b: VoiceNote)
    requires a.id != b.id
    ensures NewTitle(0) == "New Recording 1" && NewTitle(1) == "New Recording 2"
    ensures FirstIndex([b] + ([a] + []), a.id) == Some(1)
    ensures RemoveAt([b] + ([a] + []), 1) == [b]
  {
    assert Formatting.Decimal(1) == "1" && Formatting.Decimal(2) == "2";
  }

  /** `notes[index].title = newName` at the first note with `id`; no change when there is none. */
  function Renamed(notes: seq<VoiceNote>, id: NoteId, newName: string): (r: seq<VoiceNote>)
    ensures |r| == |notes|
    ensures forall k :: 0 <= k < |r| ==> SameRecording(notes[k], r[k])
    ensures !HasId(notes, id) ==> r == notes
    ensures FirstIndex(notes, id).Some? ==>
      var i := FirstIndex(notes, id).value;
      r[i].title == newName && forall k :: 0 <= k < |r| && k != i ==> r[k] == notes[k]
    ensures UniqueIds(notes) ==> UniqueIds(r)
  {
    match FirstIndex(notes, id)
    case None => notes
    case Some(i) => notes[i := notes[i].WithTitle(newName)]
  }

  /** The indices below `n` that are not in `offsets`, ascending. */
  function Survivors(n: nat, offsets: set<nat>): (idx: seq<nat>)
    ensures forall k :: 0 <= k < |idx| ==> idx[k] < n && idx[k] !in offsets
    ensures forall k, l :: 0 <= k < l < |idx| ==> idx[k] < idx[l]
    ensures forall i :: 0 <= i < n && i !in offsets ==> i in idx
  {
    if n == 0 then []
    else Survivors(n - 1, offsets) + (if n - 1 in offsets then [] else [n - 1])
  }

  /** `notes.remove(atOffsets: offsets)`. */
  function RemoveOffsets(notes: seq<VoiceNote>, offsets: set<nat>): (r: seq<VoiceNote>)
    ensures |r| <= |notes|
    ensures forall n :: n in r ==> n in notes
    ensures (forall i :: i in offsets ==> i >= |notes|) ==> r == notes
  {
    if notes == [] then []
    else
      var last := |notes| - 1;
      RemoveOffsets(notes[..last], offsets) + (if last in offsets then [] else [notes[last]])
  }

  /**
   * `RemoveOffsets` keeps exactly the notes at the surviving indices, in
   * ascending index order: survivors keep their relative order.
   */
  lemma {:induction false} RemoveOffsetsKeepsSurvivors(notes: seq<VoiceNote>, offsets: set<nat>)
    ensures |RemoveOffsets(notes, offsets)| == |Survivors(|notes|, offsets)|
    ensures forall k :: 0 <= k < |RemoveOffsets(notes, offsets)| ==>
      RemoveOffsets(notes, offsets)[k] == notes[Survivors(|notes|, offsets)[k]]
  {
    if notes != [] {
      var last := |notes| - 1;
      var front := notes[..last];
      RemoveOffsetsKeepsSurvivors(front, offsets);
      var r, idx := RemoveOffsets(notes, offsets), Survivors(|notes|, offsets);
      var r', idx' := RemoveOffsets(front, offsets), Survivors(last, offsets);
      var tail := if last in offsets then [] else [notes[last]];
      assert r == r' + tail;
      assert idx == idx' + (if last in offsets then [] else [last]);
      forall k | 0 <= k < |r|
        ensures r[k] == notes[idx[k]]
      {
        if k < |r'| {
          assert r[k] == r'[k] == front[idx'[k]];
        }
      }
    }
  }

  /** The offsets below `n`. */
  function Below(offsets: set<nat>, n: nat): set<nat> {
    set i | i in offsets && i < n
  }

  /** Exactly one index survives for each index below `n` that is not removed. */
  lemma {:induction false} SurvivorsCount(n: nat, offsets: set<nat>)
    ensures |Survivors(n, offsets)| + |Below(offsets, n)| == n
  {
    if n == 0 {
      assert Below(offsets, 0) == {};
    } else {
      SurvivorsCount(n - 1, offsets);
      BelowStep(offsets, n - 1);
    }
  }

  /** Going one index further adds that index to `Below` exactly when it is removed. */
  lemma BelowStep(offsets: set<nat>, n: nat)
    ensures |Below(offsets, n + 1)| == |Below(offsets, n)| + (if n in offsets then 1 else 0)
  {
    var before := Below(offsets, n);
    assert n !in before;
    if n in offsets {
      assert Below(offsets, n + 1) == before + {n};
    } else {
      assert Below(offsets, n + 1) == before;
    }
  }

  /** Removing a set of valid offsets shortens the list by exactly their number. */
  lemma RemoveOffsetsLength(notes: seq<VoiceNote>, offsets: set<nat>)
    requires forall i :: i in offsets ==> i < |notes|
    ensures |RemoveOffsets(notes, offsets)| == |notes| - |offsets|
  {
    RemoveOffsetsKeepsSurvivors(notes, offsets);
    SurvivorsCount(|notes|, offsets);
    assert Below(offsets, |notes|) == offsets;
  }

  /**
   * On a list with unique ids, `RemoveOffsets` removes exactly the notes at the
   * given offsets: a note's id is still present iff its index was not removed,
   * and the ids stay unique.
   */
  lemma RemoveOffsetsExactly(notes: seq<VoiceNote>, offsets: set<nat>)
    requires UniqueIds(notes)
    ensures UniqueIds(RemoveOffsets(notes, offsets))
    ensures forall i :: 0 <= i < |notes| ==>
      (HasId(RemoveOffsets(notes, offsets), notes[i].id) <==> i !in offsets)
  {
    var r, idx := RemoveOffsets(notes, offsets), Survivors(|notes|, offsets);
    RemoveOffsetsKeepsSurvivors(notes, offsets);
    forall k, l | 0 <= k < l < |r|
      ensures r[k].id != r[l].id
    {
      assert idx[k] < idx[l];
    }
    forall i | 0 <= i < |notes|
      ensures HasId(r, notes[i].id) <==> i !in offsets
    {
      if i !in offsets {
        var k :| 0 <= k < |idx| && idx[k] == i;
        assert r[k].id == notes[i].id;
      }
      if HasId(r, notes[i].id) {
        var k :| 0 <= k < |r| && r[k].id == notes[i].id;
        assert notes[idx[k]].id == notes[i].id;
        assert idx[k] == i;
      }
    }
  }

  /** Deleting one index through the offsets form agrees with `RemoveAt`. */
  lemma {:induction false} RemoveOffsetsSingle(notes: seq<VoiceNote>, i: nat)
    requires i < |notes|
    ensures RemoveOffsets(notes, {i}) == RemoveAt(notes, i)
  {
    var last := |notes| - 1;
    if i < last {
      RemoveOffsetsSingle(notes[..last], i);
      assert RemoveAt(notes[..last], i) + [notes[last]] == RemoveAt(notes, i);
    }
  }
}
