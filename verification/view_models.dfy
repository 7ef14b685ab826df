/** `VoiceNotesViewModel`: the note-list controller. */
module ViewModels {
  import opened Optional
  import opened Models
  import opened NoteList
  import opened Selection
  import opened Services
  import Formatting

  /**
   * Owns the list `notes` (newest first) and the selection `expandedNoteId`,
   * drives the player, and writes the whole list to storage after every change
   * to it. `isPlaying` and `currentTime` are the player's own fields, which the
   * source mirrors into published properties.
   */
  class VoiceNotesViewModel {
    var notes: seq<VoiceNote>
    var expandedNoteId: Option<NoteId>
    const player: AudioPlayer
    const storage: VoiceNoteStorage

    /** The selection together with the player's flags. */
    function Snapshot(): Session
      reads this, player
    {
      Session(expandedNoteId, player.isPlaying, player.currentTime)
    }

    /**
     * The stored list is always the in-memory list, and with no note expanded
     * the player is stopped at zero. So a reload gives back `notes`: either the
     * slot holds exactly `notes`, or nothing decodable was ever stored and the
     * list is empty.
     */
    ghost predicate Valid()
      reads this, player, storage
      ensures Valid() ==> storage.slot == Stored(notes) || (!storage.slot.Stored? && notes == [])
      ensures Valid() && expandedNoteId.None? ==> !player.isPlaying
    {
      storage.Load() == notes && Coherent(Snapshot())
    }

    /** `init`: a fresh player, nothing expanded, the list loaded from `storage`. */
    constructor (storage: VoiceNoteStorage)
      ensures Valid()
      ensures this.storage == storage && fresh(player)
      ensures notes == storage.Load() && expandedNoteId == None
      ensures storage.slot == old(storage.slot)
      ensures !player.isPlaying && player.currentTime == 0 && player.source == None
    {
      var loaded := storage.LoadNotes();
      this.storage := storage;
      player := new AudioPlayer();
      expandedNoteId := None;
      notes := loaded;
    }

    /**
     * `stopRecording()`. `recorded` is what the recorder yields, `saved` the
     * outcome of copying it into the documents directory (`None` when the copy
     * throws), `freshId`, `now` and `location` the values of `UUID()`, `Date()`
     * and the location service at that moment. With nothing recorded or a
     * failed copy nothing changes; otherwise the new note goes to the front and
     * the list is saved.
     */
    method StopRecording(recorded: Option<Recording>, saved: Option<Url>,
                         freshId: NoteId, now: Timestamp, location: Option<string>)
      requires Valid()
      requires !HasId(notes, freshId)
      modifies this, storage
      ensures Valid()
      ensures expandedNoteId == old(expandedNoteId)
      ensures recorded.None? || saved.None? ==> notes == old(notes) && storage.slot == old(storage.slot)
      ensures recorded.Some? && saved.Some? ==>
        && notes == [VoiceNote(freshId, NewTitle(|old(notes)|), now, recorded.value.duration, saved.value, location)]
                    + old(notes)
        && storage.slot == Stored(notes)
      ensures UniqueIds(old(notes)) ==> UniqueIds(notes)
    {
      if recorded.None? || saved.None? {
        return;
      }
      var note := VoiceNote(freshId, NewTitle(|notes|), now, recorded.value.duration, saved.value, location);
      notes := [note] + notes;
      storage.SaveNotes(notes);
    }

    /**
     * `deleteNote(_:)`. An id not in the list changes nothing. Otherwise the
     * first note with that id is removed, the player stopped and the selection
     * cleared if that id was expanded, and the list saved. Removing the note's
     * file is best-effort and has no effect here.
     */
    method DeleteNote(note: VoiceNote)
      requires Valid()
      modifies this, player, storage
      ensures Valid()
      ensures !HasId(old(notes), note.id) ==> unchanged(this, player, storage)
      ensures FirstIndex(old(notes), note.id).Some? ==>
        && notes == RemoveAt(old(notes), FirstIndex(old(notes), note.id).value)
        && Snapshot() == Deselected(old(Snapshot()), {note.id})
        && storage.slot == Stored(notes)
      ensures player.source == old(player.source)
      ensures UniqueIds(old(notes)) ==> UniqueIds(notes) && !HasId(notes, note.id)
    {
      var index := FirstIndex(notes, note.id);
      if index.None? {
        return;
      }
      if expandedNoteId == Some(note.id) {
        player.Stop();
        expandedNoteId := None;
      }
      if UniqueIds(notes) {
        RemoveFirstById(notes, note.id, index.value);
      }
      notes := RemoveAt(notes, index.value);
      storage.SaveNotes(notes);
    }

    /**
     * `deleteNotes(at:)`: every offset must be a valid index. The loop visits
     * the offsets in ascending order and stops the player and clears the
     * selection at the one holding the expanded note; then the notes at the
     * offsets are removed, survivors keeping their order, and the list saved.
     */
    method DeleteNotes(offsets: set<nat>)
      requires Valid()
      requires forall i :: i in offsets ==> i < |notes|
      modifies this, player, storage
      ensures Valid()
      ensures notes == RemoveOffsets(old(notes), offsets)
      ensures |notes| == |old(notes)| - |offsets|
      ensures Snapshot() == Deselected(old(Snapshot()), IdsAt(old(notes), offsets, |old(notes)|))
      ensures storage.slot == Stored(notes)
      ensures player.source == old(player.source)
      ensures UniqueIds(old(notes)) ==> UniqueIds(notes)
    {
      ghost var start := Snapshot();
      for index := 0 to |notes|
        invariant notes == old(notes) && storage.slot == old(storage.slot)
        invariant player.source == old(player.source)
        invariant Snapshot() == Deselected(start, IdsAt(notes, offsets, index))
      {
        if index in offsets {
          var note := notes[index];
          assert IdsAt(notes, offsets, index + 1) == IdsAt(notes, offsets, index) + {note.id};
          DeselectedUnion(start, IdsAt(notes, offsets, index), {note.id});
          if expandedNoteId == Some(note.id) {
            player.Stop();
            expandedNoteId := None;
          }
        } else {
          assert IdsAt(notes, offsets, index + 1) == IdsAt(notes, offsets, index);
        }
      }
      RemoveOffsetsLength(notes, offsets);
      if UniqueIds(notes) {
        RemoveOffsetsExactly(notes, offsets);
      }
      notes := RemoveOffsets(notes, offsets);
      storage.SaveNotes(notes);
    }

    /**
     * `renameNote(_:to:)`: only the title of the first note with the id
     * changes, to any string including the empty one; an unknown id changes
     * nothing and saves nothing.
     */
    method RenameNote(note: VoiceNote, newName: string)
      requires Valid()
      modifies this`notes, storage
      ensures Valid()
      ensures notes == Renamed(old(notes), note.id, newName)
      ensures HasId(old(notes), note.id) ==> storage.slot == Stored(notes)
      ensures !HasId(old(notes), note.id) ==> notes == old(notes) && storage.slot == old(storage.slot)
      ensures UniqueIds(old(notes)) ==> UniqueIds(notes)
    {
      var index := FirstIndex(notes, note.id);
      if index.None? {
        return;
      }
      notes := notes[index.value := notes[index.value].WithTitle(newName)];
      storage.SaveNotes(notes);
    }

    /** `formatTime(_:)` on whole seconds: "m:ss", reading back as `time`. */
    function FormatTime(time: nat): (r: string)
      ensures Formatting.ParseMinSec(r) == Some(time)
      ensures |Formatting.Seconds(r)| == 2 && Formatting.DigitsValue(Formatting.Seconds(r)) < 60
    {
      var r := Formatting.MinSec(time);
      Formatting.MinSecParse(r, time);
      r
    }

    /**
     * `toggleExpansion(for:)`: collapse (stopping the player) if the note is
     * expanded; otherwise stop the player if another note was expanded and
     * expand this one. Playback never starts here.
     */
    method ToggleExpansion(note: VoiceNote)
      requires Valid()
      modifies this`expandedNoteId, player
      ensures Valid()
      ensures Snapshot() == ExpansionToggled(old(Snapshot()), note.id)
      ensures !player.isPlaying && player.currentTime == 0
      ensures player.source == old(player.source)
    {
      if expandedNoteId == Some(note.id) {
        player.Stop();
        expandedNoteId := None;
      } else {
        if expandedNoteId.Some? {
          player.Stop();
        }
        expandedNoteId := Some(note.id);
      }
    }

    /**
     * `togglePlayback(for:)`: nothing unless `note` is the expanded one; then
     * pause when playing, else play its file. `decodable` says whether the
     * player can open the file.
     */
    method TogglePlayback(note: VoiceNote, decodable: bool)
      requires Valid()
      modifies player
      ensures Valid()
      ensures Snapshot() == PlaybackToggled(old(Snapshot()), note.id, decodable)
      ensures player.source ==
        if old(expandedNoteId) == Some(note.id) && !old(player.isPlaying) && decodable
        then Some(note.fileURL) else old(player.source)
    {
      if expandedNoteId != Some(note.id) {
        return;
      }
      if player.isPlaying {
        player.Pause();
      } else {
        player.Play(note.fileURL, decodable);
      }
    }

    /** `stopPlayback()`: stops the player; the selection stays. */
    method StopPlayback()
      requires Valid()
      modifies player
      ensures Valid()
      ensures Snapshot() == PlaybackStopped(old(Snapshot()))
      ensures player.source == old(player.source)
    {
      player.Stop();
    }

    /**
     * The record button pressed while not recording: stop playback and clear
     * the selection before recording starts.
     */
    method BeginRecording()
      requires Valid()
      modifies this`expandedNoteId, player
      ensures Valid()
      ensures Snapshot() == Idle
      ensures player.source == old(player.source)
      ensures notes == old(notes)
    {
      StopPlayback();
      expandedNoteId := None;
    }
  }

  /**
   * Two recordings into an empty store, then deleting the older one: the list
   * and the store hold only the newer note.
   */
  method RecordTwiceDeleteOlder(a: Recording, b: Recording, fileA: Url, fileB: Url, now: Timestamp)
  {
    var storage := new VoiceNoteStorage(Stored([]));
    var vm := new VoiceNotesViewModel(storage);
    vm.StopRecording(Some(a), Some(fileA), 1, now, None);
    var older := vm.notes[0];
    assert older.title == "New Recording 1" by {
      assert Formatting.Decimal(1) == "1";
    }
    vm.StopRecording(Some(b), Some(fileB), 2, now, None);
    var newer := vm.notes[0];
    assert newer.title == "New Recording 2" by {
      assert Formatting.Decimal(2) == "2";
    }
    assert vm.notes == [newer, older];
    vm.DeleteNote(older);
    assert vm.notes == [newer] && storage.Load() == [newer];
  }

  /** The ids of the notes at the offsets below `n`. */
  function IdsAt(notes: seq<VoiceNote>, offsets: set<nat>, n: nat): set<NoteId>
    requires n <= |notes|
  {
    set i | i in offsets && i < n :: notes[i].id
  }
}
