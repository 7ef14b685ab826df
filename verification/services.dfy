/**
 * The collaborators the controller drives, reduced to the state it observes:
 * the audio player's flags and the persisted note list.
 */
module Services {
  import opened Optional
  import opened Models

  /** What `stopRecording()` of the recorder yields: the temporary file and the elapsed whole seconds. */
  datatype Recording = Recording(url: Url, duration: nat)

  /**
   * `AudioPlayer`: its published `isPlaying` and `currentTime`, and the file
   * the underlying decoder was last opened on.
   */
  class AudioPlayer {
    var isPlaying: bool
    var currentTime: nat
    var source: Option<Url>

    constructor ()
      ensures !isPlaying && currentTime == 0 && source == None
    {
      isPlaying, currentTime, source := false, 0, None;
    }

    /**
     * `play(url:)`. `decodable` says whether the decoder could be created for
     * `url`; if not, the error is only logged and nothing changes.
     */
    method Play(url: Url, decodable: bool)
      modifies this
      ensures isPlaying == (decodable || old(isPlaying))
      ensures source == if decodable then Some(url) else old(source)
      ensures currentTime == old(currentTime)
    {
      if decodable {
        source := Some(url);
        isPlaying := true;
      }
    }

    /** `pause()`: clears only `isPlaying`. */
    method Pause()
      modifies this`isPlaying
      ensures !isPlaying
    {
      isPlaying := false;
    }

    /** `stop()`: clears `isPlaying` and rewinds `currentTime` to zero. */
    method Stop()
      modifies this`isPlaying, this`currentTime
      ensures !isPlaying && currentTime == 0
    {
      isPlaying := false;
      currentTime := 0;
    }
  }

  /** The `voiceNotes` slot of the preference store. */
  datatype Slot = Missing | Undecodable | Stored(notes: seq<VoiceNote>)

  /** `VoiceNoteStorage`, as far as the note list goes. */
  class VoiceNoteStorage {
    var slot: Slot

    constructor (initial: Slot)
      ensures slot == initial
    {
      slot := initial;
    }

    /** What `loadNotes()` yields: the stored list, or empty when nothing decodes. */
    function Load(): seq<VoiceNote>
      reads this
    {
      if slot.Stored? then slot.notes else []
    }

    /** `loadNotes()`. */
    method LoadNotes() returns (notes: seq<VoiceNote>)
      ensures notes == Load()
      ensures slot.Stored? ==> notes == slot.notes
      ensures !slot.Stored? ==> notes == []
    {
      notes := if slot.Stored? then slot.notes else [];
    }

    /** `saveNotes(_:)`: overwrites the slot, so that loading gives back `notes`. */
    method SaveNotes(notes: seq<VoiceNote>)
      modifies this
      ensures slot == Stored(notes) && Load() == notes
    {
      slot := Stored(notes);
    }
  }
}
