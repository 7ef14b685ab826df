# EchoNote note-list controller in Dafny

EchoNote is a voice-memo app. Its one piece of local logic is the note-list
controller `VoiceNotesViewModel`:

- it keeps the list of recordings, newest first;
- it adds a note when a recording stops;
- it deletes notes by identity or by a set of list offsets;
- it renames a note in place;
- it tracks which note is expanded and whether that note is playing;
- it writes the whole list to the preference store after every change to it.

This project models that controller and the `VoiceNote` value it manages, and
proves what each operation does to the list, the selection, the player and the
stored list.

Modules, one per concern:

- `Optional` (optional.dfy): Swift's `T?`.
- `Formatting` (formatting.dfy): `%d`, `%02d` and the `"%d:%02d"` minutes:seconds
  rendering. It also defines a reader `ParseMinSec`, and the proofs show the two
  are inverse.
- `Models` (models.dfy): the `VoiceNote` value. Only `title` can change.
- `NoteList` (note_list.dfy): the list operations the controller performs, as
  functions. These are lookup by id, `remove(at:)`, `remove(atOffsets:)`,
  renaming and the generated title. The lemmas about them are here too.
- `Selection` (selection.dfy): the expansion/playback state machine. Its state
  is `expandedNoteId` plus the player's `isPlaying` and `currentTime`, and each
  controller operation is a function on that state.
- `Services` (services.dfy): the collaborators, reduced to the state the
  controller sees. These are the player's flags and the stored note list.
- `ViewModels` (view_models.dfy): the class `VoiceNotesViewModel`. Its methods
  update `notes` and `expandedNoteId` in place, call the player and save to
  storage. `deleteNotes(at:)` keeps its loop: it runs over every index of the
  list in ascending order and acts on those in the offset set, which visits
  the offsets in the order `IndexSet` gives them. Its object
  invariant `Valid()` holds two facts:
  - the stored list always equals `notes`;
  - with no note expanded, the player is stopped at position zero.

  The client method `RecordTwiceDeleteOlder` runs the two-recordings-then-delete
  scenario through `StopRecording` and `DeleteNote` from their contracts alone.

Inputs from the outside world become parameters:

- the recorder's result (`recorded`);
- the outcome of copying the recording into the documents directory (`saved`);
- `UUID()` (`freshId`, assumed absent from the list, as a fresh UUID is);
- `Date()` (`now`);
- the location service's current place (`location`);
- whether the audio decoder can open a file (`decodable`).

Durations and playback times are whole seconds (`nat`). They stand for the
`Int(duration)` the source takes before formatting.

Two behaviours of the source worth knowing:

- Playback does not resume from a retained position. `play(url:)` builds a new
  decoder for the file every time (AudioPlaybackService.swift:21), so after a
  pause, playing starts the file again. The model's player keeps no decoder
  position.
- `deleteNotes(at:)` walks the `IndexSet` in ascending order
  (VoiceNotesViewModel.swift:82). If the expanded note is among the offsets,
  the player is stopped once and the selection is cleared.

## Model

| member | source | states |
|---|---|---|
| Formatting.Decimal | echonote/echonote/Models/VoiceNote.swift:24-26 | `%d` output has no leading zero and denotes exactly `n` |
| Formatting.TwoDigits | echonote/echonote/Models/VoiceNote.swift:25-26 | `%02d` of a value below 100 is exactly two digits denoting it |
| Formatting.MinSec | echonote/echonote/Models/VoiceNote.swift:23-26 | "m:ss": canonical minutes = t / 60 (never wrapped into hours), a colon, two digits = t % 60 < 60 |
| Formatting.DecimalOfCanonical | echonote/echonote/Models/VoiceNote.swift:26 | every `%d` numeral is the rendering of its own value, so `%d` is one-to-one |
| Formatting.MinSecParse | echonote/echonote/Models/VoiceNote.swift:23-26 | `s` is the rendering of `t` iff `s` reads back as `t`: rendering and reading are inverse |
| Formatting.MinSecInjective | echonote/echonote/Models/VoiceNote.swift:23-26 | two durations render alike iff they are equal |
| Formatting.MinSecExamples | echonote/echonote/Models/VoiceNote.swift:24 | 3600 s shows "60:00", 59 s "0:59", 61 s "1:01" |
| Models.VoiceNote.FormattedDuration | echonote/echonote/Models/VoiceNote.swift:23-27 | `formattedDuration` reads back as the duration, with a two-character seconds field |
| Models.VoiceNote.WithTitle | echonote/echonote/Models/VoiceNote.swift:4-9 | assigning `title` changes the title and keeps id, date, duration, file and location |
| Models.SameRecordingAndTitle | echonote/echonote/Models/VoiceNote.swift:4-9 | a note is determined by its fixed fields plus its title |
| Models.HourLongNote | echonote/echonote/Models/VoiceNote.swift:24 | a note of 3600 s shows "60:00" |
| NoteList.FirstIndex | echonote/echonote/ViewModels/VoiceNotesViewModel.swift:67 | `None` iff no note has the id; otherwise an index holding the id with none before it |
| NoteList.RemoveAt | echonote/echonote/ViewModels/VoiceNotesViewModel.swift:76 | one shorter; notes before the index stay, notes after it move down one |
| NoteList.RemoveFirstById | echonote/echonote/ViewModels/VoiceNotesViewModel.swift:67-77 | with unique ids, removing the found note leaves exactly the other notes, ids still unique |
| NoteList.NewTitle | echonote/echonote/ViewModels/VoiceNotesViewModel.swift:52 | "New Recording " followed by the canonical numeral of count + 1 |
| NoteList.NewTitleInjective | echonote/echonote/ViewModels/VoiceNotesViewModel.swift:52 | generated titles are equal iff the list lengths were equal |
| NoteList.GeneratedTitleRepeats | echonote/echonote/ViewModels/VoiceNotesViewModel.swift:52-76 | after a note is added and any note deleted, the next generated title repeats the added one's |
| NoteList.TwoRecordingsThenDelete | echonote/echonote/ViewModels/VoiceNotesViewModel.swift:50-76 | two recordings give "New Recording 1", "New Recording 2", newest first; deleting the older leaves the newer |
| NoteList.Renamed | echonote/echonote/ViewModels/VoiceNotesViewModel.swift:94-98 | same length; every note keeps its fixed fields; only the first match's title changes; unknown id: no change; ids stay unique |
| NoteList.Survivors | echonote/echonote/ViewModels/VoiceNotesViewModel.swift:90 | the indices not removed, strictly ascending, in range, and all of them |
| NoteList.RemoveOffsets | echonote/echonote/ViewModels/VoiceNotesViewModel.swift:90 | `remove(atOffsets:)`: never longer, only notes of the list, and no change when no offset is a valid index; its exact effect is stated by the lemmas below |
| NoteList.RemoveOffsetsKeepsSurvivors | echonote/echonote/ViewModels/VoiceNotesViewModel.swift:90 | `remove(atOffsets:)` keeps exactly the notes at the surviving indices, in their original order |
| NoteList.RemoveOffsetsLength | echonote/echonote/ViewModels/VoiceNotesViewModel.swift:80-90 | removing valid offsets shortens the list by exactly their number |
| NoteList.RemoveOffsetsExactly | echonote/echonote/ViewModels/VoiceNotesViewModel.swift:80-90 | with unique ids, a note stays iff its offset was not given; ids stay unique |
| NoteList.RemoveOffsetsSingle | echonote/echonote/ViewModels/VoiceNotesViewModel.swift:76-90 | removing the offset set {i} is removing at i |
| Selection.PlaybackStopped | echonote/echonote/Services/AudioPlaybackService.swift:44-48 | `stop()` keeps the selection, clears `isPlaying`, rewinds to zero |
| Selection.ExpansionToggled | echonote/echonote/ViewModels/VoiceNotesViewModel.swift:106-119 | collapses the expanded note, else expands it; stops the player whenever a note was expanded; after it nothing plays |
| Selection.PlaybackToggled | echonote/echonote/ViewModels/VoiceNotesViewModel.swift:121-129 | no change unless the note is expanded; then playing becomes "was not playing and the file opens"; selection and time kept |
| Selection.Deselected | echonote/echonote/ViewModels/VoiceNotesViewModel.swift:69-73 | the selection is cleared, and the player stopped, iff the expanded id is among the deleted ids |
| Selection.ExpansionToggledTwice | echonote/echonote/ViewModels/VoiceNotesViewModel.swift:106-119 | from idle, tapping a note twice returns to idle with position zero |
| Services.AudioPlayer.Play | echonote/echonote/Services/AudioPlaybackService.swift:19-36 | plays and remembers the file if it opens; otherwise nothing changes |
| Services.AudioPlayer.Pause | echonote/echonote/Services/AudioPlaybackService.swift:38-41 | clears only `isPlaying` |
| Services.AudioPlayer.Stop | echonote/echonote/Services/AudioPlaybackService.swift:44-48 | clears `isPlaying` and sets `currentTime` to zero |
| Services.VoiceNoteStorage.SaveNotes | echonote/echonote/Services/StorageService.swift:13-17 | after saving, loading gives back exactly the saved list |
| Services.VoiceNoteStorage.LoadNotes | echonote/echonote/Services/StorageService.swift:19-25 | the stored list, or empty when the slot is missing or does not decode |
| ViewModels.VoiceNotesViewModel.Valid | echonote/echonote/ViewModels/VoiceNotesViewModel.swift:59-60 | every change to `notes` is followed by a save, so the store holds exactly `notes` (or nothing decodable and `notes` is empty); with nothing expanded the player is not playing |
| ViewModels.VoiceNotesViewModel.constructor | echonote/echonote/ViewModels/VoiceNotesViewModel.swift:17-37 | fresh player, stopped at zero with no file; nothing expanded; notes loaded from storage |
| ViewModels.VoiceNotesViewModel.StopRecording | echonote/echonote/ViewModels/VoiceNotesViewModel.swift:44-64 | no recording or failed copy: nothing changes; else list is new note + old list, titled by old count + 1, and saved |
| ViewModels.VoiceNotesViewModel.DeleteNote | echonote/echonote/ViewModels/VoiceNotesViewModel.swift:66-78 | unknown id: nothing changes; else the first match is removed, selection cleared iff it was expanded, list saved |
| ViewModels.VoiceNotesViewModel.DeleteNotes | echonote/echonote/ViewModels/VoiceNotesViewModel.swift:80-92 | the notes at the offsets are removed, survivors in order, length drops by their number; selection cleared iff a removed note was expanded; list saved |
| ViewModels.VoiceNotesViewModel.RenameNote | echonote/echonote/ViewModels/VoiceNotesViewModel.swift:94-98 | only the first match's title changes (empty allowed); saved; unknown id changes and saves nothing |
| ViewModels.VoiceNotesViewModel.FormatTime | echonote/echonote/ViewModels/VoiceNotesViewModel.swift:100-104 | "m:ss" that reads back as the time, seconds two digits below 60 |
| ViewModels.VoiceNotesViewModel.ToggleExpansion | echonote/echonote/ViewModels/VoiceNotesViewModel.swift:106-119 | selection and player follow `ExpansionToggled`; afterwards the player is stopped at zero |
| ViewModels.VoiceNotesViewModel.TogglePlayback | echonote/echonote/ViewModels/VoiceNotesViewModel.swift:121-129 | follows `PlaybackToggled`; the note's file is opened only when it is expanded, paused and opens; list untouched |
| ViewModels.VoiceNotesViewModel.StopPlayback | echonote/echonote/ViewModels/VoiceNotesViewModel.swift:131-133 | player stopped at zero, selection kept |
| ViewModels.VoiceNotesViewModel.BeginRecording | echonote/echonote/ContentView.swift:36-40 | before recording starts, playback is stopped at zero and the selection cleared; the player's file and the list are kept |

## Left out

- The constructor always builds a fresh `AudioPlayer`. `init`
  (VoiceNotesViewModel.swift:17-22) also accepts an injected player, recorder
  and location manager. Only the default collaborators are modelled, which is
  what the one call site (ContentView.swift:4) uses. The invariant relies on
  the player being fresh at construction.
- `startRecording()` (VoiceNotesViewModel.swift:39-42) only calls the location
  service and the recorder. Both are platform services, so it is not modelled.
  `BeginRecording` covers the controller state changes the record button makes
  before it.
- Recorder internals (AudioRecordingService.swift) are not modelled: the
  AVAudioRecorder, the audio session and the 0.1 s timer that accumulates
  `recordingTime`. Their result enters `StopRecording` as `recorded`.
- Player internals are not modelled: the AVAudioPlayer and the timer that
  publishes `currentTime` and stops the player at the end of the media
  (AudioPlaybackService.swift:25-31). The model's `currentTime` changes only
  through `Stop`.
- Location lookup (LocationService.swift) is not modelled. Authorization and
  asynchronous reverse geocoding are platform services. The place string is the
  `location` argument.
- JSON encoding and decoding are replaced by the stored list itself. An
  undecodable slot loads as empty. Encoding is taken never to fail: it can fail
  only on a non-finite `Double`, and the model's durations are whole numbers.
- File copy and removal are not modelled. The copy's outcome is the `saved`
  argument. Removing a note's file is best-effort, and its error is ignored by
  the controller, so it leaves no trace in the model.
- `formattedDate` and `formattedTime` (VoiceNote.swift:11-21) are not modelled,
  because they depend on DateFormatter and the locale.
- Formatting.Decimal: does not model integer width. `String(format:)` converts
  its `%d` argument as a signed 32-bit `int` (VoiceNote.swift:26,
  VoiceNotesViewModel.swift:103), so minutes of 2^31 or more would print
  wrapped. The model uses an unbounded `nat`, because no duration or playback
  time comes near such a value.
- Formatting.MinSec: does not model the trap of `Int(duration)`
  (VoiceNote.swift:24-25, VoiceNotesViewModel.swift:101-102) for a value beyond
  `Int.max`, nor the 32-bit wrap of the minutes it prints. Its argument is an
  unbounded `nat` for the same reason.
- Fractional seconds and `Double` arithmetic are not modelled. Durations and
  times are the whole seconds `Int(...)` yields.
- The Combine bindings are not modelled: `isPlaying` and `currentTime` are read
  straight from the player.
- The SwiftUI views and `NoteDetailViewModel` are not modelled.
  `NoteDetailViewModel.formatTime` is the same computation as `FormatTime`.
