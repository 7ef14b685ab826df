/** The `VoiceNote` value: one recording and its metadata. */
module Models {
  import opened Optional
  import Formatting

  /** A note's `UUID`. */
  type NoteId = nat
  /** A `Date`, as an opaque instant. */
  type Timestamp = int
  /** A file `URL`. */
  type Url = string

  /**
   * A recording. `duration` is `Int(duration)`, the whole seconds the source
   * keeps once it formats the value. Only `title` is declared `var`; the other
   * fields are `let` and are fixed when the note is built.
   */
  datatype VoiceNote = VoiceNote(
    id: NoteId,
    title: string,
    date: Timestamp,
    duration: nat,
    fileURL: Url,
    location: Option<string>)
  {
    /** `formattedDuration`: "m:ss", reading back as exactly the duration. */
    function FormattedDuration(): (r: string)
      ensures Formatting.ParseMinSec(r) == Some(duration)
      ensures |Formatting.Seconds(r)| == 2
      ensures Formatting.DigitsValue(Formatting.Minutes(r)) == duration / 60
    {
      var r := Formatting.MinSec(duration);
      Formatting.MinSecParse(r, duration);
      r
    }

    /** The one mutation the struct allows: assigning `title`. */
    function WithTitle(newTitle: string): (r: VoiceNote)
      ensures r.title == newTitle && SameRecording(this, r)
      ensures newTitle == title ==> r == this
    {
      this.(title := newTitle)
    }
  }

  /** `a` and `b` agree on every field fixed at construction (all but `title`). */
  predicate SameRecording(a: VoiceNote, b: VoiceNote) {
    && a.id == b.id
    && a.date == b.date
    && a.duration == b.duration
    && a.fileURL == b.fileURL
    && a.location == b.location
  }

  /** A note is determined by its fixed fields and its title. */
  lemma SameRecordingAndTitle(a: VoiceNote, b: VoiceNote)
    requires SameRecording(a, b) && a.title == b.title
    ensures a == b
  {
  }

  /** A note an hour long shows "60:00". */
  lemma HourLongNote(n: VoiceNote)
    requires n.duration == 3600
    ensures n.FormattedDuration() == "60:00"
  {
    Formatting.MinSecExamples();
  }
}
