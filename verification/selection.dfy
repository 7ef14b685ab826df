/**
 * The selection and playback state of the note list: which note is expanded,
 * and the player's `isPlaying` and `currentTime` that the controller mirrors.
 * Each function is the effect of one controller operation on that state.
 */
module Selection {
  import opened Optional
  import opened Models

  /** `expandedNoteId`, `isPlaying` and `currentTime` (whole seconds). */
  datatype Session = Session(expanded: Option<NoteId>, playing: bool, time: nat)

  /** Nothing expanded, player stopped at zero. */
  const Idle: Session := Session(None, false, 0)

  /** When no note is expanded, nothing plays and the position is zero. */
  predicate Coherent(s: Session) {
    s.expanded.None? ==> !s.playing && s.time == 0
  }

  /** `player.stop()`: the selection is kept, the player halts and rewinds. */
  function PlaybackStopped(s: Session): (r: Session)
    ensures r.expanded == s.expanded
    ensures !r.playing && r.time == 0 && Coherent(r)
  {
    s.(playing := false, time := 0)
  }

  /**
   * `toggleExpansion(for:)`: collapses the note if it is the expanded one and
   * expands it otherwise; the player is stopped whenever some note was expanded.
   */
  function ExpansionToggled(s: Session, id: NoteId): (r: Session)
    ensures r.expanded == if s.expanded == Some(id) then None else Some(id)
    ensures s.expanded.Some? ==> !r.playing && r.time == 0
    ensures s.expanded.None? ==> r.playing == s.playing && r.time == s.time
    ensures Coherent(s) ==> Coherent(r) && !r.playing && r.time == 0
  {
    if s.expanded == Some(id) then PlaybackStopped(s).(expanded := None)
    else if s.expanded.Some? then PlaybackStopped(s).(expanded := Some(id))
    else s.(expanded := Some(id))
  }

  /**
   * `togglePlayback(for:)`: acts only on the expanded note; pauses when
   * playing, otherwise starts the player, which plays only if the file opens.
   */
  function PlaybackToggled(s: Session, id: NoteId, decodable: bool): (r: Session)
    ensures r.expanded == s.expanded && r.time == s.time
    ensures s.expanded != Some(id) ==> r == s
    ensures s.expanded == Some(id) ==> r.playing == (!s.playing && decodable)
    ensures Coherent(s) ==> Coherent(r)
  {
    if s.expanded != Some(id) then s
    else if s.playing then s.(playing := false)
    else s.(playing := decodable)
  }

  /**
   * The effect of deleting the notes whose ids are `ids`: if the expanded note
   * is among them the player is stopped and the selection cleared; otherwise
   * nothing changes.
   */
  function Deselected(s: Session, ids: set<NoteId>): (r: Session)
    ensures r.expanded.None? <==> s.expanded.None? || s.expanded.value in ids
    ensures r.expanded.Some? ==> r == s
    ensures s.expanded.Some? && s.expanded.value in ids ==> r == Idle
    ensures Coherent(s) ==> Coherent(r)
  {
    if s.expanded.Some? && s.expanded.value in ids then Idle else s
  }

  /** Deselecting for `a` and then for `b` is deselecting for both at once. */
  lemma DeselectedUnion(s: Session, a: set<NoteId>, b: set<NoteId>)
    ensures Deselected(Deselected(s, a), b) == Deselected(s, a + b)
  {
  }

  /** Expanding a note from the idle state and tapping it again returns to idle, at position zero. */
  lemma ExpansionToggledTwice(s: Session, id: NoteId)
    requires Coherent(s) && s.expanded.None?
    ensures ExpansionToggled(ExpansionToggled(s, id), id) == Idle
  {
  }
}
