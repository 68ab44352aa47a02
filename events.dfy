/** The note event the recorder logs and plays back (NoteEvent in include/vsynth/Recorder.h). */
module NoteEvents {

  /** A note-on or note-off, stamped with the recording time in seconds. */
  datatype NoteEvent = NoteEvent(timestamp: real, note: int, velocity: real, isNoteOn: bool)

  /** The log a recorder keeps: timestamps start at zero or later, never decrease along the
      log, and never pass the recording clock t. */
  predicate Stamped(ev: seq<NoteEvent>, t: real) {
    && (forall i, j :: 0 <= i < j < |ev| ==> ev[i].timestamp <= ev[j].timestamp)
    && (forall i :: 0 <= i < |ev| ==> 0.0 <= ev[i].timestamp <= t)
  }
}
