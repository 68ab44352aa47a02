/** The recorder (src/Recorder.cpp): a log of note events stamped with the recording clock, the
    recorded audio, a playback cursor that drains the log in order, and the three exporters.

    `Rec` is the value of the recorder's fields and the functions below are its operations;
    the class `Recorder` keeps the same fields, updates them in place, and is proved to
    perform those operations. */
module Recording {
  import opened Numeric
  import opened NoteEvents
  import opened FileFormats

  /** The fields of a Recorder other than its sample rate. */
  datatype Rec = Rec(
    isRecording: bool, isPlaying: bool,
    noteEvents: seq<NoteEvent>, recordingTime: real,
    audioBuffer: seq<real>,
    playbackTime: real, playbackIndex: nat, eventsToPlay: seq<NoteEvent>)

  /** The constructor: idle, empty, every clock and the cursor at zero. */
  const Fresh: Rec := Rec(false, false, [], 0.0, [], 0.0, 0, [])

  /** The recording clock counts the recorded samples, and every logged event carries a stamp
      the clock had already reached, in log order. */
  predicate Clocked(r: Rec, sampleRate: int)
    requires sampleRate > 0
  {
    ClockOk(r.noteEvents, r.recordingTime, r.audioBuffer, sampleRate)
  }

  /** Clocked, on the three fields it is about. */
  predicate ClockOk(noteEvents: seq<NoteEvent>, recordingTime: real, audioBuffer: seq<real>, sampleRate: int)
    requires sampleRate > 0
  {
    && recordingTime == |audioBuffer| as real / sampleRate as real
    && Stamped(noteEvents, recordingTime)
  }

  // ---------------------------------------------------------------- recording

  function StartedRecording(r: Rec): Rec {
    r.(isRecording := true, recordingTime := 0.0, noteEvents := [], audioBuffer := [])
  }

  function StoppedRecording(r: Rec): Rec {
    r.(isRecording := false)
  }

  /** recordNoteEvent: while recording, the event is appended stamped with the clock. */
  function WithNoteEvent(r: Rec, note: int, velocity: real, isNoteOn: bool): Rec {
    if r.isRecording
    then r.(noteEvents := r.noteEvents + [NoteEvent(r.recordingTime, note, velocity, isNoteOn)])
    else r
  }

  /** recordAudioSample: while recording, the sample is appended and the clock moves on by one
      sample period. */
  function WithAudioSample(r: Rec, sample: real, sampleRate: int): Rec
    requires sampleRate > 0
  {
    if r.isRecording
    then r.(audioBuffer := r.audioBuffer + [sample],
            recordingTime := r.recordingTime + 1.0 / sampleRate as real)
    else r
  }

  /** clear: the log, the audio, the pending list, both clocks and the cursor are reset; the
      recording and playing flags are left as they are. */
  function Cleared(r: Rec): Rec {
    r.(noteEvents := [], audioBuffer := [], recordingTime := 0.0,
       playbackTime := 0.0, playbackIndex := 0, eventsToPlay := [])
  }

  lemma StartKeepsClock(r: Rec, sampleRate: int)
    requires sampleRate > 0
    ensures Clocked(StartedRecording(r), sampleRate) && Clocked(Cleared(r), sampleRate)
    ensures StartedRecording(r).noteEvents == [] && StartedRecording(r).audioBuffer == []
  {
  }

  /** A logged event is stamped with the clock, so the log stays in order and behind it. */
  lemma NoteEventKeepsClock(r: Rec, sampleRate: int, note: int, velocity: real, isNoteOn: bool)
    requires sampleRate > 0 && Clocked(r, sampleRate)
    ensures var r' := WithNoteEvent(r, note, velocity, isNoteOn);
      && Clocked(r', sampleRate)
      && r'.noteEvents == r.noteEvents + (if r.isRecording then [NoteEvent(r.recordingTime, note, velocity, isNoteOn)] else [])
  {
    var r' := WithNoteEvent(r, note, velocity, isNoteOn);
    if r.isRecording {
      var ev := r'.noteEvents;
      assert 0.0 <= r.recordingTime;
      forall i, j | 0 <= i < j < |ev|
        ensures ev[i].timestamp <= ev[j].timestamp
      {
        if j < |ev| - 1 {
          assert ev[i] == r.noteEvents[i] && ev[j] == r.noteEvents[j];
        } else {
          assert ev[i] == r.noteEvents[i];
        }
      }
      forall i | 0 <= i < |ev|
        ensures 0.0 <= ev[i].timestamp <= r'.recordingTime
      {
        if i < |ev| - 1 {
          assert ev[i] == r.noteEvents[i];
        }
      }
    }
  }

  /** One more sample moves the clock on by exactly one sample period, to the new sample
      count over the rate, and leaves every stamp behind it. */
  lemma AudioSampleKeepsClock(r: Rec, sampleRate: int, sample: real)
    requires sampleRate > 0 && Clocked(r, sampleRate)
    ensures var r' := WithAudioSample(r, sample, sampleRate);
      && Clocked(r', sampleRate)
      && r'.recordingTime >= r.recordingTime
      && r'.audioBuffer == r.audioBuffer + (if r.isRecording then [sample] else [])
  {
    var sr := sampleRate as real;
    var n := |r.audioBuffer| as real;
    if r.isRecording {
      assert n / sr + 1.0 / sr == (n + 1.0) / sr;
    }
  }

  // ---------------------------------------------------------------- playback

  function StartedPlayback(r: Rec): Rec {
    if r.noteEvents == [] then r
    else r.(isPlaying := true, playbackTime := 0.0, playbackIndex := 0, eventsToPlay := [])
  }

  function StoppedPlayback(r: Rec): Rec {
    r.(isPlaying := false, eventsToPlay := [])
  }

  /** The events the playback loop takes from cursor i at time t: the maximal run of the log
      from i whose stamps have been reached, in log order. */
  function Due(ev: seq<NoteEvent>, i: nat, t: real): (d: seq<NoteEvent>)
    ensures i >= |ev| ==> d == []
    ensures i + |d| <= |ev| || d == []
    ensures forall k :: 0 <= k < |d| ==> d[k] == ev[i + k] && d[k].timestamp <= t
    ensures i + |d| < |ev| ==> ev[i + |d|].timestamp > t
    decreases |ev| - i
  {
    if i < |ev| && ev[i].timestamp <= t then [ev[i]] + Due(ev, i + 1, t) else []
  }

  /** One more due event moves from the run still to take to the run taken. */
  lemma TakeOne(ev: seq<NoteEvent>, i0: nat, i: nat, t: real, taken: seq<NoteEvent>)
    requires i < |ev| && ev[i].timestamp <= t
    requires taken + Due(ev, i, t) == Due(ev, i0, t)
    ensures (taken + [ev[i]]) + Due(ev, i + 1, t) == Due(ev, i0, t)
  {
    var rest := Due(ev, i + 1, t);
    assert Due(ev, i, t) == [ev[i]] + rest;
    assert (taken + [ev[i]]) + rest == taken + ([ev[i]] + rest);
  }

  /** Once the cursor is at the end of the log or at an event still in the future, the run
      taken is the whole run due. */
  lemma TakeNone(ev: seq<NoteEvent>, i0: nat, i: nat, t: real, taken: seq<NoteEvent>)
    requires i >= |ev| || ev[i].timestamp > t
    requires taken + Due(ev, i, t) == Due(ev, i0, t)
    ensures taken == Due(ev, i0, t)
  {
    assert Due(ev, i, t) == [];
    assert taken + [] == taken;
  }

  /** processPlayback: nothing unless playing; otherwise the playback clock moves on by delta,
      the pending list becomes the run of events now due and the cursor moves past them, and
      once the log is exhausted and the clock is more than two seconds past the end of the
      recording, playback stops and the pending list is emptied. */
  function PlayedBack(r: Rec, delta: real): (r': Rec)
    ensures r'.noteEvents == r.noteEvents && r'.audioBuffer == r.audioBuffer
    ensures r'.recordingTime == r.recordingTime && r'.isRecording == r.isRecording
  {
    if !r.isPlaying then r
    else
      var t := r.playbackTime + delta;
      var due := Due(r.noteEvents, r.playbackIndex, t);
      var moved := r.(playbackTime := t, playbackIndex := r.playbackIndex + |due|, eventsToPlay := due);
      if moved.playbackIndex >= |r.noteEvents| && t > r.recordingTime + 2.0
      then StoppedPlayback(moved)
      else moved
  }

  /** PlayedBack while playing, with the run due named. */
  lemma PlayedBackOf(r: Rec, delta: real, due: seq<NoteEvent>)
    requires r.isPlaying && due == Due(r.noteEvents, r.playbackIndex, r.playbackTime + delta)
    ensures var moved := r.(playbackTime := r.playbackTime + delta,
                            playbackIndex := r.playbackIndex + |due|, eventsToPlay := due);
      PlayedBack(r, delta) ==
        if moved.playbackIndex >= |r.noteEvents| && moved.playbackTime > r.recordingTime + 2.0
        then StoppedPlayback(moved) else moved
  {
  }

  /** The log is in order, so an event from the cursor on is due exactly when its stamp has
      been reached: the run taken stops at the first event still in the future. */
  lemma DueExactly(ev: seq<NoteEvent>, i: nat, t: real)
    requires forall a, b :: 0 <= a < b < |ev| ==> ev[a].timestamp <= ev[b].timestamp
    ensures forall k :: i <= k < |ev| ==> (ev[k].timestamp <= t <==> k < i + |Due(ev, i, t)|)
  {
    var d := Due(ev, i, t);
    forall k | i <= k < |ev|
      ensures ev[k].timestamp <= t <==> k < i + |d|
    {
      if k < i + |d| {
        assert ev[k] == d[k - i];
      } else {
        assert ev[i + |d|].timestamp <= ev[k].timestamp;
      }
    }
  }

  /** The cursor only moves forward, never past the log, and what it passes is delivered: the
      log up to the new cursor is the log up to the old one followed by the pending list. */
  lemma PlaybackCursor(r: Rec, delta: real)
    requires r.playbackIndex <= |r.noteEvents|
    ensures var r' := PlayedBack(r, delta);
      && r.playbackIndex <= r'.playbackIndex <= |r.noteEvents|
      && (r'.isPlaying ==> r.noteEvents[..r'.playbackIndex] == r.noteEvents[..r.playbackIndex] + r'.eventsToPlay)
      && (r'.isPlaying ==> r'.eventsToPlay == r.noteEvents[r.playbackIndex..r'.playbackIndex])
  {
    var ev := r.noteEvents;
    if r.isPlaying {
      var t := r.playbackTime + delta;
      var d := Due(ev, r.playbackIndex, t);
      var j := r.playbackIndex + |d|;
      if r.playbackIndex < |ev| {
        assert ev[..j] == ev[..r.playbackIndex] + ev[r.playbackIndex..j];
      }
    }
  }

  /** Playback ends only once the whole log has been passed and the playback clock is more
      than two seconds past the end of the recording, and then nothing is left pending; a
      recorder that is not playing is not changed at all. */
  lemma PlaybackStops(r: Rec, delta: real)
    ensures !r.isPlaying ==> PlayedBack(r, delta) == r
    ensures var r' := PlayedBack(r, delta);
      r.isPlaying ==>
        && (!r'.isPlaying <==> r'.playbackIndex >= |r.noteEvents| && r'.playbackTime > r.recordingTime + 2.0)
        && (!r'.isPlaying ==> r'.eventsToPlay == [])
        && r'.playbackTime == r.playbackTime + delta
  {
  }

  /** startPlayback rewinds only a non-empty log; an empty one leaves the recorder as it was. */
  lemma StartPlaybackRewinds(r: Rec)
    ensures r.noteEvents == [] ==> StartedPlayback(r) == r
    ensures r.noteEvents != [] ==> var r' := StartedPlayback(r);
      r'.isPlaying && r'.playbackIndex == 0 && r'.playbackTime == 0.0 && r'.eventsToPlay == []
  {
  }

  /** Every event the playback clock has already reached lies behind the cursor. */
  predicate CaughtUp(r: Rec) {
    r.playbackIndex >= |r.noteEvents| || r.noteEvents[r.playbackIndex].timestamp > r.playbackTime
  }

  /** A step of playback never leaves a reached event in front of the cursor. */
  lemma PlaybackCatchesUp(r: Rec, delta: real)
    requires r.isPlaying
    ensures CaughtUp(PlayedBack(r, delta))
  {
  }

  /** Steps of at most two seconds lose nothing: when a step stops playback, every event had
      already been handed out by an earlier step, so the pending list the stop empties held
      none. This needs a log stamped by the recording clock, and a recorder either just
      rewound or caught up. */
  lemma NoEventLostOnStop(r: Rec, delta: real)
    requires r.isPlaying && Stamped(r.noteEvents, r.recordingTime)
    requires 0.0 <= delta <= 2.0
    requires r.playbackTime == 0.0 || (CaughtUp(r) && r.playbackTime >= 0.0)
    ensures !PlayedBack(r, delta).isPlaying ==> Due(r.noteEvents, r.playbackIndex, r.playbackTime + delta) == []
  {
    var ev := r.noteEvents;
    if r.playbackIndex < |ev| {
      assert ev[r.playbackIndex].timestamp <= r.recordingTime;
    }
  }

  /** A single step longer than two seconds can drain an event and stop in the same call, and
      the stop clears the pending list: the event at time 0 is never handed out. */
  lemma LongStepDropsEvents()
    ensures var ev := [NoteEvent(0.0, 60, 1.0, true)];
      var r := StartedPlayback(Fresh.(noteEvents := ev));
      var r' := PlayedBack(r, 3.0);
      && Due(ev, 0, 3.0) == ev && !r'.isPlaying && r'.eventsToPlay == [] && r'.playbackIndex == 1
  {
    var ev := [NoteEvent(0.0, 60, 1.0, true)];
    assert Due(ev, 1, 3.0) == [];
  }

  // ---------------------------------------------------------------- the class

  class Recorder {
    const sampleRate: int
    var isRecording: bool
    var isPlaying: bool
    var noteEvents: seq<NoteEvent>
    var recordingTime: real
    var audioBuffer: seq<real>
    var playbackTime: real
    var playbackIndex: nat
    var eventsToPlay: seq<NoteEvent>

    function Value(): Rec
      reads this
    {
      Rec(isRecording, isPlaying, noteEvents, recordingTime, audioBuffer,
          playbackTime, playbackIndex, eventsToPlay)
    }

    predicate Valid()
      reads this
    {
      sampleRate > 0 && ClockOk(noteEvents, recordingTime, audioBuffer, sampleRate)
    }

    constructor (sampleRate: int)
      requires sampleRate > 0
      ensures Valid() && this.sampleRate == sampleRate && Value() == Fresh
    {
      this.sampleRate := sampleRate;
      isRecording, isPlaying := false, false;
      noteEvents, recordingTime, audioBuffer := [], 0.0, [];
      playbackTime, playbackIndex, eventsToPlay := 0.0, 0, [];
    }

    method StartRecording()
      requires Valid()
      modifies this`isRecording, this`recordingTime, this`noteEvents, this`audioBuffer
      ensures Valid() && Value() == StartedRecording(old(Value()))
    {
      StartKeepsClock(Value(), sampleRate);
      isRecording := true;
      recordingTime := 0.0;
      noteEvents := [];
      audioBuffer := [];
    }

    method StopRecording()
      requires Valid()
      modifies this`isRecording
      ensures Valid() && Value() == StoppedRecording(old(Value()))
    {
      isRecording := false;
    }

    method StartPlayback()
      requires Valid()
      modifies this`isPlaying, this`playbackTime, this`playbackIndex, this`eventsToPlay
      ensures Valid() && Value() == StartedPlayback(old(Value()))
    {
      if noteEvents != [] {
        isPlaying := true;
        playbackTime := 0.0;
        playbackIndex := 0;
        eventsToPlay := [];
      }
    }

    method StopPlayback()
      requires Valid()
      modifies this`isPlaying, this`eventsToPlay
      ensures Valid() && Value() == StoppedPlayback(old(Value()))
    {
      isPlaying := false;
      eventsToPlay := [];
    }

    method RecordNoteEvent(note: int, velocity: real, isNoteOn: bool)
      requires Valid()
      modifies this`noteEvents
      ensures Valid() && Value() == WithNoteEvent(old(Value()), note, velocity, isNoteOn)
    {
      NoteEventKeepsClock(Value(), sampleRate, note, velocity, isNoteOn);
      if isRecording {
        noteEvents := noteEvents + [NoteEvent(recordingTime, note, velocity, isNoteOn)];
      }
    }

    method RecordAudioSample(sample: real)
      requires Valid()
      modifies this`audioBuffer, this`recordingTime
      ensures Valid() && Value() == WithAudioSample(old(Value()), sample, sampleRate)
    {
      AudioSampleKeepsClock(Value(), sampleRate, sample);
      if isRecording {
        audioBuffer := audioBuffer + [sample];
        recordingTime := recordingTime + 1.0 / sampleRate as real;
      }
    }

    /** The playback loop: take events from the cursor while their stamps have been reached. */
    method ProcessPlayback(delta: real)
      requires Valid()
      modifies this`playbackTime, this`playbackIndex, this`eventsToPlay, this`isPlaying
      ensures Valid() && Value() == PlayedBack(old(Value()), delta)
    {
      if !isPlaying {
        return;
      }
      ghost var was := Value();
      var t := playbackTime + delta;
      var due, next := DueRun(noteEvents, playbackIndex, t);
      playbackTime, eventsToPlay, playbackIndex := t, due, next;
      PlayedBackOf(was, delta, due);
      if playbackIndex >= |noteEvents| && playbackTime > recordingTime + 2.0 {
        StopPlayback();
      }
    }

    /** The while loop of processPlayback on the log, the cursor and the clock: it stops at
        the end of the log or at the first event still in the future. */
    static method DueRun(events: seq<NoteEvent>, i0: nat, t: real) returns (taken: seq<NoteEvent>, i: nat)
      ensures taken == Due(events, i0, t) && i == i0 + |taken|
    {
      taken := [];
      i := i0;
      while i < |events|
        invariant i == i0 + |taken|
        invariant taken + Due(events, i, t) == Due(events, i0, t)
        decreases |events| - i
      {
        var event := events[i];
        if event.timestamp <= t {
          TakeOne(events, i0, i, t, taken);
          taken := taken + [event];
          i := i + 1;
        } else {
          break;
        }
      }
      TakeNone(events, i0, i, t, taken);
    }

    method Clear()
      requires Valid()
      modifies this`noteEvents, this`audioBuffer, this`recordingTime, this`playbackTime,
               this`playbackIndex, this`eventsToPlay
      ensures Valid() && Value() == Cleared(old(Value()))
    {
      StartKeepsClock(Value(), sampleRate);
      noteEvents := [];
      audioBuffer := [];
      recordingTime := 0.0;
      playbackTime := 0.0;
      playbackIndex := 0;
      eventsToPlay := [];
    }

    /** exportToWAV: the bytes written, or None when there is no audio. The samples are
        converted one by one into the PCM vector before the header and data are written. */
    method ExportToWav() returns (file: Option<seq<Byte>>)
      ensures file == WavFile(audioBuffer, sampleRate)
    {
      if audioBuffer == [] {
        return None;
      }
      var pcm: seq<int> := [];
      var i := 0;
      while i < |audioBuffer|
        invariant 0 <= i <= |audioBuffer|
        invariant pcm == PcmSamples(audioBuffer[..i])
      {
        assert audioBuffer[..i + 1][..i] == audioBuffer[..i];
        var sample := Max(-1.0, Min(1.0, audioBuffer[i]));
        pcm := pcm + [Trunc(sample * 32767.0)];
        i := i + 1;
      }
      assert audioBuffer[..i] == audioBuffer;
      var dataSize := 2 * |pcm|;
      file := Some(Concat(WavFields(sampleRate, dataSize)) + SampleData(pcm));
    }

    /** writeMIDIFile: the event loop fills the track vector four bytes per event, each delta
        measured from the previous event's stamp, then the end-of-track event is added and the
        header and track chunk are written. The result carries the corrected big-endian header
        length; the program writes bytes 4 to 7 before swapping them, and the second ensures
        gives the file it writes, MidiFileAsWritten, in terms of this one. */
    method ExportToMidi() returns (file: seq<Byte>)
      ensures file == MidiFile(noteEvents)
      ensures |file| >= 8 && MidiFileAsWritten(noteEvents) == file[..4] + LE(6, 4) + file[8..]
    {
      var track: seq<Byte> := [];
      var lastTime := 0.0;
      var i := 0;
      while i < |noteEvents|
        invariant 0 <= i <= |noteEvents|
        invariant track + TrackEvents(noteEvents[i..], lastTime) == TrackEvents(noteEvents, 0.0)
      {
        var event := noteEvents[i];
        assert noteEvents[i..][1..] == noteEvents[i + 1..];
        track := track + EventBytes(event, lastTime);
        lastTime := event.timestamp;
        i := i + 1;
      }
      track := track + EndOfTrack;
      file := Concat(MidiFields(BE(6, 4), track)) + track;
      MidiFilesDifferInHeaderLength(noteEvents);
    }

    /** exportNoteEvents: the two comment lines, then one line per logged event; `show` is how
        the stream prints a float. */
    method ExportNoteEvents(show: real -> string) returns (text: string)
      ensures text == NoteEventsText(noteEvents, show)
    {
      text := TextTitle + "\n" + TextColumns + "\n";
      ghost var lines := EventLines(noteEvents, show);
      assert ([TextTitle, TextColumns] + lines)[1..] == [TextColumns] + lines;
      assert ([TextColumns] + lines)[1..] == lines;
      assert Joined([TextColumns] + lines) == TextColumns + "\n" + Joined(lines);
      assert NoteEventsText(noteEvents, show) == TextTitle + "\n" + Joined([TextColumns] + lines);
      assert noteEvents[0..] == noteEvents;
      var i := 0;
      while i < |noteEvents|
        invariant 0 <= i <= |noteEvents|
        invariant text + Joined(EventLines(noteEvents[i..], show)) == NoteEventsText(noteEvents, show)
      {
        var event := noteEvents[i];
        assert noteEvents[i..][1..] == noteEvents[i + 1..];
        text := text + (Spaced([show(event.timestamp), Decimal(event.note), show(event.velocity),
                                OnOff(event.isNoteOn)]) + "\n");
        i := i + 1;
      }
    }
  }
}
