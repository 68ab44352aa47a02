/** The audio engine (src/AudioEngine.cpp): it owns the synthesizer and the recorder, renders
    blocks of samples for the output stream, replays recorded events, keeps the last 1024
    samples in a ring for the spectrum display, and picks an exporter by file suffix.

    The PortAudio calls are not modelled: their outcomes are parameters. Each public call runs
    under the engine's mutex, so each is one atomic method here. */
module Engine {
  import opened Numeric
  import opened Platform
  import opened NoteEvents
  import opened FileFormats
  import opened Synthesis
  import opened Recording

  /** FFT_SIZE: the length of the sample ring. */
  const FftSize: nat := 1024

  // ---------------------------------------------------------------- the sample ring

  /** The ring after writing xs one by one from index start, moving on by one modulo the
      ring's length after each write. */
  function RingWrite(ring: seq<real>, start: int, xs: seq<real>): (r: seq<real>)
    requires |ring| == FftSize && 0 <= start < FftSize
    ensures |r| == FftSize
    decreases |xs|
  {
    if xs == [] then ring
    else RingWrite(ring, start, xs[..|xs| - 1])[(start + |xs| - 1) % FftSize := xs[|xs| - 1]]
  }

  /** The ring holds the last FftSize samples written, each at its write position; a cell no
      write reached keeps its old value. */
  lemma {:induction false} RingWriteHolds(ring: seq<real>, start: int, xs: seq<real>)
    requires |ring| == FftSize && 0 <= start < FftSize
    ensures var r := RingWrite(ring, start, xs);
      && (forall k :: 0 <= k < |xs| && |xs| - FftSize <= k ==> r[(start + k) % FftSize] == xs[k])
      && (|xs| < FftSize ==> forall j :: 0 <= j < FftSize && (j - start) % FftSize >= |xs| ==> r[j] == ring[j])
    decreases |xs|
  {
    if xs != [] {
      var n := |xs| - 1;
      var prev := RingWrite(ring, start, xs[..n]);
      RingWriteHolds(ring, start, xs[..n]);
      var r := RingWrite(ring, start, xs);
      forall k | 0 <= k < |xs| && |xs| - FftSize <= k
        ensures r[(start + k) % FftSize] == xs[k]
      {
        if k < n {
          DistinctSlots(start, k, n);
          assert xs[..n][k] == xs[k];
        }
      }
      if |xs| < FftSize {
        forall j | 0 <= j < FftSize && (j - start) % FftSize >= |xs|
          ensures r[j] == ring[j]
        {
          SlotOffset(start, j, n);
        }
      }
    }
  }

  /** Two writes fewer than FftSize apart land in different cells. */
  lemma DistinctSlots(start: int, k: int, n: int)
    requires 0 <= start < FftSize && 0 <= k < n && n - k < FftSize
    ensures (start + k) % FftSize != (start + n) % FftSize
  {
  }

  /** Moving on by one modulo the ring's length from a reduced index is moving on from the
      unreduced one. */
  lemma NextSlot(a: int)
    requires a >= 0
    ensures (a % FftSize + 1) % FftSize == (a + 1) % FftSize
  {
  }

  /** The cell a write of index n lands in is n cells after the start. */
  lemma SlotOffset(start: int, j: int, n: int)
    requires 0 <= start < FftSize && 0 <= j < FftSize && 0 <= n < FftSize
    requires (j - start) % FftSize > n
    ensures j != (start + n) % FftSize
  {
  }

  // ---------------------------------------------------------------- replay

  /** The voice pool after the synthesizer receives events in order: noteOn for a note-on,
      noteOff otherwise. */
  function Replayed(h: Host, vs: seq<Voice>, events: seq<NoteEvent>, p: Params, sampleRate: int): seq<Voice>
    requires sampleRate > 0
    decreases |events|
  {
    if events == [] then vs
    else PlayEvent(h, Replayed(h, vs, events[..|events| - 1], p, sampleRate), events[|events| - 1], p, sampleRate)
  }

  /** One replayed event: noteOn for a note-on, noteOff otherwise. */
  function PlayEvent(h: Host, vs: seq<Voice>, e: NoteEvent, p: Params, sampleRate: int): seq<Voice>
    requires sampleRate > 0
  {
    if e.isNoteOn then NoteOnVoices(vs, e.note, FreshVoice(h, e.note, e.velocity, p, sampleRate))
    else NoteOffVoices(vs, e.note)
  }

  /** Replaying a log in chunks is replaying it at once: the synthesizer sees the events of
      successive playback steps as one run in log order. */
  lemma {:induction false} ReplayedChunks(h: Host, vs: seq<Voice>, a: seq<NoteEvent>, b: seq<NoteEvent>, p: Params, sampleRate: int)
    requires sampleRate > 0
    ensures Replayed(h, Replayed(h, vs, a, p, sampleRate), b, p, sampleRate) == Replayed(h, vs, a + b, p, sampleRate)
    decreases |b|
  {
    if b == [] {
      assert a + b == a;
    } else {
      var n := |b| - 1;
      ReplayedChunks(h, vs, a, b[..n], p, sampleRate);
      ReplayedLast(h, vs, a, b, p, sampleRate);
    }
  }

  /** Replaying a + b ends with b's last event. */
  lemma ReplayedLast(h: Host, vs: seq<Voice>, a: seq<NoteEvent>, b: seq<NoteEvent>, p: Params, sampleRate: int)
    requires sampleRate > 0 && b != []
    ensures Replayed(h, vs, a + b, p, sampleRate)
         == PlayEvent(h, Replayed(h, vs, a + b[..|b| - 1], p, sampleRate), b[|b| - 1], p, sampleRate)
  {
    var ab := a + b;
    var last := |ab| - 1;
    assert ab[last] == b[|b| - 1];
    assert ab[..last] == a + b[..|b| - 1];
    ReplayedUnfold(h, vs, ab, p, sampleRate);
  }

  lemma ReplayedUnfold(h: Host, vs: seq<Voice>, events: seq<NoteEvent>, p: Params, sampleRate: int)
    requires sampleRate > 0 && events != []
    ensures Replayed(h, vs, events, p, sampleRate)
         == PlayEvent(h, Replayed(h, vs, events[..|events| - 1], p, sampleRate), events[|events| - 1], p, sampleRate)
  {
  }

  /** Replaying one more event of a list: the first i + 1 events are the first i, then event i. */
  lemma ReplayedPrefix(h: Host, vs: seq<Voice>, events: seq<NoteEvent>, i: int, p: Params, sampleRate: int)
    requires sampleRate > 0 && 0 <= i < |events|
    ensures Replayed(h, vs, events[..i + 1], p, sampleRate)
         == PlayEvent(h, Replayed(h, vs, events[..i], p, sampleRate), events[i], p, sampleRate)
  {
    var e := events[..i + 1];
    assert e[..i] == events[..i] && e[i] == events[i];
    ReplayedUnfold(h, vs, e, p, sampleRate);
  }

  // ---------------------------------------------------------------- export dispatch

  function EndsWith(s: string, suffix: string): bool {
    |suffix| <= |s| && s[|s| - |suffix|..] == suffix
  }

  datatype ExportKind = WavExport | MidiExport | TextExport

  /** exportToFile's choice: .wav first, then .mid or .midi, anything else as text. */
  function ExportKindOf(filename: string): ExportKind {
    if EndsWith(filename, ".wav") then WavExport
    else if EndsWith(filename, ".mid") || EndsWith(filename, ".midi") then MidiExport
    else TextExport
  }

  /** Every name ending in .wav, .mid or .midi reaches its exporter; a name that ends in none
      of those, such as one ending in .txt or .wav.bak, is written as text. */
  lemma ExportKindBySuffix(base: string)
    ensures ExportKindOf(base + ".wav") == WavExport
    ensures ExportKindOf(base + ".mid") == MidiExport
    ensures ExportKindOf(base + ".midi") == MidiExport
    ensures ExportKindOf(base + ".txt") == TextExport
    ensures ExportKindOf(base + ".wav.bak") == TextExport
  {
    EndsWithAppended(base, ".wav");
    EndsWithAppended(base, ".mid");
    EndsWithAppended(base, ".midi");
    LastCharacter(base + ".mid", ".wav");
    LastCharacter(base + ".midi", ".wav");
    LastCharacter(base + ".txt", ".wav");
    LastCharacter(base + ".txt", ".mid");
    LastCharacter(base + ".txt", ".midi");
    LastCharacter(base + ".wav.bak", ".wav");
    LastCharacter(base + ".wav.bak", ".mid");
    LastCharacter(base + ".wav.bak", ".midi");
  }

  lemma EndsWithAppended(base: string, suffix: string)
    ensures EndsWith(base + suffix, suffix)
  {
    assert (base + suffix)[|base|..] == suffix;
  }

  /** A name that ends in a suffix ends in the suffix's last character. */
  lemma LastCharacter(s: string, suffix: string)
    ensures EndsWith(s, suffix) && suffix != [] ==> s[|s| - 1] == suffix[|suffix| - 1]
  {
    if EndsWith(s, suffix) && suffix != [] {
      assert s[|s| - |suffix|..][|suffix| - 1] == s[|s| - 1];
    }
  }

  /** What an export produces: the WAV bytes (none without audio), the MIDI bytes, or the text. */
  datatype Exported = WavBytes(wav: Option<seq<Byte>>) | MidiBytes(midi: seq<Byte>) | NoteText(text: string)

  // ---------------------------------------------------------------- the engine

  class AudioEngine {
    var synthesizer: Synthesizer?
    var recorder: Recorder?
    /** Whether m_stream holds an open stream. */
    var hasStream: bool
    var sampleRate: int
    var framesPerBuffer: int
    var isInitialized: bool
    var isRunning: bool
    const fftBuffer: array<real>
    var fftBufferIndex: int
    ghost var Repr: set<object>

    /** How the engine's parts are wired: the ring of FFT_SIZE cells with its index inside it,
        a recorder only alongside a synthesizer, a running stream only while one is open, and
        the parts' footprints apart from one another. */
    ghost predicate Wired()
      reads this
    {
      && this in Repr && fftBuffer in Repr
      && fftBuffer.Length == FftSize && 0 <= fftBufferIndex < FftSize
      && sampleRate >= 100
      && (isRunning ==> hasStream)
      && (recorder != null ==> synthesizer != null)
      && (synthesizer != null ==>
            && synthesizer in Repr && synthesizer.effects in Repr
            && synthesizer.effects.Repr <= Repr && synthesizer.Repr <= Repr
            && this !in synthesizer.Repr && fftBuffer !in synthesizer.Repr)
      && (recorder != null ==> recorder in Repr && recorder !in synthesizer.Repr)
    }

    ghost predicate Valid()
      reads this, Repr
    {
      && Wired()
      && (synthesizer != null ==> synthesizer.Valid())
      && (recorder != null ==> recorder.Valid())
    }

    /** The constructor: 44100 Hz, 256 frames, nothing created yet, the ring zeroed. */
    constructor ()
      ensures Valid() && fresh(Repr)
      ensures synthesizer == null && recorder == null && !hasStream && !isInitialized && !isRunning
      ensures sampleRate == 44100 && framesPerBuffer == 256
      ensures fftBufferIndex == 0 && fftBuffer[..] == seq(FftSize, _ => 0.0)
    {
      synthesizer, recorder := null, null;
      hasStream := false;
      sampleRate, framesPerBuffer := 44100, 256;
      isInitialized, isRunning := false, false;
      fftBuffer := new real[FftSize](_ => 0.0);
      fftBufferIndex := 0;
      Repr := {this, fftBuffer};
    }

    /** initialize, with the outcomes of Pa_Initialize, the default-device lookup and
        Pa_OpenStream as parameters. The rate and block size are stored first; a synthesizer
        and a recorder are created once PortAudio starts, even if no stream can then be opened. */
    method Initialize(sampleRate: int, framesPerBuffer: int, paStarts: bool, hasDevice: bool, opens: bool)
      returns (ok: bool)
      requires Valid() && sampleRate >= 100
      modifies this`sampleRate, this`framesPerBuffer, this`synthesizer, this`recorder, this`Repr,
        this`hasStream, this`isInitialized
      ensures Valid() && fresh(Repr - old(Repr))
      ensures this.sampleRate == sampleRate && this.framesPerBuffer == framesPerBuffer
      ensures ok <==> paStarts && hasDevice && opens
      ensures paStarts ==>
        && fresh(synthesizer) && fresh(recorder) && synthesizer.Initial(sampleRate)
        && recorder.Value() == Fresh && recorder.sampleRate == sampleRate
      ensures !paStarts ==> synthesizer == old(synthesizer) && recorder == old(recorder)
      ensures isInitialized == (ok || old(isInitialized)) && hasStream == (ok || old(hasStream))
    {
      this.sampleRate := sampleRate;
      this.framesPerBuffer := framesPerBuffer;
      if paStarts {
        CreateParts();
      }
      ok := paStarts && hasDevice && opens;
      if ok {
        hasStream, isInitialized := true, true;
      }
    }

    /** The make_unique calls of initialize: a fresh synthesizer and recorder at the engine's
        rate replace any earlier ones. */
    method CreateParts()
      requires Wired()
      modifies this`synthesizer, this`recorder, this`Repr
      ensures Valid() && fresh(Repr - old(Repr))
      ensures fresh(synthesizer) && fresh(recorder) && synthesizer.Initial(sampleRate)
      ensures recorder.Value() == Fresh && recorder.sampleRate == sampleRate
    {
      var s, r := NewParts(sampleRate);
      synthesizer, recorder := s, r;
      Repr := {this, fftBuffer} + s.Repr + {r};
    }

    /** The make_unique calls of initialize. */
    static method NewParts(sampleRate: int) returns (s: Synthesizer, r: Recorder)
      requires sampleRate >= 100
      ensures fresh(s.Repr) && s in s.Repr && s.effects in s.Repr && s.effects.Repr <= s.Repr
      ensures s.Valid() && s.Initial(sampleRate)
      ensures fresh(r) && r !in s.Repr && r.Valid() && r.Value() == Fresh && r.sampleRate == sampleRate
    {
      s := new Synthesizer(sampleRate);
      r := new Recorder(sampleRate);
    }

    /** shutdown: stop if running, close the stream, terminate PortAudio. */
    method Shutdown()
      requires Valid()
      modifies this`isRunning, this`hasStream, this`isInitialized
      ensures Valid() && !isRunning && !hasStream && !isInitialized
    {
      if isRunning {
        Stop();
      }
      if hasStream {
        hasStream := false;
      }
      if isInitialized {
        isInitialized := false;
      }
    }

    /** start: refused unless initialised with a stream; Pa_StartStream's outcome is starts. */
    method Start(starts: bool) returns (ok: bool)
      requires Valid()
      modifies this`isRunning
      ensures Valid()
      ensures ok <==> old(isInitialized) && old(hasStream) && starts
      ensures isRunning == (ok || old(isRunning))
    {
      if !isInitialized || !hasStream {
        return false;
      }
      if !starts {
        return false;
      }
      isRunning := true;
      ok := true;
    }

    /** stop: acts only on a running stream. */
    method Stop()
      requires Valid()
      modifies this`isRunning
      ensures Valid()
      ensures !isRunning
    {
      if hasStream && isRunning {
        isRunning := false;
      }
    }

    /** noteOn: to the synthesizer, then logged by the recorder. */
    method NoteOn(h: Host, note: int, velocity: real)
      requires Valid()
      modifies Repr - {this, fftBuffer}
      ensures Valid() && Repr == old(Repr)
      ensures synthesizer == old(synthesizer) && recorder == old(recorder)
      ensures synthesizer != null ==>
        && synthesizer.voices == NoteOnVoices(old(synthesizer.voices), note,
             FreshVoice(h, note, velocity, old(synthesizer.Globals()), synthesizer.sampleRate))
        && synthesizer.OnlyVoicesChanged()
      ensures recorder != null ==> recorder.Value() == WithNoteEvent(old(recorder.Value()), note, velocity, true)
      ensures synthesizer == null ==> unchanged(Repr)
    {
      if synthesizer != null {
        synthesizer.NoteOn(h, note, velocity);
        if recorder != null {
          recorder.RecordNoteEvent(note, velocity, true);
        }
      }
    }

    /** noteOff: to the synthesizer, then logged with velocity 0 as a note-off. */
    method NoteOff(note: int)
      requires Valid()
      modifies Repr - {this, fftBuffer}
      ensures Valid() && Repr == old(Repr)
      ensures synthesizer == old(synthesizer) && recorder == old(recorder)
      ensures synthesizer != null ==>
        synthesizer.voices == NoteOffVoices(old(synthesizer.voices), note) && synthesizer.OnlyVoicesChanged()
      ensures recorder != null ==> recorder.Value() == WithNoteEvent(old(recorder.Value()), note, 0.0, false)
      ensures synthesizer == null ==> unchanged(Repr)
    {
      if synthesizer != null {
        synthesizer.NoteOff(note);
        if recorder != null {
          recorder.RecordNoteEvent(note, 0.0, false);
        }
      }
    }

    /** exportToFile: nothing without a recorder, otherwise the exporter the suffix picks. */
    method ExportToFile(filename: string, show: real -> string) returns (out: Option<Exported>)
      requires Valid()
      ensures recorder == null ==> out == None
      ensures recorder != null ==> out == Some(
        match ExportKindOf(filename)
        case WavExport => WavBytes(WavFile(recorder.audioBuffer, recorder.sampleRate))
        case MidiExport => MidiBytes(MidiFile(recorder.noteEvents))
        case TextExport => NoteText(NoteEventsText(recorder.noteEvents, show)))
      ensures recorder != null && ExportKindOf(filename) == MidiExport ==>
        var midi := out.value.midi;
        |midi| >= 8 && MidiFileAsWritten(recorder.noteEvents) == midi[..4] + LE(6, 4) + midi[8..]
    {
      if recorder == null {
        return None;
      }
      if EndsWith(filename, ".wav") {
        var wav := recorder.ExportToWav();
        out := Some(WavBytes(wav));
      } else if EndsWith(filename, ".mid") || EndsWith(filename, ".midi") {
        var midi := recorder.ExportToMidi();
        out := Some(MidiBytes(midi));
      } else {
        var text := recorder.ExportNoteEvents(show);
        out := Some(NoteText(text));
      }
    }

    /** getFFTData: the ring in storage order, not rotated to start at the oldest sample. */
    method GetFFTData() returns (data: seq<real>)
      requires Valid()
      ensures |data| == FftSize
      ensures forall k :: 0 <= k < FftSize ==> data[k] == fftBuffer[k]
    {
      data := fftBuffer[..];
    }

    /** The playback part of processAudio: when the recorder is playing, playback moves on by
        the block's duration and the events it hands out are played on the synthesizer in
        order, and are not logged again. */
    method ApplyPlayback(h: Host, frames: nat)
      requires Valid()
      modifies Repr - {this, fftBuffer}
      ensures Valid() && Repr == old(Repr)
      ensures synthesizer == old(synthesizer) && recorder == old(recorder)
      ensures recorder != null && old(recorder.isPlaying) ==>
        && recorder.Value() == PlayedBack(old(recorder.Value()), frames as real / sampleRate as real)
        && synthesizer.voices == Replayed(h, old(synthesizer.voices), recorder.eventsToPlay,
                                          old(synthesizer.Globals()), synthesizer.sampleRate)
      ensures synthesizer != null ==> synthesizer.OnlyVoicesChanged()
      ensures (recorder == null || !old(recorder.isPlaying)) ==> unchanged(Repr)
      ensures recorder != null ==>
        && recorder.noteEvents == old(recorder.noteEvents) && recorder.audioBuffer == old(recorder.audioBuffer)
        && recorder.isRecording == old(recorder.isRecording)
    {
      if recorder != null && recorder.isPlaying {
        recorder.ProcessPlayback(frames as real / sampleRate as real);
        PlayEvents(h, recorder.eventsToPlay);
      }
    }

    /** The loop over getEventsToPlay: noteOn for a note-on, noteOff otherwise, on the
        synthesizer only, so that nothing is logged again. */
    method PlayEvents(h: Host, events: seq<NoteEvent>)
      requires Valid() && synthesizer != null
      modifies synthesizer`voices
      ensures Valid()
      ensures synthesizer.voices == Replayed(h, old(synthesizer.voices), events, synthesizer.Globals(), synthesizer.sampleRate)
    {
      ghost var vs, p, sr := synthesizer.voices, synthesizer.Globals(), synthesizer.sampleRate;
      var i := 0;
      while i < |events|
        invariant 0 <= i <= |events|
        invariant Valid() && synthesizer.Globals() == p
        invariant synthesizer.voices == Replayed(h, vs, events[..i], p, sr)
      {
        var event := events[i];
        ReplayedPrefix(h, vs, events, i, p, sr);
        ReplayEvent(h, event);
        i := i + 1;
      }
      assert events[..i] == events;
    }

    /** One event of that loop. */
    method ReplayEvent(h: Host, event: NoteEvent)
      requires Valid() && synthesizer != null
      modifies synthesizer`voices
      ensures Valid()
      ensures synthesizer.voices == PlayEvent(h, old(synthesizer.voices), event, synthesizer.Globals(), synthesizer.sampleRate)
    {
      if event.isNoteOn {
        synthesizer.NoteOn(h, event.note, event.velocity);
      } else {
        synthesizer.NoteOff(event.note);
      }
    }

    /** What a block has done after writing the samples written: the ring is the start ring
        with them written from the start index, the index has moved on by their number, and a
        recorder that was recording has appended them to its audio. */
    ghost predicate Rendered(ring0: seq<real>, index0: int, audio0: seq<real>, recording: bool, events0: seq<NoteEvent>,
                             written: seq<real>)
      reads this, fftBuffer, recorder
    {
      && |ring0| == FftSize && 0 <= index0 < FftSize
      && fftBuffer[..] == RingWrite(ring0, index0, written)
      && fftBufferIndex == (index0 + |written|) % FftSize
      && (recorder != null ==>
            && recorder.noteEvents == events0 && recorder.isRecording == recording
            && recorder.audioBuffer == audio0 + (if recording then written else []))
    }

    /** The first half of one frame of processAudio's loop: the synthesizer's next sample, or
        0 without one, handed to the recorder, which keeps it while recording. */
    method NextSample(h: Host) returns (sample: real)
      requires Valid()
      modifies Repr - {this, fftBuffer}
      ensures Valid()
      ensures -1.0 <= sample <= 1.0
      ensures synthesizer == null ==> sample == 0.0
      ensures recorder != null ==>
        && recorder.noteEvents == old(recorder.noteEvents) && recorder.isRecording == old(recorder.isRecording)
        && recorder.audioBuffer == old(recorder.audioBuffer) + (if recorder.isRecording then [sample] else [])
    {
      sample := 0.0;
      if synthesizer != null {
        sample := Pull(h, synthesizer);
      }
      if recorder != null {
        recorder.RecordAudioSample(sample);
      }
    }

    /** The second half: the sample goes to output[i] and into the ring, whose index moves on
        by one modulo FFT_SIZE, so that the ring is the start ring with one more sample written. */
    method Emit(sample: real, output: array<real>, i: nat, ghost ring0: seq<real>, ghost index0: int, ghost written: seq<real>)
      requires Valid() && output !in Repr && i < output.Length
      requires |ring0| == FftSize && 0 <= index0 < FftSize
      requires fftBuffer[..] == RingWrite(ring0, index0, written)
      requires fftBufferIndex == (index0 + |written|) % FftSize
      modifies fftBuffer, this`fftBufferIndex, output
      ensures Valid()
      ensures output[i] == sample
      ensures forall k :: 0 <= k < output.Length && k != i ==> output[k] == old(output[k])
      ensures fftBuffer[..] == RingWrite(ring0, index0, written + [sample])
      ensures fftBufferIndex == (index0 + |written| + 1) % FftSize
    {
      fftBuffer[fftBufferIndex] := sample;
      fftBufferIndex := (fftBufferIndex + 1) % FftSize;
      output[i] := sample;
      NextSlot(index0 + |written|);
      assert (written + [sample])[..|written|] == written;
    }

    /** synthesizer->process(). */
    static method Pull(h: Host, s: Synthesizer) returns (sample: real)
      requires s.Valid()
      modifies s`voices, s`noiseDraws, s`vibratoPhase, s`cleanupCounter, s.effects.Repr
      ensures s.Valid() && -1.0 <= sample <= 1.0
      ensures s.Stepped(h, old(s.voices), old(s.vibratoPhase), old(s.noiseDraws), old(s.cleanupCounter),
                        old(s.effects.Value()), sample)
    {
      sample := s.Process(h);
    }

    /** processAudio: playback first, then frames samples, each written to the output, the
        recorder and the ring. The ring index moves on by frames modulo FFT_SIZE, the ring holds
        the block's samples at their write positions, and a recording recorder gets them all. */
    method ProcessAudio(h: Host, output: array<real>, frames: nat)
      requires Valid() && frames <= output.Length && output !in Repr
      modifies Repr, output
      ensures Valid() && Repr == old(Repr)
      ensures synthesizer == old(synthesizer) && recorder == old(recorder)
      ensures forall i :: 0 <= i < frames ==> -1.0 <= output[i] <= 1.0
      ensures synthesizer == null ==> forall i :: 0 <= i < frames ==> output[i] == 0.0
      ensures forall i :: frames <= i < output.Length ==> output[i] == old(output[i])
      ensures Rendered(old(fftBuffer[..]), old(fftBufferIndex),
                       old(if recorder != null then recorder.audioBuffer else []),
                       old(recorder != null && recorder.isRecording),
                       old(if recorder != null then recorder.noteEvents else []), output[..frames])
    {
      ghost var ring0, index0 := fftBuffer[..], fftBufferIndex;
      ghost var audio0 := if recorder != null then recorder.audioBuffer else [];
      ghost var recording := recorder != null && recorder.isRecording;
      ghost var events0 := if recorder != null then recorder.noteEvents else [];
      ApplyPlayback(h, frames);
      assert Rendered(ring0, index0, audio0, recording, events0, []);
      RenderBlock(h, output, frames, ring0, index0, audio0, recording, events0);
    }

    /** The render loop of processAudio: frames samples, each within [-1, 1] and 0 without a
        synthesizer, written to the output, the ring and the recorder. */
    method RenderBlock(h: Host, output: array<real>, frames: nat, ghost ring0: seq<real>, ghost index0: int,
                       ghost audio0: seq<real>, ghost recording: bool, ghost events0: seq<NoteEvent>)
      requires Valid() && frames <= output.Length && output !in Repr
      requires Rendered(ring0, index0, audio0, recording, events0, [])
      modifies Repr, output
      ensures Valid() && Repr == old(Repr)
      ensures synthesizer == old(synthesizer) && recorder == old(recorder)
      ensures forall i :: 0 <= i < frames ==> -1.0 <= output[i] <= 1.0
      ensures synthesizer == null ==> forall i :: 0 <= i < frames ==> output[i] == 0.0
      ensures forall i :: frames <= i < output.Length ==> output[i] == old(output[i])
      ensures Rendered(ring0, index0, audio0, recording, events0, output[..frames])
    {
      ghost var written: seq<real> := [];
      var i := 0;
      while i < frames
        invariant 0 <= i <= frames && |written| == i
        invariant Valid() && Repr == old(Repr)
        invariant synthesizer == old(synthesizer) && recorder == old(recorder)
        invariant forall k :: 0 <= k < i ==> output[k] == written[k]
        invariant forall k :: 0 <= k < i ==> -1.0 <= written[k] <= 1.0
        invariant synthesizer == null ==> forall k :: 0 <= k < i ==> written[k] == 0.0
        invariant forall k :: frames <= k < output.Length ==> output[k] == old(output[k])
        invariant Rendered(ring0, index0, audio0, recording, events0, written)
      {
        var sample := RenderFrame(h, output, i, ring0, index0, audio0, recording, events0, written);
        written := written + [sample];
        i := i + 1;
      }
      assert output[..frames] == written;
    }

    /** One frame of processAudio's loop, NextSample then Emit, stated against what the block
        has written so far: the ring and the recorder's audio each take the new sample. */
    method RenderFrame(h: Host, output: array<real>, i: nat, ghost ring0: seq<real>, ghost index0: int,
                       ghost audio0: seq<real>, ghost recording: bool, ghost events0: seq<NoteEvent>,
                       ghost written: seq<real>)
      returns (sample: real)
      requires Valid() && output !in Repr && i < output.Length
      requires Rendered(ring0, index0, audio0, recording, events0, written)
      modifies Repr, output
      ensures Valid() && Repr == old(Repr)
      ensures synthesizer == old(synthesizer) && recorder == old(recorder)
      ensures -1.0 <= sample <= 1.0
      ensures synthesizer == null ==> sample == 0.0
      ensures output[i] == sample
      ensures forall k :: 0 <= k < output.Length && k != i ==> output[k] == old(output[k])
      ensures Rendered(ring0, index0, audio0, recording, events0, written + [sample])
    {
      sample := NextSample(h);
      if recorder != null && recording {
        assert audio0 + (written + [sample]) == (audio0 + written) + [sample];
      }
      Emit(sample, output, i, ring0, index0, written);
    }
  }
}
