/** The polyphonic synthesizer (src/Synthesizer.cpp): a pool of at most sixteen voices, each a
    note played by one to three slightly detuned oscillators shaped by its own ADSR envelope,
    a vibrato LFO shared by all voices, and the effects chain on the mixed output.

    A voice owns its oscillators and its envelope outright (unique_ptr), so `Voice` is a value
    holding their values; the functions below are its transitions. Class `Synthesizer` keeps
    the pool as a sequence field that its methods update in place, and is proved to match. */
module Synthesis {
  import opened Numeric
  import opened Platform
  import Envelope
  import Oscillators
  import EffectsChain

  /** MAX_VOICES (include/vsynth/Synthesizer.h). */
  const MaxVoices: nat := 16
  const MinOscillators: int := 1
  const MaxOscillators: int := 3
  /** The function-static cleanup counter purges when it passes this value. */
  const CleanupPeriod: int := 1000

  /** A held note: its oscillators and envelope, the activity flag, and an unused phase. */
  datatype Voice = Voice(
    note: int, velocity: real, oscs: seq<Oscillators.Osc>, env: Envelope.Env,
    active: bool, phase: real)

  /** The global parameters noteOn pushes into every new voice. */
  datatype Params = Params(
    attack: real, decay: real, sustain: real, release: real,
    waveform: int, oscillatorCount: int)

  /** What every voice in the pool satisfies: an envelope within its invariant at the
      synthesizer's rate, oscillators at that rate, and the activity flag raised exactly while
      the envelope is not idle. */
  predicate VoiceOk(v: Voice, sampleRate: int) {
    && Envelope.Inv(v.env) && v.env.sampleRate == sampleRate
    && (v.active <==> Envelope.IsActive(v.env))
    && forall i :: 0 <= i < |v.oscs| ==> v.oscs[i].sampleRate == sampleRate
  }

  /** The pool invariant: at most sixteen voices, each within the voice invariant. */
  predicate PoolOk(vs: seq<Voice>, sampleRate: int) {
    |vs| <= MaxVoices && forall j :: 0 <= j < |vs| ==> VoiceOk(vs[j], sampleRate)
  }

  /** noteToFrequency: equal temperament around A4 = 440 Hz. The frequency is positive
      whenever the host's power of two is. */
  function NoteToFrequency(h: Host, note: int): (f: real)
    ensures h.pow(2.0, (note - 69) as real / 12.0) > 0.0 ==> f > 0.0
  {
    440.0 * h.pow(2.0, (note - 69) as real / 12.0)
  }

  /** Note 69 is concert A. */
  lemma ConcertPitch(h: Host)
    requires h.pow(2.0, 0.0) == 1.0
    ensures NoteToFrequency(h, 69) == 440.0
  {
  }

  /** Twelve semitones up doubles the frequency, given a host whose power of two doubles when
      the exponent grows by one. */
  lemma OctaveUp(h: Host, note: int)
    requires forall x: real :: h.pow(2.0, x + 1.0) == 2.0 * h.pow(2.0, x)
    ensures NoteToFrequency(h, note + 12) == 2.0 * NoteToFrequency(h, note)
  {
    var x := (note - 69) as real / 12.0;
    assert (note + 12 - 69) as real / 12.0 == x + 1.0;
    assert h.pow(2.0, x + 1.0) == 2.0 * h.pow(2.0, x);
  }

  /** The detune factor of oscillator i: 1 for the first, 1 + i/100 for the others. */
  function Detune(i: int): (d: real)
    ensures i <= 0 ==> d == 1.0
    ensures i > 0 ==> d == 1.0 + i as real * 0.01 && d > 1.0
  {
    if i > 0 then 1.0 + i as real * 0.01 else 1.0
  }

  /** Oscillator i of a new voice: made at the note's frequency, retuned by the detune factor
      when it is not the first. */
  function NewOscillator(frequency: real, i: int, sampleRate: int): (o: Oscillators.Osc)
    requires sampleRate > 0
    ensures Oscillators.Tuned(o) && o.sampleRate == sampleRate
    ensures o.frequency == frequency * Detune(i)
    ensures o.amplitude == 1.0 && o.phase == 0.0 && o.waveform == Oscillators.Sine && o.lastNoise == 0.0
  {
    var o := Oscillators.New(frequency, sampleRate);
    if i > 0 then Oscillators.WithFrequency(o, frequency * (1.0 + i as real * 0.01)) else o
  }

  /** The Voice constructor: max(count, 0) oscillators, a fresh envelope triggered at once. */
  function NewVoice(h: Host, note: int, velocity: real, count: int, sampleRate: int): (v: Voice)
    requires sampleRate > 0
    ensures v.note == note && v.velocity == velocity && v.active && v.phase == 0.0
    ensures |v.oscs| == (if count > 0 then count else 0)
    ensures forall i :: 0 <= i < |v.oscs| ==> v.oscs[i] == NewOscillator(NoteToFrequency(h, note), i, sampleRate)
    ensures v.env == Envelope.Triggered(Envelope.New(sampleRate))
    ensures VoiceOk(v, sampleRate)
  {
    var frequency := NoteToFrequency(h, note);
    var n := if count > 0 then count else 0;
    Voice(note, velocity, seq(n, i requires 0 <= i < n => NewOscillator(frequency, i, sampleRate)),
          Envelope.Triggered(Envelope.New(sampleRate)), true, 0.0)
  }

  /** Every oscillator of a voice switched to one waveform. */
  function WithWaveform(oscs: seq<Oscillators.Osc>, code: int): (r: seq<Oscillators.Osc>)
    ensures |r| == |oscs|
    ensures forall i :: 0 <= i < |r| ==> r[i] == oscs[i].(waveform := Oscillators.WaveformOf(code))
  {
    seq(|oscs|, i requires 0 <= i < |oscs| => oscs[i].(waveform := Oscillators.WaveformOf(code)))
  }

  /** The four envelope setters in the order noteOn calls them: the times floored, the sustain
      clamped, and, because setRelease comes last and recomputes every rate, all three rates
      consistent with the new parameters. The stage in flight is not touched. */
  function ConfiguredEnv(e: Envelope.Env, p: Params): (r: Envelope.Env)
    requires Envelope.ParamsOk(e)
    ensures Envelope.Inv(e) ==> Envelope.Inv(r)
    ensures r.state == e.state && r.level == e.level && r.target == e.target && r.rate == e.rate
    ensures r.sampleRate == e.sampleRate
    ensures r.attack == Max(Envelope.MinTime, p.attack) && r.decay == Max(Envelope.MinTime, p.decay)
    ensures r.release == Max(Envelope.MinTime, p.release) && r.sustain == Clamp(p.sustain, 0.0, 1.0)
    ensures Envelope.RatesFit(r)
  {
    var a := Envelope.WithAttack(e, p.attack);
    var d := Envelope.WithDecay(a, p.decay);
    var s := Envelope.WithSustain(d, p.sustain);
    var r := Envelope.WithRelease(s, p.release);
    Envelope.WithRatesFit(s.(release := r.release));
    r
  }

  /** noteOn's set-up of a new voice: the note, velocity, flag and phase kept, every oscillator
      switched to the global waveform and nothing else about it changed, and the envelope given
      the global times and sustain with its stage in flight kept. */
  function Configured(v: Voice, p: Params): (r: Voice)
    requires Envelope.ParamsOk(v.env)
    ensures r.note == v.note && r.velocity == v.velocity && r.active == v.active && r.phase == v.phase
    ensures |r.oscs| == |v.oscs|
    ensures forall i :: 0 <= i < |r.oscs| ==> r.oscs[i] == v.oscs[i].(waveform := Oscillators.WaveformOf(p.waveform))
    ensures r.env.state == v.env.state && r.env.level == v.env.level
    ensures r.env.target == v.env.target && r.env.rate == v.env.rate
    ensures r.env.sampleRate == v.env.sampleRate
    ensures r.env.attack == Max(Envelope.MinTime, p.attack) && r.env.decay == Max(Envelope.MinTime, p.decay)
    ensures r.env.release == Max(Envelope.MinTime, p.release) && r.env.sustain == Clamp(p.sustain, 0.0, 1.0)
    ensures Envelope.RatesFit(r.env)
    ensures Envelope.Inv(v.env) ==> Envelope.Inv(r.env)
  {
    v.(env := ConfiguredEnv(v.env, p), oscs := WithWaveform(v.oscs, p.waveform))
  }

  /** The voice noteOn adds. */
  function FreshVoice(h: Host, note: int, velocity: real, p: Params, sampleRate: int): (v: Voice)
    requires sampleRate > 0
    ensures VoiceOk(v, sampleRate) && v.note == note && v.velocity == velocity && v.active
  {
    var v := NewVoice(h, note, velocity, p.oscillatorCount, sampleRate);
    var r := Configured(v, p);
    assert forall i :: 0 <= i < |r.oscs| ==> r.oscs[i].sampleRate == v.oscs[i].sampleRate;
    r
  }

  /** A new voice is triggered in its constructor, before noteOn sets its attack: the first
      attack climbs at the rate of the default 0.1 s attack, whatever the global attack is, and
      the global parameters only govern the stages entered after it. */
  lemma FirstAttackAtDefaultRate(h: Host, note: int, velocity: real, p: Params, sampleRate: int)
    requires sampleRate > 0
    ensures var e := FreshVoice(h, note, velocity, p, sampleRate).env;
      && e.state == Envelope.Attack
      && e.rate * (Envelope.DefaultAttack * sampleRate as real) == 1.0
      && e.attack == Max(Envelope.MinTime, p.attack)
  {
    var e0 := Envelope.New(sampleRate);
    assert e0.attackRate * (Envelope.DefaultAttack * sampleRate as real) == 1.0;
  }

  // ---------------------------------------------------------------- the pool

  /** A voice that noteOn or noteOff would release. */
  predicate Plays(v: Voice, note: int) {
    v.note == note && v.active
  }

  /** Voice::release: the envelope is released; the activity flag stays as it is. */
  function Released(v: Voice): (r: Voice)
    ensures r == v.(env := Envelope.Released(v.env))
    ensures forall sr :: VoiceOk(v, sr) ==> VoiceOk(r, sr)
  {
    v.(env := Envelope.Released(v.env))
  }

  /** The index of the first voice playing the note, or the pool size when none does. */
  function FirstPlaying(vs: seq<Voice>, note: int): (i: nat)
    ensures i <= |vs|
    ensures forall j :: 0 <= j < i ==> !Plays(vs[j], note)
    ensures i < |vs| ==> Plays(vs[i], note)
    decreases |vs|
  {
    if vs == [] then 0
    else if Plays(vs[0], note) then 0
    else 1 + FirstPlaying(vs[1..], note)
  }

  /** The retrigger loop of noteOn: the first voice playing the note is released (the loop
      breaks after it); every other voice is untouched. */
  function ReleaseFirst(vs: seq<Voice>, note: int): (r: seq<Voice>)
    ensures |r| == |vs|
  {
    var i := FirstPlaying(vs, note);
    if i < |vs| then vs[i := Released(vs[i])] else vs
  }

  /** Only the first voice playing the note is released; its activity flag, like every
      other voice, is unchanged. */
  lemma ReleaseFirstReleasesOne(vs: seq<Voice>, note: int)
    ensures var r, i := ReleaseFirst(vs, note), FirstPlaying(vs, note);
      forall j :: 0 <= j < |vs| ==> r[j] == (if j == i then Released(vs[j]) else vs[j])
  {
  }

  /** cleanupVoices: the inactive voices removed, the others kept in order. */
  function ActiveOnly(vs: seq<Voice>): (r: seq<Voice>)
    ensures |r| <= |vs|
    decreases |vs|
  {
    if vs == [] then []
    else ActiveOnly(vs[..|vs| - 1]) + (if vs[|vs| - 1].active then [vs[|vs| - 1]] else [])
  }

  /** noteOn on the pool: the retrigger release; at capacity the inactive voices purged and,
      still at capacity, the oldest voice erased whatever its state; then the new voice last. */
  function NoteOnVoices(vs: seq<Voice>, note: int, added: Voice): seq<Voice>
  {
    Purged(ReleaseFirst(vs, note)) + [added]
  }

  /** The capacity rule of noteOn, applied before the new voice is added. */
  function Purged(vs: seq<Voice>): (r: seq<Voice>)
    ensures |vs| < MaxVoices ==> r == vs
  {
    if |vs| >= MaxVoices then
      var c := ActiveOnly(vs);
      if |c| >= MaxVoices then c[1..] else c
    else vs
  }

  /** noteOff: every voice playing the note released, every other voice untouched. */
  function NoteOffVoices(vs: seq<Voice>, note: int): (r: seq<Voice>)
    ensures |r| == |vs|
    ensures forall j :: 0 <= j < |vs| ==> r[j] == (if Plays(vs[j], note) then Released(vs[j]) else vs[j])
  {
    seq(|vs|, j requires 0 <= j < |vs| => if Plays(vs[j], note) then Released(vs[j]) else vs[j])
  }

  /** A global envelope setter pushed to every held voice. */
  datatype EnvSetting = AttackTime(t: real) | DecayTime(t: real) | SustainLevel(t: real) | ReleaseTime(t: real)

  function Applied(e: Envelope.Env, s: EnvSetting): (r: Envelope.Env)
    requires Envelope.Inv(e)
    ensures Envelope.Inv(r)
    ensures r.state == e.state && r.level == e.level && r.sampleRate == e.sampleRate
  {
    match s
    case AttackTime(t) => Envelope.WithAttack(e, t)
    case DecayTime(t) => Envelope.WithDecay(e, t)
    case SustainLevel(t) => Envelope.WithSustain(e, t)
    case ReleaseTime(t) => Envelope.WithRelease(e, t)
  }

  /** The setter loops over the pool: each voice's envelope gets the setting, nothing else. */
  function Broadcast(vs: seq<Voice>, s: EnvSetting): (r: seq<Voice>)
    requires forall j :: 0 <= j < |vs| ==> Envelope.Inv(vs[j].env)
    ensures |r| == |vs|
    ensures forall j :: 0 <= j < |vs| ==> r[j] == vs[j].(env := Applied(vs[j].env, s))
    ensures forall j, sr :: 0 <= j < |vs| && VoiceOk(vs[j], sr) ==> VoiceOk(r[j], sr)
  {
    seq(|vs|, j requires 0 <= j < |vs| => vs[j].(env := Applied(vs[j].env, s)))
  }

  /** setWaveform's loop: every oscillator of every voice switched, nothing else changed. */
  function WaveformAll(vs: seq<Voice>, code: int): (r: seq<Voice>)
    ensures |r| == |vs|
    ensures forall j :: 0 <= j < |vs| ==> r[j] == vs[j].(oscs := WithWaveform(vs[j].oscs, code))
  {
    seq(|vs|, j requires 0 <= j < |vs| => vs[j].(oscs := WithWaveform(vs[j].oscs, code)))
  }

  /** Switching waveforms keeps every voice within the pool invariant. */
  lemma WaveformAllKeepsOk(vs: seq<Voice>, code: int, sampleRate: int)
    requires PoolOk(vs, sampleRate)
    ensures PoolOk(WaveformAll(vs, code), sampleRate)
  {
    var r := WaveformAll(vs, code);
    forall j | 0 <= j < |r| ensures VoiceOk(r[j], sampleRate) {
      assert forall i :: 0 <= i < |r[j].oscs| ==> r[j].oscs[i].sampleRate == vs[j].oscs[i].sampleRate;
    }
  }

  /** Pushing an envelope setting keeps every voice within the pool invariant. */
  lemma BroadcastKeepsOk(vs: seq<Voice>, s: EnvSetting, sampleRate: int)
    requires PoolOk(vs, sampleRate)
    ensures PoolOk(Broadcast(vs, s), sampleRate)
  {
  }

  /** setOscillatorCount: clamped to [1, 3]. */
  function ClampCount(count: int): (c: int)
    ensures MinOscillators <= c <= MaxOscillators
    ensures MinOscillators <= count <= MaxOscillators ==> c == count
    ensures count < MinOscillators ==> c == MinOscillators
    ensures count > MaxOscillators ==> c == MaxOscillators
  {
    if count < MinOscillators then MinOscillators
    else if count > MaxOscillators then MaxOscillators
    else count
  }

  // ---------------------------------------------------------------- one sample of a voice

  /** How many of the first i oscillators are noise oscillators, each of which takes one draw
      from the shared random generator when processed. */
  function NoiseCount(oscs: seq<Oscillators.Osc>, i: nat): (c: nat)
    requires i <= |oscs|
    ensures c <= i
    decreases i
  {
    if i == 0 then 0
    else NoiseCount(oscs, i - 1) + (if oscs[i - 1].waveform == Oscillators.Noise then 1 else 0)
  }

  /** The mixing loop of Voice::process over the first n oscillators, with the noise source at
      position k: each oscillator is processed once, in order, the i-th taking the draw at
      k plus the number of noise oscillators before it; the result holds the new oscillators,
      the sum of their outputs and the next position of the noise source. */
  function Mixed(h: Host, oscs: seq<Oscillators.Osc>, k: nat, n: nat): (r: (seq<Oscillators.Osc>, real, nat))
    requires n <= |oscs|
    ensures |r.0| == n && r.2 == k + NoiseCount(oscs, n)
    decreases n
  {
    if n == 0 then ([], 0.0, k)
    else
      var m := Mixed(h, oscs, k, n - 1);
      var p := Oscillators.Processed(h, oscs[n - 1], h.noise(m.2));
      (m.0 + [p.0], m.1 + p.1, if oscs[n - 1].waveform == Oscillators.Noise then m.2 + 1 else m.2)
  }

  /** Each oscillator is processed exactly once, with the draw at k plus the number of noise
      oscillators before it. */
  lemma {:induction false} MixedPointwise(h: Host, oscs: seq<Oscillators.Osc>, k: nat, n: nat, i: nat)
    requires i < n <= |oscs|
    ensures Mixed(h, oscs, k, n).0[i] == Oscillators.Processed(h, oscs[i], h.noise(k + NoiseCount(oscs, i))).0
    decreases n
  {
    if i < n - 1 {
      MixedPointwise(h, oscs, k, n - 1, i);
      var m := Mixed(h, oscs, k, n - 1);
      assert Mixed(h, oscs, k, n).0 == m.0 + [Oscillators.Processed(h, oscs[n - 1], h.noise(m.2)).0];
    }
  }

  /** Voice::process with the noise source at position k: an inactive voice is silent and
      unchanged; an active one averages its oscillators, scales the mean by the envelope's
      gain and the velocity, and goes inactive once its envelope is idle. */
  function VoiceStep(h: Host, v: Voice, k: nat): (r: (Voice, real, nat))
    ensures !v.active ==> r == (v, 0.0, k)
    ensures v.active ==>
      var m := Mixed(h, v.oscs, k, |v.oscs|);
      && r.0 == v.(oscs := m.0, env := Envelope.Advanced(v.env), active := Envelope.IsActive(r.0.env))
      && r.2 == m.2
      && r.1 == Scaled(m.1, |v.oscs|, Clamp(r.0.env.level, 0.0, 1.0), v.velocity)
      && (Envelope.Inv(v.env) ==> r.1 == Scaled(m.1, |v.oscs|, r.0.env.level, v.velocity))
  {
    if !v.active then (v, 0.0, k)
    else
      var m := Mixed(h, v.oscs, k, |v.oscs|);
      var p := Envelope.Processed(v.env);
      (v.(oscs := m.0, env := p.0, active := Envelope.IsActive(p.0)), Scaled(m.1, |v.oscs|, p.1, v.velocity), m.2)
  }

  /** The output of an active voice: the oscillators' sum averaged over their number (left as
      it is when there are none) times the envelope's gain times the velocity. */
  function Scaled(sum: real, count: nat, gain: real, velocity: real): real {
    (if count > 0 then sum / count as real else sum) * (gain * velocity)
  }

  /** Processing keeps a voice within the pool invariant. */
  lemma VoiceStepKeepsOk(h: Host, v: Voice, k: nat, sampleRate: int)
    requires VoiceOk(v, sampleRate)
    ensures VoiceOk(VoiceStep(h, v, k).0, sampleRate)
  {
    if v.active {
      assert Envelope.Inv(Envelope.Processed(v.env).0);
      var r := VoiceStep(h, v, k).0;
      forall i | 0 <= i < |r.oscs| ensures r.oscs[i].sampleRate == v.oscs[i].sampleRate {
        MixedPointwise(h, v.oscs, k, |v.oscs|, i);
      }
    }
  }

  /** An oscillator whose output is bounded by 1: phase within one cycle, noise history in
      [-1, 1], amplitude at most 1 in size. */
  predicate InRange(o: Oscillators.Osc) {
    0.0 <= o.phase < Oscillators.TwoPi && -1.0 <= o.lastNoise <= 1.0 && -1.0 <= o.amplitude <= 1.0
  }

  /** The sum of n oscillators each within range is at most n in size. */
  lemma {:induction false} MixedBounded(h: Host, oscs: seq<Oscillators.Osc>, k: nat, n: nat)
    requires SineInRange(h) && NoiseInRange(h)
    requires n <= |oscs| && forall i :: 0 <= i < |oscs| ==> InRange(oscs[i])
    ensures Oscillators.Abs(Mixed(h, oscs, k, n).1) <= n as real
    decreases n
  {
    if n > 0 {
      MixedBounded(h, oscs, k, n - 1);
      var m := Mixed(h, oscs, k, n - 1);
      Oscillators.OutputWithinAmplitude(h, oscs[n - 1], h.noise(m.2));
    }
  }

  /** The mean of n values whose sum is at most n in size lies in [-1, 1]. */
  lemma MeanBounded(sum: real, n: nat)
    requires n > 0 && Oscillators.Abs(sum) <= n as real
    ensures -1.0 <= sum / n as real <= 1.0
  {
  }

  /** A sum of count values each in [-1, 1], averaged and scaled by a gain in [0, 1], is at
      most the velocity in size. */
  lemma ScaledBounded(sum: real, count: nat, gain: real, velocity: real)
    requires Oscillators.Abs(sum) <= count as real && 0.0 <= gain <= 1.0
    ensures Oscillators.Abs(Scaled(sum, count, gain, velocity)) <= Oscillators.Abs(velocity)
  {
    var mean := if count > 0 then sum / count as real else sum;
    var a := gain * velocity;
    assert Scaled(sum, count, gain, velocity) == mean * a;
    if count > 0 { MeanBounded(sum, count); }
    Oscillators.ScaleWithinBound(mean, a);
    Oscillators.ScaleWithinBound(gain, velocity);
  }

  /** A voice whose oscillators are within range never outputs more than its velocity: the
      average of the oscillators is within [-1, 1] and the envelope's gain within [0, 1]. */
  lemma VoiceWithinVelocity(h: Host, v: Voice, k: nat)
    requires SineInRange(h) && NoiseInRange(h)
    requires forall i :: 0 <= i < |v.oscs| ==> InRange(v.oscs[i])
    ensures Oscillators.Abs(VoiceStep(h, v, k).1) <= Oscillators.Abs(v.velocity)
  {
    if v.active {
      MixedBounded(h, v.oscs, k, |v.oscs|);
      ScaledBounded(Mixed(h, v.oscs, k, |v.oscs|).1, |v.oscs|, Envelope.Processed(v.env).1, v.velocity);
    }
  }

  // ---------------------------------------------------------------- one sample of the pool

  /** The vibrato of one sample: the LFO's sine times the depth. */
  function Vibrato(h: Host, phase: real, depth: real): real {
    h.sin(phase) * depth
  }

  /** The sample period in seconds. */
  function Period(sampleRate: int): real
    requires sampleRate > 0
  {
    1.0 / sampleRate as real
  }

  /** The radians the LFO advances per sample: 2*pi times the rate, times the sample period. */
  function VibratoIncrement(rate: real, deltaTime: real): real {
    (Oscillators.TwoPi * rate) * deltaTime
  }

  /** The LFO phase after one sample, 2*pi taken off at most once; it stays within one cycle
      as long as the increment does. */
  function NextVibratoPhase(phase: real, rate: real, deltaTime: real): (p: real)
    ensures var inc := VibratoIncrement(rate, deltaTime);
      && (p == phase + inc || p == phase + inc - Oscillators.TwoPi)
      && (0.0 <= phase < Oscillators.TwoPi && 0.0 <= inc < Oscillators.TwoPi ==> 0.0 <= p < Oscillators.TwoPi)
  {
    Oscillators.AdvancePhase(phase, VibratoIncrement(rate, deltaTime))
  }

  /** The frequency process gives oscillator i of a voice: the note's frequency bent by the
      vibrato, times the detune factor. */
  function Vibrated(h: Host, note: int, vibrato: real, i: int): real {
    NoteToFrequency(h, note) * (1.0 + vibrato) * Detune(i)
  }

  /** The vibrato loop of process on one voice: every oscillator retuned to its vibrated
      frequency. Only frequencies and increments change. */
  function Retuned(h: Host, v: Voice, vibrato: real): (r: Voice)
    requires forall i :: 0 <= i < |v.oscs| ==> v.oscs[i].sampleRate > 0
    ensures r.(oscs := v.oscs) == v && |r.oscs| == |v.oscs|
    ensures forall i :: 0 <= i < |v.oscs| ==>
      && Oscillators.Tuned(r.oscs[i])
      && r.oscs[i].frequency == Vibrated(h, v.note, vibrato, i)
      && r.oscs[i].(frequency := v.oscs[i].frequency, phaseIncrement := v.oscs[i].phaseIncrement) == v.oscs[i]
  {
    v.(oscs := seq(|v.oscs|, i requires 0 <= i < |v.oscs| => Oscillators.WithFrequency(v.oscs[i], Vibrated(h, v.note, vibrato, i))))
  }

  /** One voice's share of process: an active voice is retuned and processed, an inactive one
      is skipped. */
  function VoiceTick(h: Host, v: Voice, vibrato: real, k: nat): (r: (Voice, real, nat))
    requires forall i :: 0 <= i < |v.oscs| ==> v.oscs[i].sampleRate > 0
    ensures !v.active ==> r == (v, 0.0, k)
  {
    if v.active then VoiceStep(h, Retuned(h, v, vibrato), k) else (v, 0.0, k)
  }

  /** The oscillators of every voice run at the synthesizer's rate. */
  predicate Timed(vs: seq<Voice>, sampleRate: int) {
    sampleRate > 0 && forall j, i :: 0 <= j < |vs| && 0 <= i < |vs[j].oscs| ==> vs[j].oscs[i].sampleRate == sampleRate
  }

  /** The voice loop of process over the first n voices: the voices afterwards, the sum of
      their outputs, and the next position of the noise source. */
  function Render(h: Host, vs: seq<Voice>, vibrato: real, k: nat, n: nat, sampleRate: int): (r: (seq<Voice>, real, nat))
    requires n <= |vs| && Timed(vs, sampleRate)
    ensures |r.0| == n && r.2 >= k
    decreases n
  {
    if n == 0 then ([], 0.0, k)
    else
      var m := Render(h, vs, vibrato, k, n - 1, sampleRate);
      var t := VoiceTick(h, vs[n - 1], vibrato, m.2);
      (m.0 + [t.0], m.1 + t.1, t.2)
  }

  /** The voice in place j after the loop is the tick of the voice that was there; the pool
      keeps its order, its notes and its velocities, and the voices skipped are unchanged. */
  lemma {:induction false} RenderPointwise(h: Host, vs: seq<Voice>, vibrato: real, k: nat, n: nat, sampleRate: int, j: nat)
    requires j < n <= |vs| && Timed(vs, sampleRate)
    ensures var r := Render(h, vs, vibrato, k, n, sampleRate).0[j];
      && r.note == vs[j].note && r.velocity == vs[j].velocity
      && (!vs[j].active ==> r == vs[j])
      && exists d: nat :: r == VoiceTick(h, vs[j], vibrato, d).0
    decreases n
  {
    var m := Render(h, vs, vibrato, k, n - 1, sampleRate);
    if j < n - 1 {
      RenderPointwise(h, vs, vibrato, k, n - 1, sampleRate, j);
      assert Render(h, vs, vibrato, k, n, sampleRate).0[j] == m.0[j];
    } else {
      var r := VoiceTick(h, vs[j], vibrato, m.2).0;
      assert Render(h, vs, vibrato, k, n, sampleRate).0[j] == r;
      if vs[j].active {
        assert r == VoiceStep(h, Retuned(h, vs[j], vibrato), m.2).0;
      }
    }
  }

  /** Retuning and processing keep a voice within the pool invariant. */
  lemma VoiceTickKeepsOk(h: Host, v: Voice, vibrato: real, k: nat, sampleRate: int)
    requires sampleRate > 0 && VoiceOk(v, sampleRate)
    ensures VoiceOk(VoiceTick(h, v, vibrato, k).0, sampleRate)
  {
    if v.active {
      var w := Retuned(h, v, vibrato);
      assert forall i :: 0 <= i < |w.oscs| ==> w.oscs[i].sampleRate == v.oscs[i].sampleRate;
      VoiceStepKeepsOk(h, w, k, sampleRate);
    }
  }

  /** The voice loop keeps every voice within the pool invariant. */
  lemma RenderKeepsOk(h: Host, vs: seq<Voice>, vibrato: real, k: nat, sampleRate: int)
    requires sampleRate > 0 && PoolOk(vs, sampleRate)
    ensures Timed(vs, sampleRate)
    ensures PoolOk(Render(h, vs, vibrato, k, |vs|, sampleRate).0, sampleRate)
  {
    var r := Render(h, vs, vibrato, k, |vs|, sampleRate).0;
    forall j | 0 <= j < |r| ensures VoiceOk(r[j], sampleRate) {
      RenderPointwise(h, vs, vibrato, k, |vs|, sampleRate, j);
      var d: nat :| r[j] == VoiceTick(h, vs[j], vibrato, d).0;
      VoiceTickKeepsOk(h, vs[j], vibrato, d, sampleRate);
    }
  }

  /** The sum of the velocities of the first n voices, in size. */
  function TotalVelocity(vs: seq<Voice>, n: nat): real
    requires n <= |vs|
    decreases n
  {
    if n == 0 then 0.0 else TotalVelocity(vs, n - 1) + Oscillators.Abs(vs[n - 1].velocity)
  }

  /** Before the effects, the mixed output of the pool is at most the sum of the voices'
      velocities in size, as long as the oscillators are within range. */
  lemma {:induction false} RenderWithinVelocities(h: Host, vs: seq<Voice>, vibrato: real, k: nat, n: nat, sampleRate: int)
    requires SineInRange(h) && NoiseInRange(h)
    requires n <= |vs| && Timed(vs, sampleRate)
    requires forall j, i :: 0 <= j < |vs| && 0 <= i < |vs[j].oscs| ==> InRange(vs[j].oscs[i])
    ensures Oscillators.Abs(Render(h, vs, vibrato, k, n, sampleRate).1) <= TotalVelocity(vs, n)
    decreases n
  {
    if n > 0 {
      RenderWithinVelocities(h, vs, vibrato, k, n - 1, sampleRate);
      var m := Render(h, vs, vibrato, k, n - 1, sampleRate);
      var v := vs[n - 1];
      if v.active {
        var w := Retuned(h, v, vibrato);
        assert forall i :: 0 <= i < |w.oscs| ==> InRange(w.oscs[i]) by {
          forall i | 0 <= i < |w.oscs| ensures InRange(w.oscs[i]) {
            assert InRange(v.oscs[i]);
          }
        }
        VoiceWithinVelocity(h, w, m.2);
      }
    }
  }

  // ---------------------------------------------------------------- pool properties

  /** cleanupVoices keeps exactly the active voices. */
  lemma {:induction false} ActiveOnlyMembers(vs: seq<Voice>, v: Voice)
    ensures v in ActiveOnly(vs) <==> v in vs && v.active
    decreases |vs|
  {
    if vs != [] {
      var init := vs[..|vs| - 1];
      ActiveOnlyMembers(init, v);
      assert vs == init + [vs[|vs| - 1]];
    }
  }

  /** cleanupVoices keeps the order of the voices: filtering distributes over concatenation. */
  lemma {:induction false} ActiveOnlyAppend(a: seq<Voice>, b: seq<Voice>)
    ensures ActiveOnly(a + b) == ActiveOnly(a) + ActiveOnly(b)
    decreases |b|
  {
    if b == [] {
      assert a + b == a;
    } else {
      var init, last := b[..|b| - 1], b[|b| - 1];
      var tail := if last.active then [last] else [];
      ActiveOnlyAppend(a, init);
      assert (a + b)[..|a + b| - 1] == a + init;
      assert (a + b)[|a + b| - 1] == last;
      calc {
        ActiveOnly(a + b);
        ActiveOnly(a + init) + tail;
        ActiveOnly(a) + ActiveOnly(init) + tail;
        ActiveOnly(a) + (ActiveOnly(init) + tail);
        ActiveOnly(a) + ActiveOnly(b);
      }
    }
  }

  /** A pool with no inactive voice is left as it is, so the purge is idempotent. */
  lemma {:induction false} ActiveOnlyKeepsActivePool(vs: seq<Voice>)
    requires forall j :: 0 <= j < |vs| ==> vs[j].active
    ensures ActiveOnly(vs) == vs
    decreases |vs|
  {
    if vs != [] {
      var init := vs[..|vs| - 1];
      ActiveOnlyKeepsActivePool(init);
      assert vs == init + [vs[|vs| - 1]];
    }
  }

  /** Purging twice is purging once. */
  lemma ActiveOnlyIdempotent(vs: seq<Voice>)
    ensures ActiveOnly(ActiveOnly(vs)) == ActiveOnly(vs)
  {
    var c := ActiveOnly(vs);
    forall j | 0 <= j < |c| ensures c[j].active {
      ActiveOnlyMembers(vs, c[j]);
    }
    ActiveOnlyKeepsActivePool(c);
  }

  /** A pool of at most sixteen voices holds at most sixteen after noteOn. */
  lemma NoteOnKeepsCapacity(vs: seq<Voice>, note: int, added: Voice)
    requires |vs| <= MaxVoices
    ensures |NoteOnVoices(vs, note, added)| <= MaxVoices
  {
    var p := Purged(ReleaseFirst(vs, note));
    assert |p| < MaxVoices;
  }

  /** A full pool of active voices loses its oldest voice, whatever its state, and keeps
      the others in order, with the retriggered one released. */
  lemma NoteOnEvictsOldest(vs: seq<Voice>, note: int, added: Voice)
    requires |vs| == MaxVoices && forall j :: 0 <= j < |vs| ==> vs[j].active
    ensures NoteOnVoices(vs, note, added) == ReleaseFirst(vs, note)[1..] + [added]
  {
    var a := ReleaseFirst(vs, note);
    ActiveOnlyKeepsActivePool(a);
  }

  /** A pool below capacity only gains the new voice, after the retrigger release. */
  lemma NoteOnBelowCapacity(vs: seq<Voice>, note: int, added: Voice)
    requires |vs| < MaxVoices
    ensures NoteOnVoices(vs, note, added) == ReleaseFirst(vs, note) + [added]
  {
  }

  /** Pressing a note twice, in a pool below capacity where nothing plays it: the first voice
      is released by the retrigger rule and the second attacks, so the note sounds from exactly
      one attacking voice and one releasing voice, and every older voice is untouched. */
  lemma RetriggerTwice(h: Host, vs: seq<Voice>, note: int, v1: real, v2: real, p: Params, sampleRate: int)
    requires sampleRate > 0 && PoolOk(vs, sampleRate) && |vs| + 1 < MaxVoices
    requires forall j :: 0 <= j < |vs| ==> !Plays(vs[j], note)
    ensures var first, second := FreshVoice(h, note, v1, p, sampleRate), FreshVoice(h, note, v2, p, sampleRate);
      var r := NoteOnVoices(NoteOnVoices(vs, note, first), note, second);
      && |r| == |vs| + 2 && r[..|vs|] == vs
      && r[|vs|] == Released(first) && r[|vs|].env.state == Envelope.Release
      && r[|vs| + 1] == second && r[|vs| + 1].env.state == Envelope.Attack
      && forall j :: 0 <= j < |r| && r[j].note == note && Envelope.IsActive(r[j].env) ==> j >= |vs|
  {
    var first, second := FreshVoice(h, note, v1, p, sampleRate), FreshVoice(h, note, v2, p, sampleRate);
    assert first.env.state == Envelope.Attack && second.env.state == Envelope.Attack;
    var once := NoteOnVoices(vs, note, first);
    assert once == vs + [first] by {
      NoteOnBelowCapacity(vs, note, first);
      assert FirstPlaying(vs, note) == |vs|;
    }
    NoteOnBelowCapacity(once, note, second);
    assert FirstPlaying(once, note) == |vs| by {
      assert once[..|vs|] == vs;
      assert Plays(once[|vs|], note);
    }
    var r := NoteOnVoices(once, note, second);
    assert r == vs + [Released(first), second];
    forall j | 0 <= j < |vs| && vs[j].note == note
      ensures !Envelope.IsActive(vs[j].env)
    {
      assert VoiceOk(vs[j], sampleRate);
    }
  }

  /** noteOn keeps every voice within the pool invariant. */
  lemma NoteOnKeepsOk(vs: seq<Voice>, note: int, added: Voice, sampleRate: int)
    requires PoolOk(vs, sampleRate) && VoiceOk(added, sampleRate)
    ensures PoolOk(NoteOnVoices(vs, note, added), sampleRate)
  {
    NoteOnKeepsCapacity(vs, note, added);
    var a := ReleaseFirst(vs, note);
    assert forall j :: 0 <= j < |a| ==> VoiceOk(a[j], sampleRate);
    var c := ActiveOnly(a);
    forall j | 0 <= j < |c| ensures VoiceOk(c[j], sampleRate) {
      ActiveOnlyMembers(a, c[j]);
    }
  }

  /** cleanupVoices keeps every voice within the pool invariant. */
  lemma ActiveOnlyKeepsOk(vs: seq<Voice>, sampleRate: int)
    requires PoolOk(vs, sampleRate)
    ensures PoolOk(ActiveOnly(vs), sampleRate)
  {
    var c := ActiveOnly(vs);
    forall j | 0 <= j < |c| ensures VoiceOk(c[j], sampleRate) {
      ActiveOnlyMembers(vs, c[j]);
    }
  }

  /** noteOff keeps every voice within the pool invariant. */
  lemma NoteOffKeepsOk(vs: seq<Voice>, note: int, sampleRate: int)
    requires PoolOk(vs, sampleRate)
    ensures PoolOk(NoteOffVoices(vs, note), sampleRate)
  {
  }

  /** After noteOff every voice of that note is releasing or idle. */
  lemma NoteOffSilencesNote(vs: seq<Voice>, note: int, sampleRate: int)
    requires forall j :: 0 <= j < |vs| ==> VoiceOk(vs[j], sampleRate)
    ensures var r := NoteOffVoices(vs, note);
      forall j :: 0 <= j < |r| && r[j].note == note ==>
        r[j].env.state == Envelope.Release || r[j].env.state == Envelope.Idle
  {
  }

  // ---------------------------------------------------------------- the cleanup counter

  /** One call's update of the cleanup counter: incremented, and when it passes 1000 the pool
      is purged (the flag) and the counter restarts at 0. */
  function CounterStep(c: int): (r: (int, bool))
  {
    if c + 1 > CleanupPeriod then (0, true) else (c + 1, false)
  }

  /** The counter after n calls. */
  function CounterAfter(c: int, n: nat): int
    decreases n
  {
    if n == 0 then c else CounterAfter(CounterStep(c).0, n - 1)
  }

  /** From any value in [0, 1000] the counter climbs by one per call without a purge. */
  lemma {:induction false} CounterClimbs(c: int, n: nat)
    requires 0 <= c && c + n <= CleanupPeriod
    ensures CounterAfter(c, n) == c + n
    decreases n
  {
    if n > 0 {
      CounterClimbs(c + 1, n - 1);
    }
  }

  /** From a counter c in [0, 1000] the next 1000 - c calls do not purge and the call after
      them does and resets the counter: from the start, every 1001st call purges. */
  lemma PurgeCadence(c: int)
    requires 0 <= c <= CleanupPeriod
    ensures forall m: nat :: m < CleanupPeriod - c ==> !CounterStep(CounterAfter(c, m)).1
    ensures CounterStep(CounterAfter(c, CleanupPeriod - c)) == (0, true)
  {
    forall m: nat | m < CleanupPeriod - c ensures !CounterStep(CounterAfter(c, m)).1 {
      CounterClimbs(c, m);
    }
    CounterClimbs(c, CleanupPeriod - c);
  }

  // ---------------------------------------------------------------- the loops, in place

  /** The Voice constructor's loop: one oscillator per count, detuned after the first, then
      a fresh envelope, triggered. */
  method MakeVoice(h: Host, note: int, velocity: real, count: int, sampleRate: int) returns (v: Voice)
    requires sampleRate > 0
    ensures v == NewVoice(h, note, velocity, count, sampleRate)
  {
    var frequency := NoteToFrequency(h, note);
    var oscs: seq<Oscillators.Osc> := [];
    var i := 0;
    while i < count
      invariant 0 <= i <= (if count > 0 then count else 0)
      invariant |oscs| == i
      invariant forall j :: 0 <= j < i ==> oscs[j] == NewOscillator(frequency, j, sampleRate)
    {
      var o := Oscillators.New(frequency, sampleRate);
      if i > 0 {
        o := Oscillators.WithFrequency(o, frequency * (1.0 + i as real * 0.01));
      }
      assert o == NewOscillator(frequency, i, sampleRate);
      oscs := oscs + [o];
      i := i + 1;
    }
    v := Voice(note, velocity, oscs, Envelope.Triggered(Envelope.New(sampleRate)), true, 0.0);
    ghost var w := NewVoice(h, note, velocity, count, sampleRate);
    assert |w.oscs| == |oscs|;
    assert w.oscs == oscs;
  }

  /** The waveform loop of noteOn and setWaveform over one voice's oscillators. */
  method SwitchWaveform(oscs: seq<Oscillators.Osc>, code: int) returns (r: seq<Oscillators.Osc>)
    ensures r == WithWaveform(oscs, code)
  {
    r := oscs;
    var i := 0;
    while i < |r|
      invariant 0 <= i <= |r| == |oscs|
      invariant forall j :: 0 <= j < i ==> r[j] == oscs[j].(waveform := Oscillators.WaveformOf(code))
      invariant forall j :: i <= j < |r| ==> r[j] == oscs[j]
    {
      r := r[i := r[i].(waveform := Oscillators.WaveformOf(code))];
      i := i + 1;
    }
  }

  /** The vibrato loop of process over one voice's oscillators. */
  method RetuneVoice(h: Host, v: Voice, vibrato: real) returns (r: Voice)
    requires forall i :: 0 <= i < |v.oscs| ==> v.oscs[i].sampleRate > 0
    ensures r == Retuned(h, v, vibrato)
  {
    var vibratoFreq := NoteToFrequency(h, v.note) * (1.0 + vibrato);
    var oscs := v.oscs;
    var i := 0;
    while i < |oscs|
      invariant 0 <= i <= |oscs| == |v.oscs|
      invariant forall j :: 0 <= j < i ==> oscs[j] == Oscillators.WithFrequency(v.oscs[j], Vibrated(h, v.note, vibrato, j))
      invariant forall j :: i <= j < |oscs| ==> oscs[j] == v.oscs[j]
    {
      var detune := if i > 0 then 1.0 + i as real * 0.01 else 1.0;
      oscs := oscs[i := Oscillators.WithFrequency(oscs[i], vibratoFreq * detune)];
      i := i + 1;
    }
    r := v.(oscs := oscs);
  }

  /** Voice::process: the mixing loop over the oscillators, the average, the envelope. */
  method ProcessVoice(h: Host, v: Voice, k: nat) returns (r: Voice, out: real, next: nat)
    ensures (r, out, next) == VoiceStep(h, v, k)
  {
    if !v.active {
      return v, 0.0, k;
    }
    var oscs: seq<Oscillators.Osc> := [];
    var sum := 0.0;
    next := k;
    var i := 0;
    while i < |v.oscs|
      invariant 0 <= i <= |v.oscs|
      invariant (oscs, sum, next) == Mixed(h, v.oscs, k, i)
    {
      var p := Oscillators.Processed(h, v.oscs[i], h.noise(next));
      oscs := oscs + [p.0];
      sum := sum + p.1;
      if v.oscs[i].waveform == Oscillators.Noise {
        next := next + 1;
      }
      i := i + 1;
    }
    var mean := sum;
    if |v.oscs| > 0 {
      mean := sum / |v.oscs| as real;
    }
    var e := Envelope.Processed(v.env);
    out := mean * (e.1 * v.velocity);
    assert out == Scaled(sum, |v.oscs|, e.1, v.velocity);
    r := v.(oscs := oscs, env := e.0);
    if !Envelope.IsActive(e.0) {
      r := r.(active := false);
    }
  }

  /** setWaveform's loop over the pool, the inner loop over each voice's oscillators. */
  method SwitchAll(vs: seq<Voice>, code: int) returns (r: seq<Voice>)
    ensures r == WaveformAll(vs, code)
  {
    r := vs;
    var i := 0;
    while i < |r|
      invariant 0 <= i <= |r| == |vs|
      invariant forall j :: 0 <= j < i ==> r[j] == vs[j].(oscs := WithWaveform(vs[j].oscs, code))
      invariant forall j :: i <= j < |r| ==> r[j] == vs[j]
    {
      var oscs := SwitchWaveform(r[i].oscs, code);
      r := r[i := r[i].(oscs := oscs)];
      i := i + 1;
    }
  }

  /** cleanupVoices, as std::remove_if does it: the active voices copied forward in order. */
  method RemoveInactive(vs: seq<Voice>) returns (kept: seq<Voice>)
    ensures kept == ActiveOnly(vs)
  {
    kept := [];
    var i := 0;
    while i < |vs|
      invariant 0 <= i <= |vs|
      invariant kept == ActiveOnly(vs[..i])
    {
      assert vs[..i + 1][..i] == vs[..i];
      if vs[i].active {
        kept := kept + [vs[i]];
      }
      i := i + 1;
    }
    assert vs[..i] == vs;
  }

  /** The retrigger loop of noteOn: it stops at the first voice playing the note. */
  method ReleaseRetriggered(vs: seq<Voice>, note: int) returns (r: seq<Voice>)
    ensures r == ReleaseFirst(vs, note)
  {
    var i := 0;
    while i < |vs|
      invariant 0 <= i <= |vs|
      invariant forall j :: 0 <= j < i ==> !Plays(vs[j], note)
    {
      if Plays(vs[i], note) {
        assert FirstPlaying(vs, note) == i;
        return vs[i := Released(vs[i])];
      }
      i := i + 1;
    }
    return vs;
  }

  /** The capacity rule of noteOn: purge at capacity, then erase the oldest if still full. */
  method MakeRoom(vs: seq<Voice>) returns (r: seq<Voice>)
    ensures r == Purged(vs)
  {
    r := vs;
    if |r| >= MaxVoices {
      r := RemoveInactive(r);
      if |r| >= MaxVoices {
        r := r[1..];
      }
    }
  }

  /** One call to process up to the effects: every voice rendered with the vibrato, then the
      inactive ones purged when the cleanup counter wraps. The result is the new pool, the mixed
      signal, the next position of the noise source and the new counter. */
  function Tick(h: Host, vs: seq<Voice>, vibrato: real, k: nat, counter: int, sampleRate: int)
    : (r: (seq<Voice>, real, nat, int))
    requires Timed(vs, sampleRate)
    ensures r.1 == Render(h, vs, vibrato, k, |vs|, sampleRate).1
    ensures |r.0| <= |vs|
  {
    var m := Render(h, vs, vibrato, k, |vs|, sampleRate);
    var c := CounterStep(counter);
    (if c.1 then ActiveOnly(m.0) else m.0, m.1, m.2, c.0)
  }

  // ---------------------------------------------------------------- the synthesizer

  class Synthesizer {
    const sampleRate: int
    const deltaTime: real
    var voices: seq<Voice>
    var attack: real
    var decay: real
    var sustain: real
    var release: real
    var waveform: int
    var oscillatorCount: int
    var vibratoRate: real
    var vibratoDepth: real
    var vibratoPhase: real
    /** The counter process keeps between calls. */
    var cleanupCounter: int
    /** How many draws the noise oscillators have taken from the random generator. */
    var noiseDraws: nat
    const effects: EffectsChain.Effects
    ghost const Repr: set<object>

    /** The part of the invariant about the effects, which no change to the voices or the
        parameters can affect. */
    ghost predicate EffectsOk()
      reads {effects} + effects.Repr
    {
      && Repr == {this, effects} + effects.Repr && this !in effects.Repr
      && effects.Valid()
      && sampleRate >= 100 && deltaTime == Period(sampleRate)
    }

    ghost predicate Valid()
      reads this, Repr, effects, effects.Repr
    {
      && EffectsOk()
      && MinOscillators <= oscillatorCount <= MaxOscillators
      && PoolOk(voices, sampleRate)
      && 0 <= cleanupCounter <= CleanupPeriod
    }

    /** The parameters every new voice receives. */
    function Globals(): Params
      reads this`attack, this`decay, this`sustain, this`release, this`waveform, this`oscillatorCount
    {
      Params(attack, decay, sustain, release, waveform, oscillatorCount)
    }

    /** The state the constructor leaves: the given rate and its sample period, an empty pool,
        the default ADSR times, sine waveform and two oscillators, a 5 Hz vibrato at depth 0.02
        and phase 0, no draws taken, the counter at 0, and a fresh effects chain. */
    ghost predicate Initial(sr: int)
      reads this, effects, effects.Repr
    {
      && sr >= 100 && sampleRate == sr && deltaTime == Period(sr)
      && voices == [] && noiseDraws == 0 && cleanupCounter == 0
      && Globals() == Params(Envelope.DefaultAttack, Envelope.DefaultDecay,
           Envelope.DefaultSustain, Envelope.DefaultRelease, 0, 2)
      && vibratoRate == 5.0 && vibratoDepth == 0.02 && vibratoPhase == 0.0
      && effects.Valid()
      && effects.delay.Value() == EffectsChain.NewDelay(sr, EffectsChain.DefaultMaxDelayTime)
      && effects.reverb.Value() == EffectsChain.NewReverb(sr)
    }

    /** What noteOn and noteOff leave alone: everything but the pool. */
    twostate predicate OnlyVoicesChanged()
      reads this, effects, effects.Repr
    {
      && Globals() == old(Globals())
      && vibratoRate == old(vibratoRate) && vibratoDepth == old(vibratoDepth) && vibratoPhase == old(vibratoPhase)
      && cleanupCounter == old(cleanupCounter) && noiseDraws == old(noiseDraws)
      && unchanged(effects.Repr)
    }

    /** One call to process from the state with the given pool, vibrato phase, draw count,
        counter and effects chain to this one: the voices, draws and counter as Tick gives them
        under the vibrato of the old phase, the phase advanced, the effects chain stepped on
        the mix, and out the chain's output clamped to [-1, 1]. */
    ghost predicate Stepped(h: Host, voices0: seq<Voice>, phase0: real, draws0: nat, counter0: int,
                            chain0: EffectsChain.Chain, out: real)
      reads this, effects, effects.Repr
    {
      && effects.Valid() && Timed(voices0, sampleRate) && EffectsChain.ChainOk(chain0)
      && var t := Tick(h, voices0, Vibrato(h, phase0, vibratoDepth), draws0, counter0, sampleRate);
         var e := EffectsChain.ChainStep(chain0, t.1);
         && (voices, noiseDraws, cleanupCounter) == (t.0, t.2, t.3)
         && vibratoPhase == NextVibratoPhase(phase0, vibratoRate, deltaTime)
         && effects.Value() == e.0 && out == Clamp(e.1, -1.0, 1.0)
    }

    constructor (sampleRate: int)
      requires sampleRate >= 100
      ensures Valid() && fresh(Repr) && Initial(sampleRate)
    {
      this.sampleRate := sampleRate;
      deltaTime := Period(sampleRate);
      voices := [];
      attack, decay, sustain, release := 0.1, 0.2, 0.7, 0.5;
      waveform, oscillatorCount := 0, 2;
      vibratoRate, vibratoDepth, vibratoPhase := 5.0, 0.02, 0.0;
      cleanupCounter, noiseDraws := 0, 0;
      var e := new EffectsChain.Effects(sampleRate);
      effects := e;
      Repr := {this, e} + e.Repr;
    }

    /** cleanupVoices. */
    method CleanupVoices()
      modifies this`voices
      ensures voices == ActiveOnly(old(voices))
    {
      voices := RemoveInactive(voices);
    }

    /** The new voice of noteOn, set up from the global parameters. */
    method NewVoiceFor(h: Host, note: int, velocity: real) returns (v: Voice)
      requires sampleRate > 0
      ensures v == FreshVoice(h, note, velocity, Globals(), sampleRate)
    {
      v := MakeVoice(h, note, velocity, oscillatorCount, sampleRate);
      v := v.(env := Envelope.WithAttack(v.env, attack));
      v := v.(env := Envelope.WithDecay(v.env, decay));
      v := v.(env := Envelope.WithSustain(v.env, sustain));
      v := v.(env := Envelope.WithRelease(v.env, release));
      var oscs := SwitchWaveform(v.oscs, waveform);
      v := v.(oscs := oscs);
    }

    method NoteOn(h: Host, note: int, velocity: real)
      requires Valid()
      modifies this`voices
      ensures Valid()
      ensures voices == NoteOnVoices(old(voices), note, FreshVoice(h, note, velocity, Globals(), sampleRate))
    {
      voices := NoteOnPool(h, note, velocity);
    }

    /** The pool noteOn leaves behind. */
    method NoteOnPool(h: Host, note: int, velocity: real) returns (pool: seq<Voice>)
      requires sampleRate > 0 && PoolOk(voices, sampleRate)
      ensures PoolOk(pool, sampleRate)
      ensures pool == NoteOnVoices(voices, note, FreshVoice(h, note, velocity, Globals(), sampleRate))
    {
      pool := ReleaseRetriggered(voices, note);
      pool := MakeRoom(pool);
      var v := NewVoiceFor(h, note, velocity);
      NoteOnKeepsOk(voices, note, v, sampleRate);
      pool := pool + [v];
    }

    method NoteOff(note: int)
      requires Valid()
      modifies this`voices
      ensures Valid()
      ensures voices == NoteOffVoices(old(voices), note)
    {
      var i := 0;
      while i < |voices|
        invariant 0 <= i <= |voices| == |old(voices)|
        invariant forall j :: 0 <= j < i ==> voices[j] == (if Plays(old(voices)[j], note) then Released(old(voices)[j]) else old(voices)[j])
        invariant forall j :: i <= j < |voices| ==> voices[j] == old(voices)[j]
      {
        if Plays(voices[i], note) {
          voices := voices[i := Released(voices[i])];
        }
        i := i + 1;
      }
      assert voices == NoteOffVoices(old(voices), note);
      NoteOffKeepsOk(old(voices), note, sampleRate);
    }

    /** The voice loop of process: each active voice retuned and processed in place, its
        output added to the mix. */
    method RenderVoices(h: Host, vibrato: real) returns (output: real)
      requires Timed(voices, sampleRate)
      modifies this`voices, this`noiseDraws
      ensures var r := Render(h, old(voices), vibrato, old(noiseDraws), |old(voices)|, sampleRate);
        voices == r.0 && output == r.1 && noiseDraws == r.2
    {
      ghost var vs, k := voices, noiseDraws;
      output := 0.0;
      var i := 0;
      while i < |voices|
        invariant 0 <= i <= |voices| == |vs|
        invariant voices[i..] == vs[i..]
        invariant var r := Render(h, vs, vibrato, k, i, sampleRate);
          voices[..i] == r.0 && output == r.1 && noiseDraws == r.2
      {
        assert voices[i] == vs[i];
        if voices[i].active {
          var v := RetuneVoice(h, voices[i], vibrato);
          var y;
          v, y, noiseDraws := ProcessVoice(h, v, noiseDraws);
          voices := voices[i := v];
          output := output + y;
        }
        assert voices[..i + 1] == voices[..i] + [voices[i]];
        i := i + 1;
      }
      assert voices[..i] == voices;
    }

    /** The voice loop of process followed by the periodic purge. */
    method MixVoices(h: Host, vibrato: real) returns (output: real)
      requires sampleRate > 0 && PoolOk(voices, sampleRate) && 0 <= cleanupCounter <= CleanupPeriod
      modifies this`voices, this`noiseDraws, this`cleanupCounter
      ensures PoolOk(voices, sampleRate) && 0 <= cleanupCounter <= CleanupPeriod
      ensures Timed(old(voices), sampleRate)
      ensures (voices, output, noiseDraws, cleanupCounter)
        == Tick(h, old(voices), vibrato, old(noiseDraws), old(cleanupCounter), sampleRate)
    {
      RenderKeepsOk(h, voices, vibrato, noiseDraws, sampleRate);
      output := RenderVoices(h, vibrato);
      cleanupCounter := cleanupCounter + 1;
      if cleanupCounter > CleanupPeriod {
        ActiveOnlyKeepsOk(voices, sampleRate);
        CleanupVoices();
        cleanupCounter := 0;
      }
    }

    /** The LFO phase update of process. */
    method AdvanceVibrato()
      modifies this`vibratoPhase
      ensures vibratoPhase == NextVibratoPhase(old(vibratoPhase), vibratoRate, deltaTime)
    {
      vibratoPhase := vibratoPhase + VibratoIncrement(vibratoRate, deltaTime);
      if vibratoPhase >= Oscillators.TwoPi {
        vibratoPhase := vibratoPhase - Oscillators.TwoPi;
      }
    }

    /** The part of process before the effects: the vibrato LFO, the voice loop and the
        periodic purge. */
    method RenderAll(h: Host) returns (output: real)
      requires Valid()
      modifies this`voices, this`noiseDraws, this`vibratoPhase, this`cleanupCounter
      ensures Valid()
      ensures Timed(old(voices), sampleRate)
      ensures (voices, output, noiseDraws, cleanupCounter)
        == Tick(h, old(voices), Vibrato(h, old(vibratoPhase), vibratoDepth),
                old(noiseDraws), old(cleanupCounter), sampleRate)
      ensures vibratoPhase == NextVibratoPhase(old(vibratoPhase), vibratoRate, deltaTime)
    {
      var vibrato := Vibrato(h, vibratoPhase, vibratoDepth);
      AdvanceVibrato();
      output := MixVoices(h, vibrato);
    }

    /** process: the vibrato LFO, the voice loop, the periodic purge, the effects and the
        final clamp to [-1, 1]. */
    method Process(h: Host) returns (out: real)
      requires Valid()
      modifies this`voices, this`noiseDraws, this`vibratoPhase, this`cleanupCounter, effects.Repr
      ensures Valid()
      ensures Stepped(h, old(voices), old(vibratoPhase), old(noiseDraws), old(cleanupCounter), old(effects.Value()), out)
      ensures -1.0 <= out <= 1.0
    {
      ghost var e0 := effects.Value();
      var output := RenderAll(h);
      assert effects.Value() == e0;
      ghost var after := (voices, noiseDraws, cleanupCounter, vibratoPhase);
      output := effects.Process(output);
      assert (voices, noiseDraws, cleanupCounter, vibratoPhase) == after;
      out := Max(-1.0, Min(1.0, output));
    }

    /** The setter loops over the pool, for one envelope setting. */
    method PushSetting(s: EnvSetting)
      requires Valid()
      modifies this`voices
      ensures Valid() && voices == Broadcast(old(voices), s)
    {
      var i := 0;
      while i < |voices|
        invariant 0 <= i <= |voices| == |old(voices)|
        invariant forall j :: 0 <= j < i ==> voices[j] == old(voices)[j].(env := Applied(old(voices)[j].env, s))
        invariant forall j :: i <= j < |voices| ==> voices[j] == old(voices)[j]
      {
        voices := voices[i := voices[i].(env := Applied(voices[i].env, s))];
        i := i + 1;
      }
      assert voices == Broadcast(old(voices), s);
      BroadcastKeepsOk(old(voices), s, sampleRate);
    }

    method SetAttack(attack: real)
      requires Valid()
      modifies this`attack, this`voices
      ensures Valid() && this.attack == attack && voices == Broadcast(old(voices), AttackTime(attack))
    {
      this.attack := attack;
      PushSetting(AttackTime(attack));
    }

    method SetDecay(decay: real)
      requires Valid()
      modifies this`decay, this`voices
      ensures Valid() && this.decay == decay && voices == Broadcast(old(voices), DecayTime(decay))
    {
      this.decay := decay;
      PushSetting(DecayTime(decay));
    }

    method SetSustain(sustain: real)
      requires Valid()
      modifies this`sustain, this`voices
      ensures Valid() && this.sustain == sustain && voices == Broadcast(old(voices), SustainLevel(sustain))
    {
      this.sustain := sustain;
      PushSetting(SustainLevel(sustain));
    }

    method SetRelease(release: real)
      requires Valid()
      modifies this`release, this`voices
      ensures Valid() && this.release == release && voices == Broadcast(old(voices), ReleaseTime(release))
    {
      this.release := release;
      PushSetting(ReleaseTime(release));
    }

    method SetWaveform(code: int)
      requires Valid()
      modifies this`waveform, this`voices
      ensures Valid() && waveform == code && voices == WaveformAll(old(voices), code)
    {
      waveform := code;
      voices := SwitchAll(voices, code);
      WaveformAllKeepsOk(old(voices), code, sampleRate);
    }

    /** Only voices made later see the new count. */
    method SetOscillatorCount(count: int)
      requires Valid()
      modifies this`oscillatorCount
      ensures Valid() && oscillatorCount == ClampCount(count)
    {
      oscillatorCount := if count < 1 then 1 else if count > 3 then 3 else count;
    }

    method SetVibratoRate(rate: real)
      requires Valid()
      modifies this`vibratoRate
      ensures Valid() && vibratoRate == rate
    {
      vibratoRate := rate;
    }

    method SetVibratoDepth(depth: real)
      requires Valid()
      modifies this`vibratoDepth
      ensures Valid() && vibratoDepth == depth
    {
      vibratoDepth := depth;
    }

    method SetReverb(amount: real)
      requires Valid()
      modifies effects.reverb
      ensures Valid()
      ensures effects.Value() == old(effects.Value()).(reverb := EffectsChain.WithReverbMix(old(effects.Value()).reverb, amount))
    {
      effects.SetReverbAmount(amount);
    }

    method SetDelay(amount: real)
      requires Valid()
      modifies effects.delay
      ensures Valid()
      ensures effects.Value() == old(effects.Value()).(delay := EffectsChain.WithDelayMix(old(effects.Value()).delay, amount))
    {
      effects.SetDelayAmount(amount);
    }
  }
}
