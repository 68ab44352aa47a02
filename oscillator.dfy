/** The phase-accumulator oscillator (src/Oscillator.cpp): five waveforms evaluated at the
    current phase, scaled by the amplitude, with the phase advanced by a fixed increment
    and wrapped at 2*pi.

    `Osc` is the value of an oscillator's fields and `Processed` is one call to process;
    class `Oscillator` is the in-place form whose methods are proved to match. */
module Oscillators {
  import opened Numeric
  import opened Platform

  /** M_PI, and TWO_PI = 2 * M_PI (src/Oscillator.h). */
  const Pi: real := 3.14159265358979323846
  const TwoPi: real := 2.0 * Pi

  /** WaveformType. `Unnamed(code)` is what static_cast<WaveformType> yields for an int with
      no enumerator: the switch in process matches none of its cases. */
  datatype Waveform = Sine | Square | Sawtooth | Triangle | Noise | Unnamed(code: int)

  /** static_cast<WaveformType>(code). */
  function WaveformOf(code: int): (w: Waveform)
    ensures 0 <= code <= 4 <==> !w.Unnamed?
    ensures w.Unnamed? ==> w.code == code
    ensures code == 0 <==> w == Sine
    ensures code == 1 <==> w == Square
    ensures code == 2 <==> w == Sawtooth
    ensures code == 3 <==> w == Triangle
    ensures code == 4 <==> w == Noise
  {
    if code == 0 then Sine
    else if code == 1 then Square
    else if code == 2 then Sawtooth
    else if code == 3 then Triangle
    else if code == 4 then Noise
    else Unnamed(code)
  }

  /** The fields of an Oscillator. */
  datatype Osc = Osc(
    frequency: real, amplitude: real, phase: real, phaseIncrement: real,
    sampleRate: int, waveform: Waveform, lastNoise: real)

  /** Radians advanced per sample for a frequency in Hz. */
  function Increment(frequency: real, sampleRate: int): real
    requires sampleRate > 0
  {
    TwoPi * frequency / sampleRate as real
  }

  /** The increment matches the frequency: true after construction and after every setter. */
  predicate Tuned(o: Osc) {
    o.sampleRate > 0 && o.phaseIncrement == Increment(o.frequency, o.sampleRate)
  }

  /** The constructor: amplitude 1, phase 0, sine, no noise history. */
  function New(frequency: real, sampleRate: int): (o: Osc)
    requires sampleRate > 0
    ensures Tuned(o) && o.frequency == frequency && o.sampleRate == sampleRate
    ensures o.amplitude == 1.0 && o.phase == 0.0 && o.waveform == Sine && o.lastNoise == 0.0
  {
    Osc(frequency, 1.0, 0.0, Increment(frequency, sampleRate), sampleRate, Sine, 0.0)
  }

  /** +1 in the first half cycle, -1 in the second. */
  function SquareWave(phase: real): (v: real)
    ensures v == 1.0 || v == -1.0
    ensures v == 1.0 <==> phase < Pi
  {
    if phase < Pi then 1.0 else -1.0
  }

  /** A ramp from -1 at phase 0 towards +1 at 2*pi. */
  function SawtoothWave(phase: real): real {
    2.0 * phase / TwoPi - 1.0
  }

  /** Up from -1 at phase 0 to +1 at pi, then down again. */
  function TriangleWave(phase: real): real {
    if phase < Pi then 2.0 * phase / Pi - 1.0 else 3.0 - 2.0 * phase / Pi
  }

  /** The one-pole smoother that turns a uniform draw into band-limited noise. */
  function NoiseStep(last: real, draw: real): (r: real)
    ensures -1.0 <= last <= 1.0 && -1.0 <= draw <= 1.0 ==> -1.0 <= r <= 1.0
  {
    last * 0.99 + draw * 0.01
  }

  /** The phase after one sample: one increment added, 2*pi taken off at most once. */
  function AdvancePhase(phase: real, inc: real): (p: real)
    ensures p == phase + inc || p == phase + inc - TwoPi
    ensures 0.0 <= phase < TwoPi && 0.0 <= inc < TwoPi ==> 0.0 <= p < TwoPi
  {
    var q := phase + inc;
    if q >= TwoPi then q - TwoPi else q
  }

  /** One call to process, given the uniform draw a noise oscillator would take: the waveform
      value at the current phase times the amplitude, then the phase advanced. Only the noise
      waveform changes the noise history; the other fields are untouched. */
  function Processed(h: Host, o: Osc, draw: real): (r: (Osc, real))
    ensures r.0.phase == AdvancePhase(o.phase, o.phaseIncrement)
    ensures r.0.lastNoise == (if o.waveform == Noise then NoiseStep(o.lastNoise, draw) else o.lastNoise)
    ensures r.0.(phase := o.phase, lastNoise := o.lastNoise) == o
    ensures r.1 == WaveValue(h, o, draw) * o.amplitude
  {
    var n := if o.waveform == Noise then NoiseStep(o.lastNoise, draw) else o.lastNoise;
    (o.(phase := AdvancePhase(o.phase, o.phaseIncrement), lastNoise := n),
     WaveValue(h, o, draw) * o.amplitude)
  }

  /** The waveform value at the current phase (before the amplitude). */
  function WaveValue(h: Host, o: Osc, draw: real): real {
    match o.waveform
    case Sine => h.sin(o.phase)
    case Square => SquareWave(o.phase)
    case Sawtooth => SawtoothWave(o.phase)
    case Triangle => TriangleWave(o.phase)
    case Noise => NoiseStep(o.lastNoise, draw)
    case Unnamed(_) => 0.0
  }

  /** setFrequency retunes the increment; the other setters change only their own field. */
  function WithFrequency(o: Osc, frequency: real): (r: Osc)
    requires o.sampleRate > 0
    ensures Tuned(r) && r.frequency == frequency
    ensures r.(frequency := o.frequency, phaseIncrement := o.phaseIncrement) == o
  {
    o.(frequency := frequency, phaseIncrement := Increment(frequency, o.sampleRate))
  }

  /** The phase invariant: once in [0, 2*pi), the phase stays there as long as the
      increment does, whatever the waveform. */
  lemma PhaseStaysInCycle(h: Host, o: Osc, draw: real)
    requires 0.0 <= o.phase < TwoPi && 0.0 <= o.phaseIncrement < TwoPi
    ensures 0.0 <= Processed(h, o, draw).0.phase < TwoPi
  {
  }

  /** A frequency below the sample rate gives an increment inside one cycle. */
  lemma IncrementInCycle(frequency: real, sampleRate: int)
    requires sampleRate > 0 && 0.0 <= frequency < sampleRate as real
    ensures 0.0 <= Increment(frequency, sampleRate) < TwoPi
  {
    var sr := sampleRate as real;
    assert frequency / sr < 1.0;
    assert TwoPi * frequency / sr == TwoPi * (frequency / sr);
  }

  /** The sawtooth covers [-1, 1) over one cycle. */
  lemma SawtoothRange(phase: real)
    requires 0.0 <= phase < TwoPi
    ensures -1.0 <= SawtoothWave(phase) < 1.0
  {
  }

  /** The triangle is the ramp phase/pi - 1 folded at its top: 1 - 2|phase/pi - 1|. So it is
      continuous at pi, where it peaks at 1, and stays in [-1, 1] over one cycle. */
  lemma TriangleIsFoldedRamp(phase: real)
    ensures TriangleWave(phase) == 1.0 - 2.0 * Abs(phase / Pi - 1.0)
    ensures 0.0 <= phase <= TwoPi ==> -1.0 <= TriangleWave(phase) <= 1.0
    ensures TriangleWave(Pi) == 1.0 && TriangleWave(0.0) == -1.0
  {
  }

  function Abs(x: real): real {
    if x < 0.0 then -x else x
  }

  /** Every named waveform stays in [-1, 1] given a bounded sine, a bounded draw and bounded
      noise history, so the output never exceeds the amplitude. */
  lemma OutputWithinAmplitude(h: Host, o: Osc, draw: real)
    requires SineInRange(h)
    requires 0.0 <= o.phase < TwoPi && -1.0 <= o.lastNoise <= 1.0 && -1.0 <= draw <= 1.0
    ensures Abs(Processed(h, o, draw).1) <= Abs(o.amplitude)
  {
    var v := WaveValue(h, o, draw);
    assert -1.0 <= v <= 1.0 by {
      if o.waveform == Triangle { TriangleIsFoldedRamp(o.phase); }
    }
    ScaleWithinBound(v, o.amplitude);
  }

  lemma ScaleWithinBound(v: real, a: real)
    requires -1.0 <= v <= 1.0
    ensures Abs(v * a) <= Abs(a)
  {
    if a >= 0.0 {
      assert -a <= v * a <= a by { assert (1.0 - v) * a >= 0.0; assert (1.0 + v) * a >= 0.0; }
    } else {
      assert a <= v * a <= -a by { assert (1.0 - v) * (-a) >= 0.0; assert (1.0 + v) * (-a) >= 0.0; }
    }
  }

  /** The noise history stays in [-1, 1] over any sequence of bounded draws. */
  function NoiseAfter(last: real, draws: seq<real>): real
    decreases |draws|
  {
    if draws == [] then last else NoiseAfter(NoiseStep(last, draws[0]), draws[1..])
  }

  lemma {:induction false} NoiseStaysBounded(last: real, draws: seq<real>)
    requires -1.0 <= last <= 1.0
    requires forall i :: 0 <= i < |draws| ==> -1.0 <= draws[i] <= 1.0
    ensures -1.0 <= NoiseAfter(last, draws) <= 1.0
    decreases |draws|
  {
    if draws != [] {
      NoiseStaysBounded(NoiseStep(last, draws[0]), draws[1..]);
    }
  }

  /** The in-place oscillator: the fields of src/Oscillator.h. */
  class Oscillator {
    const sampleRate: int
    var frequency: real
    var amplitude: real
    var phase: real
    var phaseIncrement: real
    var waveform: Waveform
    var lastNoise: real

    function Value(): Osc
      reads this
    {
      Osc(frequency, amplitude, phase, phaseIncrement, sampleRate, waveform, lastNoise)
    }

    constructor (frequency: real, sampleRate: int)
      requires sampleRate > 0
      ensures Value() == New(frequency, sampleRate)
    {
      this.frequency := frequency;
      amplitude := 1.0;
      phase := 0.0;
      this.sampleRate := sampleRate;
      waveform := Sine;
      lastNoise := 0.0;
      phaseIncrement := (TwoPi * frequency) / sampleRate as real;
    }

    /** `draw` is the value the shared random generator would hand a noise oscillator. */
    method Process(h: Host, draw: real) returns (out: real)
      modifies this
      ensures (Value(), out) == Processed(h, old(Value()), draw)
    {
      ghost var was := Value();
      var output := 0.0;
      match waveform {
        case Sine => output := h.sin(phase);
        case Square => output := SquareWave(phase);
        case Sawtooth => output := SawtoothWave(phase);
        case Triangle => output := TriangleWave(phase);
        case Noise =>
          lastNoise := lastNoise * 0.99 + draw * 0.01;
          output := lastNoise;
        case Unnamed(_) =>
      }
      phase := phase + phaseIncrement;
      if phase >= TwoPi {
        phase := phase - TwoPi;
      }
      out := output * amplitude;
      assert Value() == Processed(h, was, draw).0;
      assert out == Processed(h, was, draw).1;
    }

    method SetFrequency(frequency: real)
      requires sampleRate > 0
      modifies this
      ensures Value() == WithFrequency(old(Value()), frequency)
    {
      this.frequency := frequency;
      phaseIncrement := (TwoPi * frequency) / sampleRate as real;
    }

    method SetWaveform(waveform: Waveform)
      modifies this
      ensures Value() == old(Value()).(waveform := waveform)
    {
      this.waveform := waveform;
    }

    method SetAmplitude(amplitude: real)
      modifies this
      ensures Value() == old(Value()).(amplitude := amplitude)
    {
      this.amplitude := amplitude;
    }

    method SetPhase(phase: real)
      modifies this
      ensures Value() == old(Value()).(phase := phase)
    {
      this.phase := phase;
    }
  }
}
