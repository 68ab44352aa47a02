/** The effects chain (src/Effects.cpp): a feedback delay line followed by a Schroeder reverb
    of four parallel comb filters and two serial allpass filters, each a circular buffer.

    `DelayLine`, `Reverb` and `Chain` are the values of the effects' fields (buffers as
    sequences) and `DelayStep`, `ReverbStep` and `ChainStep` are one call to process; the
    classes keep the buffers in arrays, update them in place, and are proved to match. */
module EffectsChain {
  import opened Numeric

  /** The dry/wet crossfade written out in every effect: dry * (1 - mix) + wet * mix. */
  function Blend(dry: real, wet: real, mix: real): real {
    dry * (1.0 - mix) + wet * mix
  }

  /** A buffer write with feedback: x + cell * gain. */
  function Feed(x: real, cell: real, gain: real): real {
    x + cell * gain
  }

  /** A comb write: x + cell * feedback * roomSize. */
  function CombFeed(x: real, cell: real, feedback: real, roomSize: real): real {
    x + cell * feedback * roomSize
  }

  // ---------------------------------------------------------------- delay

  const MinDelayTime: real := 0.001
  const MaxDelaySetting: real := 1.0
  const MaxFeedback: real := 0.95
  const DefaultDelayTime: real := 0.3
  const DefaultFeedback: real := 0.3
  const DefaultMix: real := 0.3
  /** The maxDelayTime default of the DelayEffect constructor (src/Effects.h). */
  const DefaultMaxDelayTime: real := 1.0

  /** The fields of a DelayEffect. */
  datatype DelayLine = DelayLine(
    cells: seq<real>, writeIndex: int, readIndex: int,
    sampleRate: int, maxDelayTime: real,
    delayTime: real, feedback: real, mix: real)

  /** The number of samples in the buffer: int(maxDelayTime * sampleRate). */
  function BufferSize(maxDelayTime: real, sampleRate: int): int {
    Trunc(maxDelayTime * sampleRate as real)
  }

  /** int(delayTime * sampleRate). */
  function DelaySamples(d: DelayLine): int {
    Trunc(d.delayTime * d.sampleRate as real)
  }

  /** What construction and the setters keep true: a non-empty buffer of the configured size,
      the write index inside it, the delay no longer than the buffer, parameters clamped. */
  predicate DelayOk(d: DelayLine) {
    && d.sampleRate > 0
    && |d.cells| == BufferSize(d.maxDelayTime, d.sampleRate) && |d.cells| > 0
    && 0 <= d.writeIndex < |d.cells|
    && 0.0 <= d.delayTime <= d.maxDelayTime && 0 <= DelaySamples(d) <= |d.cells|
    && 0.0 <= d.feedback <= MaxFeedback && 0.0 <= d.mix <= 1.0
  }

  lemma ScaleMonotone(x: real, y: real, s: real)
    requires x <= y && s > 0.0
    ensures x * s <= y * s
  {
  }

  /** The delay never exceeds the buffer. */
  lemma DelayFitsBuffer(d: DelayLine)
    requires d.sampleRate > 0 && |d.cells| == BufferSize(d.maxDelayTime, d.sampleRate)
    requires 0.0 <= d.delayTime <= d.maxDelayTime
    ensures 0 <= DelaySamples(d) <= |d.cells|
  {
    ScaleMonotone(d.delayTime, d.maxDelayTime, d.sampleRate as real);
    assert 0.0 <= d.delayTime * d.sampleRate as real;
    TruncMonotone(d.delayTime * d.sampleRate as real, d.maxDelayTime * d.sampleRate as real);
  }

  /** writeIndex - delaySamples, wrapped once. */
  function ReadIndexFor(w: int, ds: int, size: int): (r: int)
    requires 0 <= w < size && 0 <= ds <= size
    ensures 0 <= r < size
  {
    var r := w - ds;
    if r < 0 then r + size else r
  }

  /** Wrapping once is enough: the read index is the difference modulo the size. */
  lemma ReadIndexIsModulo(w: int, ds: int, size: int)
    requires 0 <= w < size && 0 <= ds <= size
    ensures ReadIndexFor(w, ds, size) == (w - ds) % size
  {
  }

  /** An index moved on by one, back to 0 past the end. */
  function Advance(i: int, size: int): (j: int)
    requires 0 <= i < size
    ensures 0 <= j < size
  {
    if i + 1 < size then i + 1 else 0
  }

  /** Advance is the source's (i + 1) % size. */
  lemma AdvanceIsModulo(i: int, size: int)
    requires 0 <= i < size
    ensures Advance(i, size) == (i + 1) % size
  {
  }

  /** The constructor: a zeroed buffer of int(maxDelayTime * sampleRate) cells. The delay time
      starts at 0.3 s, capped at the buffer's length: the source sets 0.3 s whatever the
      buffer holds (see DefaultDelayAsWritten). */
  function NewDelay(sampleRate: int, maxDelayTime: real): (d: DelayLine)
    requires sampleRate > 0 && BufferSize(maxDelayTime, sampleRate) > 0
    ensures DelayOk(d) && d.writeIndex == 0
    ensures forall i :: 0 <= i < |d.cells| ==> d.cells[i] == 0.0
    ensures maxDelayTime >= DefaultDelayTime ==> d.delayTime == DefaultDelayTime
    ensures maxDelayTime < DefaultDelayTime ==> d.delayTime == maxDelayTime
  {
    PositiveBuffer(maxDelayTime, sampleRate);
    var d := DelayLine(seq(BufferSize(maxDelayTime, sampleRate), _ => 0.0), 0, 0, sampleRate, maxDelayTime,
                       Min(DefaultDelayTime, maxDelayTime), DefaultFeedback, DefaultMix);
    DelayFitsBuffer(d);
    d
  }

  /** The source's constructor sets the delay to 0.3 s whatever the buffer holds, so with a
      buffer shorter than that the first call reads outside it: DelayEffect(44100, 0.1) has
      4410 cells, a delay of 13230 samples, and reads index 0 - 13230 + 4410 = -8820. */
  lemma DefaultDelayAsWritten()
    ensures var size := BufferSize(0.1, 44100);
      var ds := Trunc(DefaultDelayTime * 44100.0);
      size == 4410 && ds == 13230 && (var r := 0 - ds; (if r < 0 then r + size else r) == -8820)
  {
    assert DefaultDelayTime * 44100.0 == 13230.0;
    assert 0.1 * 44100 as real == 4410.0;
  }

  /** The chain's delay line holds one second: sampleRate cells. */
  lemma OneSecondBuffer(sampleRate: int)
    requires sampleRate > 0
    ensures BufferSize(DefaultMaxDelayTime, sampleRate) == sampleRate
  {
  }

  /** A buffer of at least one sample has a positive length in seconds. */
  lemma PositiveBuffer(maxDelayTime: real, sampleRate: int)
    requires sampleRate > 0 && BufferSize(maxDelayTime, sampleRate) > 0
    ensures maxDelayTime > 0.0
  {
  }

  /** One call to process: read the cell delaySamples behind the write index, write the input
      plus the fed-back delayed sample into the write cell and no other, advance the write index
      by one modulo the size, and return the dry/wet mix. */
  function DelayStep(d: DelayLine, input: real): (r: (DelayLine, real))
    requires DelayOk(d)
    ensures DelayOk(r.0) && |r.0.cells| == |d.cells| && DelaySamples(r.0) == DelaySamples(d)
    ensures var delayed := d.cells[ReadIndexFor(d.writeIndex, DelaySamples(d), |d.cells|)];
      && r.0.cells[d.writeIndex] == Feed(input, delayed, d.feedback)
      && r.1 == Blend(input, delayed, d.mix)
    ensures forall i :: 0 <= i < |d.cells| && i != d.writeIndex ==> r.0.cells[i] == d.cells[i]
    ensures r.0.writeIndex == Advance(d.writeIndex, |d.cells|)
    ensures r.0.readIndex == ReadIndexFor(d.writeIndex, DelaySamples(d), |d.cells|)
    ensures r.0.(cells := d.cells, writeIndex := d.writeIndex, readIndex := d.readIndex) == d
  {
    var ri := ReadIndexFor(d.writeIndex, DelaySamples(d), |d.cells|);
    var delayed := d.cells[ri];
    var next := d.(cells := d.cells[d.writeIndex := Feed(input, delayed, d.feedback)],
                   writeIndex := Advance(d.writeIndex, |d.cells|),
                   readIndex := ri);
    assert DelaySamples(next) == DelaySamples(d);
    (next, Blend(input, delayed, d.mix))
  }

  /** The buffer after a step, as one sequence update. */
  lemma DelayStepCells(d: DelayLine, input: real, written: real)
    requires DelayOk(d)
    requires written == Feed(input, d.cells[ReadIndexFor(d.writeIndex, DelaySamples(d), |d.cells|)], d.feedback)
    ensures DelayStep(d, input).0.cells == d.cells[d.writeIndex := written]
  {
  }

  /** setDelayTime: clamped to [0.001, 1] as in the source, and also to the buffer's length
      maxDelayTime (the correction described in DelayTimeClamp). */
  function WithDelayTime(d: DelayLine, delayTime: real): (r: DelayLine)
    requires DelayOk(d)
    ensures DelayOk(r) && r == d.(delayTime := r.delayTime)
    ensures r.delayTime <= d.maxDelayTime
    ensures d.maxDelayTime >= MaxDelaySetting ==> r.delayTime == DelayTimeAsWritten(delayTime)
  {
    var r := d.(delayTime := Min(d.maxDelayTime, DelayTimeAsWritten(delayTime)));
    DelayFitsBuffer(r);
    r
  }

  /** setDelayTime as the source writes it: clamped to [0.001, 1.0] whatever the buffer size. */
  function DelayTimeAsWritten(delayTime: real): (t: real)
    ensures MinDelayTime <= t <= MaxDelaySetting
  {
    Clamp(delayTime, MinDelayTime, MaxDelaySetting)
  }

  /** With a buffer shorter than a second, the source's clamp lets the read index leave the
      buffer: DelayEffect(44100, 0.5) has 22050 cells, and after setDelayTime(0.8) the first
      call reads index 0 - 35280 + 22050 = -13230. */
  lemma DelayTimeClamp()
    ensures var size := BufferSize(0.5, 44100);
      var ds := Trunc(DelayTimeAsWritten(0.8) * 44100.0);
      size == 22050 && ds == 35280 && (var r := 0 - ds; (if r < 0 then r + size else r) < 0)
  {
    assert DelayTimeAsWritten(0.8) * 44100.0 == 35280.0;
  }

  /** setFeedback clamps to [0, 0.95] so the loop gain stays below one. */
  function WithFeedback(d: DelayLine, feedback: real): (r: DelayLine)
    requires DelayOk(d)
    ensures DelayOk(r) && r == d.(feedback := r.feedback)
    ensures 0.0 <= r.feedback <= MaxFeedback
    ensures 0.0 <= feedback <= MaxFeedback ==> r.feedback == feedback
  {
    d.(feedback := Clamp(feedback, 0.0, MaxFeedback))
  }

  /** setMix clamps to [0, 1]. */
  function WithDelayMix(d: DelayLine, mix: real): (r: DelayLine)
    requires DelayOk(d)
    ensures DelayOk(r) && r == d.(mix := r.mix)
    ensures 0.0 <= mix <= 1.0 ==> r.mix == mix
  {
    d.(mix := Clamp(mix, 0.0, 1.0))
  }

  /** The outputs of the delay for a sequence of inputs. */
  function RunDelay(d: DelayLine, inputs: seq<real>): (outs: seq<real>)
    requires DelayOk(d)
    ensures |outs| == |inputs|
    decreases |inputs|
  {
    if inputs == [] then []
    else
      var (d', y) := DelayStep(d, inputs[0]);
      [y] + RunDelay(d', inputs[1..])
  }

  function Zeros(n: nat): (s: seq<real>)
    ensures |s| == n && forall i :: 0 <= i < n ==> s[i] == 0.0
  {
    seq(n, _ => 0.0)
  }

  /** After an impulse written at cell w0, k steps ago, into an otherwise silent line, the next
      n silent inputs give silence until step delaySamples, where the impulse comes back scaled
      by the mix. */
  lemma {:induction false} EchoOfImpulse(d: DelayLine, w0: int, k: int, n: nat)
    requires DelayOk(d) && 0 <= w0 < |d.cells|
    requires 1 <= k && k + n <= DelaySamples(d) + 1
    requires d.writeIndex == (if w0 + k < |d.cells| then w0 + k else w0 + k - |d.cells|)
    requires forall i :: 0 <= i < |d.cells| ==> d.cells[i] == (if i == w0 then 1.0 else 0.0)
    ensures forall j :: 0 <= j < n ==>
      RunDelay(d, Zeros(n))[j] == (if k + j == DelaySamples(d) then d.mix else 0.0)
    decreases n
  {
    if n > 0 {
      var ds := DelaySamples(d);
      var next := DelayStep(d, 0.0);
      var d', y := next.0, next.1;
      EchoStep(d, w0, k);
      var outs := RunDelay(d, Zeros(n));
      assert outs == [y] + RunDelay(d', Zeros(n - 1)) by {
        assert Zeros(n)[0] == 0.0 && Zeros(n)[1..] == Zeros(n - 1);
      }
      if n > 1 {
        EchoOfImpulse(d', w0, k + 1, n - 1);
        forall j | 1 <= j < n
          ensures outs[j] == (if k + j == ds then d.mix else 0.0)
        {
          assert outs[j] == RunDelay(d', Zeros(n - 1))[j - 1];
        }
      }
    }
  }

  /** One silent step of an echo still k samples from the output: the echo comes out now
      exactly when k is the delay, and otherwise the impulse is still alone in the buffer, one
      step closer. */
  lemma EchoStep(d: DelayLine, w0: int, k: int)
    requires DelayOk(d) && 0 <= w0 < |d.cells|
    requires 1 <= k <= DelaySamples(d)
    requires d.writeIndex == (if w0 + k < |d.cells| then w0 + k else w0 + k - |d.cells|)
    requires forall i :: 0 <= i < |d.cells| ==> d.cells[i] == (if i == w0 then 1.0 else 0.0)
    ensures var next := DelayStep(d, 0.0);
      && next.1 == (if k == DelaySamples(d) then d.mix else 0.0)
      && (k < DelaySamples(d) ==>
        && DelayOk(next.0) && DelaySamples(next.0) == DelaySamples(d) && next.0.mix == d.mix
        && next.0.writeIndex == (if w0 + k + 1 < |d.cells| then w0 + k + 1 else w0 + k + 1 - |d.cells|)
        && forall i :: 0 <= i < |d.cells| ==> next.0.cells[i] == (if i == w0 then 1.0 else 0.0))
  {
    var size, ds := |d.cells|, DelaySamples(d);
    var ri := ReadIndexFor(d.writeIndex, ds, size);
    assert ri == w0 <==> k == ds;
    var next := DelayStep(d, 0.0);
    assert next.1 == (if k == ds then d.mix else 0.0) by {
      assert d.cells[ri] == (if k == ds then 1.0 else 0.0);
    }
    if k < ds {
      assert d.writeIndex != w0;
      assert next.0.cells[d.writeIndex] == 0.0 by {
        assert d.cells[ri] == 0.0;
      }
    }
  }

  /** A unit impulse into a silent delay line comes out at once scaled by (1 - mix), and again
      exactly int(delayTime * sampleRate) calls later scaled by the mix, with silence between. */
  lemma ImpulseResponse(d: DelayLine)
    requires DelayOk(d) && DelaySamples(d) >= 1
    requires forall i :: 0 <= i < |d.cells| ==> d.cells[i] == 0.0
    ensures var ds := DelaySamples(d);
      var outs := RunDelay(d, [1.0] + Zeros(ds));
      && outs[0] == 1.0 - d.mix
      && outs[ds] == d.mix
      && forall t :: 0 < t < ds ==> outs[t] == 0.0
  {
    var ds := DelaySamples(d);
    var step := DelayStep(d, 1.0);
    var d1, y0 := step.0, step.1;
    var ri := ReadIndexFor(d.writeIndex, ds, |d.cells|);
    assert d.cells[ri] == 0.0;
    assert y0 == 1.0 - d.mix;
    assert d1.cells[d.writeIndex] == 1.0;
    assert DelaySamples(d1) == ds && d1.mix == d.mix;
    assert ([1.0] + Zeros(ds))[1..] == Zeros(ds);
    assert RunDelay(d, [1.0] + Zeros(ds)) == [y0] + RunDelay(d1, Zeros(ds));
    EchoOfImpulse(d1, d.writeIndex, 1, ds);
  }

  // ---------------------------------------------------------------- reverb

  const NumCombs: nat := 4
  const NumAllpass: nat := 2
  /** Comb and allpass lengths in samples at 44100 Hz. */
  const CombBases: seq<int> := [1116, 1188, 1277, 1356]
  const AllpassBases: seq<int> := [556, 441]
  const CombFeedback: real := 0.84
  const AllpassFeedback: real := 0.5
  const CombScale: real := 0.25
  const DefaultRoomSize: real := 0.5
  const DefaultDamping: real := 0.5

  /** int(base * (sampleRate / 44100)): a base length scaled to the sample rate. */
  function ScaledSize(base: int, sampleRate: int): int {
    Trunc(base as real * (sampleRate as real / 44100.0))
  }

  /** The fields of a ReverbEffect; `lastOutput` is the damping filter's memory. */
  datatype Reverb = Reverb(
    combs: seq<seq<real>>, combIndices: seq<int>, combFeedback: seq<real>,
    allpasses: seq<seq<real>>, allpassIndices: seq<int>, allpassFeedback: seq<real>,
    sampleRate: int, roomSize: real, damping: real, mix: real, lastOutput: real)

  /** n circular buffers, each non-empty, each with its index inside it. */
  predicate BankOk(cells: seq<seq<real>>, idx: seq<int>, n: nat) {
    |cells| == n && |idx| == n && forall i :: 0 <= i < n ==> 0 <= idx[i] < |cells[i]|
  }

  predicate ReverbOk(v: Reverb) {
    && BankOk(v.combs, v.combIndices, NumCombs) && |v.combFeedback| == NumCombs
    && BankOk(v.allpasses, v.allpassIndices, NumAllpass) && |v.allpassFeedback| == NumAllpass
    && v.sampleRate > 0
    && 0.0 <= v.roomSize <= 1.0 && 0.0 <= v.damping <= 1.0 && 0.0 <= v.mix <= 1.0
  }

  /** The buffers are the base lengths scaled to the sample rate; every one is non-empty from
      100 Hz up (the shortest base, 441, scales to int(sampleRate / 100)). */
  function NewReverb(sampleRate: int): (v: Reverb)
    requires sampleRate >= 100
    ensures ReverbOk(v)
    ensures forall i :: 0 <= i < NumCombs ==> |v.combs[i]| == ScaledSize(CombBases[i], sampleRate)
    ensures forall i :: 0 <= i < NumAllpass ==> |v.allpasses[i]| == ScaledSize(AllpassBases[i], sampleRate)
    ensures forall i, j :: 0 <= i < NumCombs && 0 <= j < |v.combs[i]| ==> v.combs[i][j] == 0.0
    ensures forall i, j :: 0 <= i < NumAllpass && 0 <= j < |v.allpasses[i]| ==> v.allpasses[i][j] == 0.0
  {
    ScaledSizesPositive(sampleRate);
    Reverb(ZeroBank(CombBases, sampleRate),
           seq(NumCombs, _ => 0), seq(NumCombs, _ => CombFeedback),
           ZeroBank(AllpassBases, sampleRate),
           seq(NumAllpass, _ => 0), seq(NumAllpass, _ => AllpassFeedback),
           sampleRate, DefaultRoomSize, DefaultDamping, DefaultMix, 0.0)
  }

  /** One silent buffer per base length, scaled to the sample rate. */
  function ZeroBank(bases: seq<int>, sampleRate: int): (b: seq<seq<real>>)
    requires forall j :: 0 <= j < |bases| ==> ScaledSize(bases[j], sampleRate) >= 0
    ensures |b| == |bases| && forall j :: 0 <= j < |bases| ==> b[j] == Zeros(ScaledSize(bases[j], sampleRate))
  {
    seq(|bases|, j requires 0 <= j < |bases| => Zeros(ScaledSize(bases[j], sampleRate)))
  }

  /** The state the constructor builds, given its silent buffers. */
  lemma NewReverbIs(sampleRate: int, combs: seq<seq<real>>, allpasses: seq<seq<real>>)
    requires sampleRate >= 100
    requires |combs| == NumCombs && |allpasses| == NumAllpass
    requires forall j :: 0 <= j < NumCombs ==> combs[j] == Zeros(ScaledSize(CombBases[j], sampleRate))
    requires forall j :: 0 <= j < NumAllpass ==> allpasses[j] == Zeros(ScaledSize(AllpassBases[j], sampleRate))
    ensures NewReverb(sampleRate) == Reverb(combs, seq(NumCombs, _ => 0), seq(NumCombs, _ => CombFeedback),
      allpasses, seq(NumAllpass, _ => 0), seq(NumAllpass, _ => AllpassFeedback),
      sampleRate, DefaultRoomSize, DefaultDamping, DefaultMix, 0.0)
  {
    ScaledSizesPositive(sampleRate);
    assert combs == ZeroBank(CombBases, sampleRate);
    assert allpasses == ZeroBank(AllpassBases, sampleRate);
  }

  lemma ScaledSizesPositive(sampleRate: int)
    requires sampleRate >= 100
    ensures forall i :: 0 <= i < NumCombs ==> ScaledSize(CombBases[i], sampleRate) >= 1
    ensures forall i :: 0 <= i < NumAllpass ==> ScaledSize(AllpassBases[i], sampleRate) >= 1
  {
    var s := sampleRate as real / 44100.0;
    assert 441.0 * s >= 1.0;
    ScaleMonotone(441.0, 556.0, s);
    ScaleMonotone(441.0, 1116.0, s);
    ScaleMonotone(441.0, 1188.0, s);
    ScaleMonotone(441.0, 1277.0, s);
    ScaleMonotone(441.0, 1356.0, s);
  }

  /** The first n elements of a sequence, added left to right. */
  function Sum(s: seq<real>, n: nat): real
    requires n <= |s|
  {
    if n == 0 then 0.0 else Sum(s, n - 1) + s[n - 1]
  }

  /** The cell under each index of a bank. */
  function Current(cells: seq<seq<real>>, idx: seq<int>, n: nat): (c: seq<real>)
    requires BankOk(cells, idx, n)
    ensures |c| == n && forall i :: 0 <= i < n ==> c[i] == cells[i][idx[i]]
  {
    seq(n, i requires 0 <= i < n => cells[i][idx[i]])
  }

  /** The value entering allpass stage k, for the comb sum x: stage i outputs -in + cell. */
  function AllpassInput(aps: seq<seq<real>>, idx: seq<int>, x: real, k: nat): real
    requires BankOk(aps, idx, NumAllpass) && k <= NumAllpass
    decreases k
  {
    if k == 0 then x
    else -AllpassInput(aps, idx, x, k - 1) + aps[k - 1][idx[k - 1]]
  }

  /** Every buffer of a bank with the cell under its index replaced by the matching value. */
  function WriteBank(cells: seq<seq<real>>, idx: seq<int>, values: seq<real>, n: nat): (r: seq<seq<real>>)
    requires BankOk(cells, idx, n) && |values| == n
    ensures |r| == n && forall i :: 0 <= i < n ==> r[i] == cells[i][idx[i] := values[i]]
  {
    seq(n, i requires 0 <= i < n => cells[i][idx[i] := values[i]])
  }

  /** Every index of a bank moved on by one, wrapping at its own buffer's end. */
  function AdvanceBank(cells: seq<seq<real>>, idx: seq<int>, n: nat): (r: seq<int>)
    requires BankOk(cells, idx, n)
    ensures |r| == n && forall i :: 0 <= i < n ==> r[i] == Advance(idx[i], |cells[i]|)
    ensures BankOk(cells, r, n)
  {
    seq(n, i requires 0 <= i < n => Advance(idx[i], |cells[i]|))
  }

  /** What each comb stores: the input plus its cell scaled by feedback and room size. */
  function CombWrites(v: Reverb, input: real): (w: seq<real>)
    requires ReverbOk(v)
    ensures |w| == NumCombs && forall i :: 0 <= i < NumCombs ==>
      w[i] == CombFeed(input, v.combs[i][v.combIndices[i]], v.combFeedback[i], v.roomSize)
  {
    seq(NumCombs, i requires 0 <= i < NumCombs =>
      CombFeed(input, v.combs[i][v.combIndices[i]], v.combFeedback[i], v.roomSize))
  }

  /** What each allpass stores: its input plus its cell scaled by the feedback. */
  function AllpassWrites(v: Reverb, x: real): (w: seq<real>)
    requires ReverbOk(v)
    ensures |w| == NumAllpass && forall k :: 0 <= k < NumAllpass ==>
      w[k] == Feed(AllpassInput(v.allpasses, v.allpassIndices, x, k), v.allpasses[k][v.allpassIndices[k]], v.allpassFeedback[k])
  {
    seq(NumAllpass, k requires 0 <= k < NumAllpass =>
      Feed(AllpassInput(v.allpasses, v.allpassIndices, x, k), v.allpasses[k][v.allpassIndices[k]], v.allpassFeedback[k]))
  }

  /** The parallel combs: each contributes the cell under its index from before the write, and
      that cell, and no other, becomes input + cell * feedback * roomSize; each index moves on by
      one modulo its buffer's length. The result is the sum scaled by 0.25. */
  function CombStage(v: Reverb, input: real): (r: (Reverb, real))
    requires ReverbOk(v)
    ensures ReverbOk(r.0)
    ensures forall i :: 0 <= i < NumCombs ==>
      && |r.0.combs[i]| == |v.combs[i]|
      && r.0.combs[i][v.combIndices[i]] == CombFeed(input, v.combs[i][v.combIndices[i]], v.combFeedback[i], v.roomSize)
      && r.0.combIndices[i] == Advance(v.combIndices[i], |v.combs[i]|)
    ensures forall i, j :: 0 <= i < NumCombs && 0 <= j < |v.combs[i]| && j != v.combIndices[i] ==>
      r.0.combs[i][j] == v.combs[i][j]
    ensures r.1 == Sum(Current(v.combs, v.combIndices, NumCombs), NumCombs) * CombScale
    ensures r.0.(combs := v.combs, combIndices := v.combIndices) == v
  {
    var combs := WriteBank(v.combs, v.combIndices, CombWrites(v, input), NumCombs);
    assert BankOk(combs, v.combIndices, NumCombs);
    (v.(combs := combs, combIndices := AdvanceBank(v.combs, v.combIndices, NumCombs)),
     Sum(Current(v.combs, v.combIndices, NumCombs), NumCombs) * CombScale)
  }

  /** The serial allpasses: stage k outputs -in + cell and stores in + cell * feedback in that
      cell and no other; each index moves on by one modulo its buffer's length. */
  function AllpassStage(v: Reverb, x: real): (r: (Reverb, real))
    requires ReverbOk(v)
    ensures ReverbOk(r.0)
    ensures forall k :: 0 <= k < NumAllpass ==>
      && |r.0.allpasses[k]| == |v.allpasses[k]|
      && r.0.allpasses[k][v.allpassIndices[k]] ==
           Feed(AllpassInput(v.allpasses, v.allpassIndices, x, k), v.allpasses[k][v.allpassIndices[k]], v.allpassFeedback[k])
      && r.0.allpassIndices[k] == Advance(v.allpassIndices[k], |v.allpasses[k]|)
    ensures forall k, j :: 0 <= k < NumAllpass && 0 <= j < |v.allpasses[k]| && j != v.allpassIndices[k] ==>
      r.0.allpasses[k][j] == v.allpasses[k][j]
    ensures r.1 == AllpassInput(v.allpasses, v.allpassIndices, x, NumAllpass)
    ensures r.0.(allpasses := v.allpasses, allpassIndices := v.allpassIndices) == v
  {
    var allpasses := WriteBank(v.allpasses, v.allpassIndices, AllpassWrites(v, x), NumAllpass);
    assert BankOk(allpasses, v.allpassIndices, NumAllpass);
    (v.(allpasses := allpasses, allpassIndices := AdvanceBank(v.allpasses, v.allpassIndices, NumAllpass)),
     AllpassInput(v.allpasses, v.allpassIndices, x, NumAllpass))
  }

  /** One call to process: the combs, then the allpasses on the scaled comb sum, then the
      one-pole damping filter on the previous output, mixed with the dry input. */
  function ReverbStep(v: Reverb, input: real): (r: (Reverb, real))
    requires ReverbOk(v)
    ensures ReverbOk(r.0)
    ensures var c := CombStage(v, input);
      var a := AllpassStage(c.0, c.1);
      var damped := Blend(a.1, v.lastOutput, v.damping);
      && r.0 == a.0.(lastOutput := damped)
      && r.1 == Blend(input, damped, v.mix)
  {
    var c := CombStage(v, input);
    var a := AllpassStage(c.0, c.1);
    var damped := Blend(a.1, v.lastOutput, v.damping);
    (a.0.(lastOutput := damped), Blend(input, damped, v.mix))
  }

  lemma CombWriteAt(v: Reverb, input: real, i: int, cell: real, feedback: real, roomSize: real)
    requires ReverbOk(v) && 0 <= i < NumCombs
    requires cell == v.combs[i][v.combIndices[i]] && feedback == v.combFeedback[i] && roomSize == v.roomSize
    ensures CombWrites(v, input)[i] == CombFeed(input, cell, feedback, roomSize)
  {
  }

  lemma AllpassWriteAt(v: Reverb, x: real, k: int, stageInput: real, cell: real, feedback: real)
    requires ReverbOk(v) && 0 <= k < NumAllpass
    requires stageInput == AllpassInput(v.allpasses, v.allpassIndices, x, k)
    requires cell == v.allpasses[k][v.allpassIndices[k]] && feedback == v.allpassFeedback[k]
    ensures AllpassWrites(v, x)[k] == Feed(stageInput, cell, feedback)
  {
  }

  /** A step given its two stages and the damped output. */
  lemma ReverbStepOf(v: Reverb, input: real, c: Reverb, x: real, a: Reverb, wet: real,
                     damping: real, lastOutput: real, mix: real)
    requires ReverbOk(v) && CombStage(v, input) == (c, x) && AllpassStage(c, x) == (a, wet)
    requires damping == v.damping && lastOutput == v.lastOutput && mix == v.mix
    ensures var damped := Blend(wet, lastOutput, damping);
      ReverbStep(v, input) == (a.(lastOutput := damped), Blend(input, damped, mix))
  {
    var r := ReverbStep(v, input);
  }

  function WithRoomSize(v: Reverb, roomSize: real): (r: Reverb)
    requires ReverbOk(v)
    ensures ReverbOk(r) && r == v.(roomSize := r.roomSize)
    ensures 0.0 <= roomSize <= 1.0 ==> r.roomSize == roomSize
  {
    v.(roomSize := Clamp(roomSize, 0.0, 1.0))
  }

  function WithDamping(v: Reverb, damping: real): (r: Reverb)
    requires ReverbOk(v)
    ensures ReverbOk(r) && r == v.(damping := r.damping)
    ensures 0.0 <= damping <= 1.0 ==> r.damping == damping
  {
    v.(damping := Clamp(damping, 0.0, 1.0))
  }

  function WithReverbMix(v: Reverb, mix: real): (r: Reverb)
    requires ReverbOk(v)
    ensures ReverbOk(r) && r == v.(mix := r.mix)
    ensures 0.0 <= mix <= 1.0 ==> r.mix == mix
  {
    v.(mix := Clamp(mix, 0.0, 1.0))
  }

  // ---------------------------------------------------------------- chain

  datatype Chain = Chain(delay: DelayLine, reverb: Reverb)

  predicate ChainOk(c: Chain) {
    DelayOk(c.delay) && ReverbOk(c.reverb)
  }

  /** Effects::process: the delay first, its output into the reverb. */
  function ChainStep(c: Chain, input: real): (r: (Chain, real))
    requires ChainOk(c)
    ensures ChainOk(r.0)
    ensures var (d, y) := DelayStep(c.delay, input);
      var (v, z) := ReverbStep(c.reverb, y);
      r == (Chain(d, v), z)
  {
    var (d, y) := DelayStep(c.delay, input);
    var (v, z) := ReverbStep(c.reverb, y);
    (Chain(d, v), z)
  }

  /** The contents of a list of arrays. */
  function Contents(bufs: seq<array<real>>): (s: seq<seq<real>>)
    reads set i | 0 <= i < |bufs| :: bufs[i]
    ensures |s| == |bufs| && forall i :: 0 <= i < |bufs| ==> s[i] == bufs[i][..]
    decreases |bufs|
  {
    if bufs == [] then [] else Contents(bufs[..|bufs| - 1]) + [bufs[|bufs| - 1][..]]
  }

  /** One zeroed buffer per base length, scaled to the sample rate: the allocation loops of
      the ReverbEffect constructor. */
  method ScaledBuffers(bases: seq<int>, sampleRate: int) returns (bufs: seq<array<real>>)
    requires sampleRate > 0
    requires forall j :: 0 <= j < |bases| ==> ScaledSize(bases[j], sampleRate) >= 1
    ensures |bufs| == |bases|
    ensures forall j :: 0 <= j < |bases| ==> fresh(bufs[j])
    ensures forall j :: 0 <= j < |bases| ==> bufs[j][..] == Zeros(ScaledSize(bases[j], sampleRate))
    ensures forall j, k :: 0 <= j < k < |bases| ==> bufs[j] != bufs[k]
  {
    bufs := [];
    var i := 0;
    while i < |bases|
      invariant 0 <= i <= |bases| && |bufs| == i
      invariant forall j :: 0 <= j < i ==> fresh(bufs[j])
      invariant forall j :: 0 <= j < i ==> bufs[j][..] == Zeros(ScaledSize(bases[j], sampleRate))
      invariant forall j, k :: 0 <= j < k < i ==> bufs[j] != bufs[k]
    {
      var delaySize := Trunc(bases[i] as real * (sampleRate as real / 44100.0));
      var buffer := new real[delaySize](_ => 0.0);
      bufs := bufs + [buffer];
      i := i + 1;
    }
  }

  /** One comb of the loop in ReverbEffect::process: read the cell under the index, store the
      input fed back through it, and move the index on. */
  method CombTap(buffer: array<real>, idx: int, input: real, feedback: real, roomSize: real)
    returns (cell: real, next: int)
    requires 0 <= idx < buffer.Length
    modifies buffer
    ensures cell == old(buffer[idx])
    ensures buffer[..] == old(buffer[..])[idx := CombFeed(input, cell, feedback, roomSize)]
    ensures next == Advance(idx, buffer.Length)
  {
    cell := buffer[idx];
    buffer[idx] := input + cell * feedback * roomSize;
    AdvanceIsModulo(idx, buffer.Length);
    next := (idx + 1) % buffer.Length;
  }

  /** One allpass of the loop in ReverbEffect::process: read the cell under the index, store the
      stage input fed back through it, and move the index on. */
  method AllpassTap(buffer: array<real>, idx: int, stageInput: real, feedback: real)
    returns (cell: real, next: int)
    requires 0 <= idx < buffer.Length
    modifies buffer
    ensures cell == old(buffer[idx])
    ensures buffer[..] == old(buffer[..])[idx := Feed(stageInput, cell, feedback)]
    ensures next == Advance(idx, buffer.Length)
  {
    cell := buffer[idx];
    buffer[idx] := stageInput + cell * feedback;
    AdvanceIsModulo(idx, buffer.Length);
    next := (idx + 1) % buffer.Length;
  }

  /** The in-place delay: the fields of DelayEffect (src/Effects.h). */
  class DelayEffect {
    const sampleRate: int
    const maxDelayTime: real
    const bufferSize: int
    const delayBuffer: array<real>
    var writeIndex: int
    var readIndex: int
    var delayTime: real
    var feedback: real
    var mix: real

    function Value(): DelayLine
      reads this, delayBuffer
    {
      DelayLine(delayBuffer[..], writeIndex, readIndex, sampleRate, maxDelayTime, delayTime, feedback, mix)
    }

    ghost predicate Valid()
      reads this, delayBuffer
    {
      DelayOk(Value()) && bufferSize == delayBuffer.Length
    }

    constructor (sampleRate: int, maxDelayTime: real)
      requires sampleRate > 0 && BufferSize(maxDelayTime, sampleRate) > 0
      ensures Valid() && fresh(delayBuffer) && Value() == NewDelay(sampleRate, maxDelayTime)
    {
      this.sampleRate := sampleRate;
      this.maxDelayTime := maxDelayTime;
      delayTime := Min(DefaultDelayTime, maxDelayTime);
      feedback := DefaultFeedback;
      mix := DefaultMix;
      writeIndex := 0;
      readIndex := 0;
      var size := Trunc(maxDelayTime * sampleRate as real);
      bufferSize := size;
      delayBuffer := new real[size](_ => 0.0);
      new;
      assert delayBuffer[..] == seq(BufferSize(maxDelayTime, sampleRate), _ => 0.0);
      assert Value() == NewDelay(sampleRate, maxDelayTime);
    }

    method Process(input: real) returns (out: real)
      requires Valid()
      modifies this, delayBuffer
      ensures Valid() && (Value(), out) == DelayStep(old(Value()), input)
    {
      ghost var was := Value();
      var delaySamples := Trunc(delayTime * sampleRate as real);
      assert delaySamples == DelaySamples(was) && DelayOk(was);
      var r := writeIndex - delaySamples;
      if r < 0 {
        r := r + bufferSize;
      }
      var delayedSample := delayBuffer[r];
      var written := Feed(input, delayedSample, feedback);
      delayBuffer[writeIndex] := written;
      readIndex := r;
      AdvanceIsModulo(was.writeIndex, bufferSize);
      writeIndex := (writeIndex + 1) % bufferSize;
      out := Blend(input, delayedSample, mix);
      assert r == ReadIndexFor(was.writeIndex, DelaySamples(was), |was.cells|);
      DelayStepCells(was, input, written);
      assert Value() == DelayStep(was, input).0;
      assert out == DelayStep(was, input).1;
    }

    method SetDelayTime(delayTime: real)
      requires Valid()
      modifies this
      ensures Valid() && Value() == WithDelayTime(old(Value()), delayTime)
    {
      ghost var target := WithDelayTime(Value(), delayTime);
      this.delayTime := Min(maxDelayTime, Max(MinDelayTime, Min(MaxDelaySetting, delayTime)));
      assert Value() == target;
    }

    method SetFeedback(feedback: real)
      requires Valid()
      modifies this
      ensures Valid() && Value() == WithFeedback(old(Value()), feedback)
    {
      ghost var target := WithFeedback(Value(), feedback);
      this.feedback := Max(0.0, Min(MaxFeedback, feedback));
      assert Value() == target;
    }

    method SetMix(mix: real)
      requires Valid()
      modifies this
      ensures Valid() && Value() == WithDelayMix(old(Value()), mix)
    {
      ghost var target := WithDelayMix(Value(), mix);
      this.mix := Max(0.0, Min(1.0, mix));
      assert Value() == target;
    }
  }

  /** The in-place reverb: the fields of ReverbEffect, the damping memory (a function-static
      variable in the source, shared by every instance) kept as a field. */
  class ReverbEffect {
    const sampleRate: int
    const combBuffers: seq<array<real>>
    const allpassBuffers: seq<array<real>>
    const combFeedback: seq<real>
    const allpassFeedback: seq<real>
    var combIndices: seq<int>
    var allpassIndices: seq<int>
    var roomSize: real
    var damping: real
    var mix: real
    var lastOutput: real
    /** The buffers: the comb buffers and the allpass buffers. */
    ghost const CombRepr: set<object>
    ghost const AllpassRepr: set<object>
    ghost const Repr: set<object>

    /** Four comb buffers and two allpass buffers, all distinct, making up Repr. */
    ghost predicate Layout() {
      && |combBuffers| == NumCombs && |allpassBuffers| == NumAllpass
      && CombRepr == (set i | 0 <= i < NumCombs :: combBuffers[i])
      && AllpassRepr == (set k | 0 <= k < NumAllpass :: allpassBuffers[k])
      && Repr == CombRepr + AllpassRepr && CombRepr !! AllpassRepr
      && (forall i, j :: 0 <= i < j < NumCombs ==> combBuffers[i] != combBuffers[j])
      && (forall i, j :: 0 <= i < j < NumAllpass ==> allpassBuffers[i] != allpassBuffers[j])
    }

    /** The indices inside their buffers, one feedback gain per filter, the parameters in range:
        ReverbOk stated on the fields, so that it holds without reading the buffers' cells. */
    ghost predicate Shape()
      reads this
    {
      && |combIndices| == NumCombs && |allpassIndices| == NumAllpass
      && |combFeedback| == NumCombs && |allpassFeedback| == NumAllpass
      && (forall i :: 0 <= i < |combIndices| && i < |combBuffers| ==> 0 <= combIndices[i] < combBuffers[i].Length)
      && (forall k :: 0 <= k < |allpassIndices| && k < |allpassBuffers| ==> 0 <= allpassIndices[k] < allpassBuffers[k].Length)
      && sampleRate > 0
      && 0.0 <= roomSize <= 1.0 && 0.0 <= damping <= 1.0 && 0.0 <= mix <= 1.0
    }

    ghost predicate Valid()
      reads this, Repr
    {
      Layout() && Shape()
    }

    function Value(): (v: Reverb)
      reads this, Repr
      requires |combBuffers| == NumCombs && |allpassBuffers| == NumAllpass
      requires Repr == (set i | 0 <= i < NumCombs :: combBuffers[i]) + (set k | 0 <= k < NumAllpass :: allpassBuffers[k])
      ensures Shape() <==> ReverbOk(v)
    {
      Reverb(Contents(combBuffers), combIndices, combFeedback,
             Contents(allpassBuffers), allpassIndices, allpassFeedback,
             sampleRate, roomSize, damping, mix, lastOutput)
    }

    constructor (sampleRate: int)
      requires sampleRate >= 100
      ensures Valid() && fresh(Repr) && Value() == NewReverb(sampleRate)
    {
      ScaledSizesPositive(sampleRate);
      var combs := ScaledBuffers(CombBases, sampleRate);
      var allpasses := ScaledBuffers(AllpassBases, sampleRate);
      this.sampleRate := sampleRate;
      combBuffers := combs;
      allpassBuffers := allpasses;
      combIndices := seq(NumCombs, _ => 0);
      allpassIndices := seq(NumAllpass, _ => 0);
      combFeedback := seq(NumCombs, _ => CombFeedback);
      allpassFeedback := seq(NumAllpass, _ => AllpassFeedback);
      roomSize := DefaultRoomSize;
      damping := DefaultDamping;
      mix := DefaultMix;
      lastOutput := 0.0;
      CombRepr := set j | 0 <= j < NumCombs :: combs[j];
      AllpassRepr := set k | 0 <= k < NumAllpass :: allpasses[k];
      Repr := CombRepr + AllpassRepr;
      new;
      NewReverbIs(sampleRate, Contents(combBuffers), Contents(allpassBuffers));
    }

    method Process(input: real) returns (out: real)
      requires Valid()
      modifies this, Repr
      ensures Valid()
      ensures (Value(), out) == ReverbStep(old(Value()), input)
    {
      ghost var was := Value();
      var output := ProcessCombs(input);
      ghost var c, x := Value(), output;
      output := ProcessAllpasses(output);
      ghost var a, wet := Value(), output;
      ReverbStepOf(was, input, c, x, a, wet, damping, lastOutput, mix);
      out := Damp(input, output);
    }

    /** The damping filter and the dry/wet mix that end process. */
    method Damp(input: real, wet: real) returns (out: real)
      requires Valid()
      modifies this`lastOutput
      ensures Valid()
      ensures var damped := Blend(wet, old(lastOutput), damping);
        Value() == old(Value()).(lastOutput := damped) && out == Blend(input, damped, mix)
    {
      var output := Blend(wet, lastOutput, damping);
      lastOutput := output;
      out := Blend(input, output, mix);
    }

    /** The comb loop of process. */
    method ProcessCombs(input: real) returns (output: real)
      requires Valid()
      modifies this`combIndices, CombRepr
      ensures Valid() && (Value(), output) == CombStage(old(Value()), input)
    {
      ghost var was := Value();
      output := CombLoop(input, was, CombWrites(was, input));
      output := output * CombScale;
      assert Contents(combBuffers) == WriteBank(was.combs, was.combIndices, CombWrites(was, input), NumCombs);
      assert combIndices == AdvanceBank(was.combs, was.combIndices, NumCombs);
      assert Contents(allpassBuffers) == was.allpasses;
      assert Value() == was.(combs := Contents(combBuffers), combIndices := combIndices);
      assert CombStage(was, input).0 == was.(combs := Contents(combBuffers), combIndices := combIndices);
      assert output == CombStage(was, input).1;
    }

    /** The loop over the combs: comb j's buffer gets writes[j] under its index, the index moves
        on, and the cells read are summed. */
    method CombLoop(input: real, ghost was: Reverb, ghost writes: seq<real>) returns (output: real)
      requires Layout() && ReverbOk(was) && writes == CombWrites(was, input)
      requires combIndices == was.combIndices && combFeedback == was.combFeedback && roomSize == was.roomSize
      requires forall j :: 0 <= j < NumCombs ==> combBuffers[j][..] == was.combs[j]
      modifies this`combIndices, CombRepr
      ensures |combIndices| == NumCombs
      ensures forall j :: 0 <= j < NumCombs ==>
        && combBuffers[j][..] == was.combs[j][was.combIndices[j] := writes[j]]
        && combIndices[j] == Advance(was.combIndices[j], |was.combs[j]|)
      ensures output == Sum(Current(was.combs, was.combIndices, NumCombs), NumCombs)
    {
      output := 0.0;
      var i := 0;
      while i < NumCombs
        invariant 0 <= i <= NumCombs
        invariant |combIndices| == NumCombs
        invariant forall j :: 0 <= j < i ==>
          && combBuffers[j][..] == was.combs[j][was.combIndices[j] := writes[j]]
          && combIndices[j] == Advance(was.combIndices[j], |was.combs[j]|)
        invariant forall j :: i <= j < NumCombs ==>
          combBuffers[j][..] == was.combs[j] && combIndices[j] == was.combIndices[j]
        invariant output == Sum(Current(was.combs, was.combIndices, NumCombs), i)
      {
        assert combBuffers[i][..] == was.combs[i] && combIndices[i] == was.combIndices[i];
        var combOutput, next := CombTap(combBuffers[i], combIndices[i], input, combFeedback[i], roomSize);
        CombWriteAt(was, input, i, combOutput, combFeedback[i], roomSize);
        combIndices := combIndices[i := next];
        output := output + combOutput;
        i := i + 1;
      }
    }

    /** The allpass loop of process. */
    method ProcessAllpasses(x: real) returns (output: real)
      requires Valid()
      modifies this`allpassIndices, AllpassRepr
      ensures Valid() && (Value(), output) == AllpassStage(old(Value()), x)
    {
      ghost var was := Value();
      output := AllpassLoop(x, was, AllpassWrites(was, x));
      assert Contents(allpassBuffers) == WriteBank(was.allpasses, was.allpassIndices, AllpassWrites(was, x), NumAllpass);
      assert allpassIndices == AdvanceBank(was.allpasses, was.allpassIndices, NumAllpass);
      assert Contents(combBuffers) == was.combs;
      assert Value() == was.(allpasses := Contents(allpassBuffers), allpassIndices := allpassIndices);
      assert AllpassStage(was, x).0 == was.(allpasses := Contents(allpassBuffers), allpassIndices := allpassIndices);
      assert output == AllpassStage(was, x).1;
    }

    /** The loop over the allpasses: each takes the previous stage's output, stores writes[j]
        under its index, moves the index on, and passes -in + cell to the next. */
    method AllpassLoop(x: real, ghost was: Reverb, ghost writes: seq<real>) returns (output: real)
      requires Layout() && ReverbOk(was) && writes == AllpassWrites(was, x)
      requires allpassIndices == was.allpassIndices && allpassFeedback == was.allpassFeedback
      requires forall j :: 0 <= j < NumAllpass ==> allpassBuffers[j][..] == was.allpasses[j]
      modifies this`allpassIndices, AllpassRepr
      ensures |allpassIndices| == NumAllpass
      ensures forall j :: 0 <= j < NumAllpass ==>
        && allpassBuffers[j][..] == was.allpasses[j][was.allpassIndices[j] := writes[j]]
        && allpassIndices[j] == Advance(was.allpassIndices[j], |was.allpasses[j]|)
      ensures output == AllpassInput(was.allpasses, was.allpassIndices, x, NumAllpass)
    {
      output := x;
      var i := 0;
      while i < NumAllpass
        invariant 0 <= i <= NumAllpass
        invariant |allpassIndices| == NumAllpass
        invariant forall j :: 0 <= j < i ==>
          && allpassBuffers[j][..] == was.allpasses[j][was.allpassIndices[j] := writes[j]]
          && allpassIndices[j] == Advance(was.allpassIndices[j], |was.allpasses[j]|)
        invariant forall j :: i <= j < NumAllpass ==>
          allpassBuffers[j][..] == was.allpasses[j] && allpassIndices[j] == was.allpassIndices[j]
        invariant output == AllpassInput(was.allpasses, was.allpassIndices, x, i)
      {
        assert allpassBuffers[i][..] == was.allpasses[i] && allpassIndices[i] == was.allpassIndices[i];
        var cell, next := AllpassTap(allpassBuffers[i], allpassIndices[i], output, allpassFeedback[i]);
        AllpassWriteAt(was, x, i, output, cell, allpassFeedback[i]);
        output := -output + cell;
        allpassIndices := allpassIndices[i := next];
        i := i + 1;
      }
    }

    method SetRoomSize(roomSize: real)
      requires Valid()
      modifies this
      ensures Valid() && Value() == WithRoomSize(old(Value()), roomSize)
    {
      ghost var target := WithRoomSize(Value(), roomSize);
      this.roomSize := Max(0.0, Min(1.0, roomSize));
      assert Value() == target;
    }

    method SetDamping(damping: real)
      requires Valid()
      modifies this
      ensures Valid() && Value() == WithDamping(old(Value()), damping)
    {
      ghost var target := WithDamping(Value(), damping);
      this.damping := Max(0.0, Min(1.0, damping));
      assert Value() == target;
    }

    method SetMix(mix: real)
      requires Valid()
      modifies this
      ensures Valid() && Value() == WithReverbMix(old(Value()), mix)
    {
      ghost var target := WithReverbMix(Value(), mix);
      this.mix := Max(0.0, Min(1.0, mix));
      assert Value() == target;
    }
  }

  /** The chain: the fields of Effects. */
  class Effects {
    const sampleRate: int
    const delay: DelayEffect
    const reverb: ReverbEffect
    ghost const Repr: set<object>

    ghost predicate Valid()
      reads this, Repr
    {
      && Repr == {this, delay, delay.delayBuffer, reverb} + reverb.Repr
      && delay !in reverb.Repr && delay.delayBuffer !in reverb.Repr
      && delay.Valid() && reverb.Valid()
    }

    function Value(): Chain
      reads this, Repr
      requires Valid()
    {
      Chain(delay.Value(), reverb.Value())
    }

    constructor (sampleRate: int)
      requires sampleRate >= 100
      ensures Valid()
      ensures delay.Value() == NewDelay(sampleRate, DefaultMaxDelayTime)
      ensures reverb.Value() == NewReverb(sampleRate)
      ensures fresh(delay) && fresh(delay.delayBuffer) && fresh(reverb) && fresh(reverb.Repr)
    {
      this.sampleRate := sampleRate;
      OneSecondBuffer(sampleRate);
      var d := new DelayEffect(sampleRate, DefaultMaxDelayTime);
      var r := new ReverbEffect(sampleRate);
      delay := d;
      reverb := r;
      Repr := {this, d, d.delayBuffer, r} + r.Repr;
    }

    method Process(input: real) returns (out: real)
      requires Valid()
      modifies Repr
      ensures Valid() && (Value(), out) == ChainStep(old(Value()), input)
    {
      ghost var was := Value();
      var output := delay.Process(input);
      ghost var d, y := delay.Value(), output;
      output := reverb.Process(output);
      out := output;
      assert (d, y) == DelayStep(was.delay, input);
      assert (reverb.Value(), out) == ReverbStep(was.reverb, y);
    }

    /** The reverb amount is the reverb's mix and nothing else. */
    method SetReverbAmount(amount: real)
      requires Valid()
      modifies reverb
      ensures Valid() && Value() == old(Value()).(reverb := WithReverbMix(old(Value()).reverb, amount))
    {
      reverb.SetMix(amount);
    }

    /** The delay amount is the delay's mix and nothing else. */
    method SetDelayAmount(amount: real)
      requires Valid()
      modifies delay
      ensures Valid() && Value() == old(Value()).(delay := WithDelayMix(old(Value()).delay, amount))
    {
      delay.SetMix(amount);
    }

    method SetDelayTime(time: real)
      requires Valid()
      modifies delay
      ensures Valid() && Value() == old(Value()).(delay := WithDelayTime(old(Value()).delay, time))
    {
      delay.SetDelayTime(time);
    }

    method SetDelayFeedback(feedback: real)
      requires Valid()
      modifies delay
      ensures Valid() && Value() == old(Value()).(delay := WithFeedback(old(Value()).delay, feedback))
    {
      delay.SetFeedback(feedback);
    }
  }
}
