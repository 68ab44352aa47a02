/** The spectrum analyser (src/FFTAnalyzer.cpp): the last fftSize samples of a block, or the
    block zero-padded to fftSize, are multiplied by a Hann window, transformed, converted to
    decibels with a floor, and normalised to the 60 dB below the frame's loudest bin.

    The transform, cosine, square root and logarithm are the host's; the functions below state
    what each stage computes and the class `FFTAnalyzer` fills its buffers in place and is
    proved to match. */
module Spectrum {
  import opened Numeric
  import opened Platform

  /** The PI constant of include/vsynth/FFTAnalyzer.h. */
  const Pi: real := 3.14159265359

  /** The magnitude floor that keeps log10 away from zero. */
  const MagnitudeFloor: real := 0.0000000001

  /** The dynamic range shown after normalisation, in dB. */
  const DynamicRange: real := 60.0

  // ---------------------------------------------------------------- window

  /** The i-th Hann coefficient: 0.5 * (1 - cos(2 * PI * i / (fftSize - 1))). */
  function HannAt(h: Host, n: int, i: int): real
    requires n >= 2
  {
    0.5 * (1.0 - h.cos(2.0 * Pi * i as real / (n - 1) as real))
  }

  function Hann(h: Host, n: int): (w: seq<real>)
    requires n >= 2
    ensures |w| == n
  {
    seq(n, i => HannAt(h, n, i))
  }

  /** With a cosine in [-1, 1] every coefficient lies in [0, 1], and the window starts at 0
      when cos(0) is 1. */
  lemma HannRange(h: Host, n: int)
    requires n >= 2 && CosineInRange(h)
    ensures forall i :: 0 <= i < n ==> 0.0 <= Hann(h, n)[i] <= 1.0
    ensures h.cos(0.0) == 1.0 ==> Hann(h, n)[0] == 0.0
  {
    forall i | 0 <= i < n
      ensures 0.0 <= Hann(h, n)[i] <= 1.0
    {
      var c := h.cos(2.0 * Pi * i as real / (n - 1) as real);
      assert -1.0 <= c <= 1.0;
    }
    assert 2.0 * Pi * 0 as real / (n - 1) as real == 0.0;
  }

  // ---------------------------------------------------------------- input

  /** The frame processBuffer hands to the transform: a block shorter than n at the front,
      zeros after it; otherwise exactly its last n samples. */
  function Framed(audio: seq<real>, n: nat): (x: seq<real>)
    ensures |x| == n
  {
    if |audio| < n then audio + seq(n - |audio|, _ => 0.0) else audio[|audio| - n..]
  }

  /** The frame elementwise: a short block is copied to the front and zero-filled after, a long
      one contributes its tail, and nothing else from the block appears. */
  lemma FramedAt(audio: seq<real>, n: nat)
    ensures var x := Framed(audio, n);
      && (|audio| < n ==> (forall i :: 0 <= i < |audio| ==> x[i] == audio[i])
                          && (forall i :: |audio| <= i < n ==> x[i] == 0.0))
      && (|audio| >= n ==> forall i :: 0 <= i < n ==> x[i] == audio[|audio| - n + i])
  {
  }

  /** applyWindow: each sample multiplied by its coefficient. */
  function Windowed(x: seq<real>, w: seq<real>): (y: seq<real>)
    requires |x| == |w|
    ensures |y| == |x|
  {
    seq(|x|, i requires 0 <= i < |x| => x[i] * w[i])
  }

  /** The input of the transform: the frame, windowed only when the window is switched on. */
  function TransformInput(audio: seq<real>, w: seq<real>, useWindow: bool): seq<real>
  {
    var x := Framed(audio, |w|);
    if useWindow then Windowed(x, w) else x
  }

  // ---------------------------------------------------------------- levels

  /** real * real + imag * imag. */
  function SquaredNorm(re: real, im: real): real {
    re * re + im * im
  }

  /** A bin's magnitude, floored so that its logarithm exists. */
  function Magnitude(h: Host, c: Complex): (m: real)
    ensures m >= MagnitudeFloor
    ensures m == MagnitudeFloor || m == h.sqrt(SquaredNorm(c.re, c.im))
  {
    Max(h.sqrt(SquaredNorm(c.re, c.im)), MagnitudeFloor)
  }

  /** A bin's level in dB. */
  function Decibels(h: Host, c: Complex): real {
    20.0 * h.log10(Magnitude(h, c))
  }

  function Levels(h: Host, bins: seq<Complex>): (db: seq<real>)
    ensures |db| == |bins|
  {
    seq(|bins|, i requires 0 <= i < |bins| => Decibels(h, bins[i]))
  }

  /** The largest element: what std::max_element points at. */
  function MaxOf(s: seq<real>): (m: real)
    requires s != []
    ensures m in s
    ensures forall i :: 0 <= i < |s| ==> s[i] <= m
  {
    if |s| == 1 then s[0] else Max(s[0], MaxOf(s[1..]))
  }

  /** One level normalised against the frame's loudest: clamp((d - min) / (max - min)) with
      min 60 dB below max. */
  function Scaled(d: real, maxMag: real): real {
    var minMag := maxMag - DynamicRange;
    Max(0.0, Min(1.0, (d - minMag) / (maxMag - minMag)))
  }

  function Normalized(db: seq<real>): (r: seq<real>)
    ensures |r| == |db|
  {
    if db == [] then [] else seq(|db|, i requires 0 <= i < |db| => Scaled(db[i], MaxOf(db)))
  }

  /** The spectrum processBuffer leaves: the normalised levels of the transformed input. */
  function SpectrumOf(h: Host, audio: seq<real>, w: seq<real>, useWindow: bool): seq<real>
  {
    Normalized(Levels(h, h.dft(TransformInput(audio, w, useWindow))))
  }

  /** Normalisation maps every bin into [0, 1], the loudest bin to exactly 1, anything 60 dB or
      more below it to 0 and the range in between linearly; a louder bin is never shown lower. */
  lemma NormalizedShape(db: seq<real>)
    requires db != []
    ensures var r := Normalized(db); var m := MaxOf(db);
      && (forall i :: 0 <= i < |db| ==> 0.0 <= r[i] <= 1.0)
      && (forall i :: 0 <= i < |db| && db[i] == m ==> r[i] == 1.0)
      && (exists i :: 0 <= i < |db| && r[i] == 1.0)
      && (forall i :: 0 <= i < |db| && db[i] <= m - DynamicRange ==> r[i] == 0.0)
      && (forall i :: 0 <= i < |db| && m - DynamicRange <= db[i] ==> r[i] == (db[i] - (m - DynamicRange)) / DynamicRange)
      && (forall i, j :: 0 <= i < |db| && 0 <= j < |db| && db[i] <= db[j] ==> r[i] <= r[j])
  {
    var r := Normalized(db);
    var m := MaxOf(db);
    var k :| 0 <= k < |db| && db[k] == m;
    assert r[k] == 1.0;
  }

  // ---------------------------------------------------------------- bins

  /** getBinFrequencies: bin i is at i times the bin width sampleRate / fftSize. */
  function BinFrequencies(sampleRate: int, fftSize: int, count: nat): (f: seq<real>)
    requires fftSize > 0
    ensures |f| == count
  {
    seq(count, i => i as real * (sampleRate as real / fftSize as real))
  }

  /** The bins start at 0 Hz, are evenly spaced by sampleRate / fftSize and rise strictly, and
      for an even fftSize the last of fftSize / 2 + 1 bins is the Nyquist frequency. */
  lemma BinFrequenciesShape(sampleRate: int, fftSize: int)
    requires fftSize > 0 && sampleRate > 0
    ensures var f := BinFrequencies(sampleRate, fftSize, fftSize / 2 + 1);
      && f[0] == 0.0
      && (forall i :: 0 <= i < |f| - 1 ==> f[i + 1] - f[i] == sampleRate as real / fftSize as real)
      && (forall i, j :: 0 <= i < j < |f| ==> f[i] < f[j])
      && (fftSize % 2 == 0 ==> f[fftSize / 2] == sampleRate as real / 2.0)
  {
    var f := BinFrequencies(sampleRate, fftSize, fftSize / 2 + 1);
    var width := sampleRate as real / fftSize as real;
    assert width > 0.0;
    EvenlySpaced(f, width);
    if fftSize % 2 == 0 {
      NyquistBin(sampleRate as real, fftSize / 2);
    }
  }

  /** Points i times a positive width apart are spaced by that width and rise strictly. */
  lemma EvenlySpaced(f: seq<real>, width: real)
    requires width > 0.0 && forall i :: 0 <= i < |f| ==> f[i] == i as real * width
    ensures forall i :: 0 <= i < |f| - 1 ==> f[i + 1] - f[i] == width
    ensures forall i, j :: 0 <= i < j < |f| ==> f[i] < f[j]
  {
    forall i | 0 <= i < |f| - 1
      ensures f[i + 1] - f[i] == width
    {
      Spacing(i, i + 1, width);
    }
    forall i, j | 0 <= i < j < |f|
      ensures f[i] < f[j]
    {
      Spacing(i, j, width);
      PositiveProduct((j - i) as real, width);
      assert f[j] - f[i] == (j - i) as real * width;
    }
  }

  /** Bins j and i lie j - i bin widths apart. */
  lemma Spacing(i: int, j: int, width: real)
    ensures j as real * width - i as real * width == (j - i) as real * width
  {
  }

  /** Bin h of 2h is at half the sample rate. */
  lemma NyquistBin(s: real, h: int)
    requires h > 0
    ensures h as real * (s / (2 * h) as real) == s / 2.0
  {
    assert (2 * h) as real == 2.0 * h as real;
  }

  lemma PositiveProduct(a: real, b: real)
    requires a > 0.0 && b > 0.0
    ensures a * b > 0.0
  {
  }

  // ---------------------------------------------------------------- the class

  class FFTAnalyzer {
    const fftSize: int
    var useWindow: bool
    /** The transform's input, m_inputBuffer. */
    const inputBuffer: array<real>
    /** The Hann coefficients, m_window, fixed at construction. */
    const window: array<real>
    /** m_magnitudeSpectrum: fftSize / 2 + 1 levels. */
    const magnitudeSpectrum: array<real>
    /** The coefficients the window holds. */
    ghost const hann: seq<real>

    ghost predicate Valid()
      reads this, window
    {
      && fftSize >= 2
      && inputBuffer.Length == fftSize && window.Length == fftSize
      && magnitudeSpectrum.Length == fftSize / 2 + 1
      && inputBuffer != window && inputBuffer != magnitudeSpectrum && window != magnitudeSpectrum
      && window[..] == hann
    }

    /** The constructor: the window filled with fftSize Hann coefficients, the spectrum sized
        to fftSize / 2 + 1 bins, windowing on. */
    constructor (h: Host, fftSize: int)
      requires fftSize >= 2
      ensures Valid() && this.fftSize == fftSize && useWindow && hann == Hann(h, fftSize)
      ensures fresh(inputBuffer) && fresh(window) && fresh(magnitudeSpectrum)
    {
      this.fftSize := fftSize;
      useWindow := true;
      inputBuffer := new real[fftSize];
      var w := new real[fftSize];
      var i := 0;
      while i < fftSize
        invariant 0 <= i <= fftSize
        invariant forall k :: 0 <= k < i ==> w[k] == HannAt(h, fftSize, k)
      {
        w[i] := 0.5 * (1.0 - h.cos(2.0 * Pi * i as real / (fftSize - 1) as real));
        i := i + 1;
      }
      window := w;
      hann := Hann(h, fftSize);
      magnitudeSpectrum := new real[fftSize / 2 + 1];
    }

    method SetWindowFunction(useWindow: bool)
      modifies this`useWindow
      ensures this.useWindow == useWindow
    {
      this.useWindow := useWindow;
    }

    /** processBuffer: the frame, the window if switched on, the transform, then the levels. */
    method ProcessBuffer(h: Host, audio: seq<real>)
      requires Valid() && TransformShape(h)
      modifies inputBuffer, magnitudeSpectrum
      ensures Valid()
      ensures inputBuffer[..] == TransformInput(audio, hann, useWindow)
      ensures magnitudeSpectrum[..] == SpectrumOf(h, audio, hann, useWindow)
    {
      LoadInput(audio);
      if useWindow {
        ApplyWindow();
      }
      ComputeFFT(h);
    }

    /** The copy at the top of processBuffer. */
    method LoadInput(audio: seq<real>)
      requires Valid()
      modifies inputBuffer
      ensures inputBuffer[..] == Framed(audio, fftSize)
    {
      FramedAt(audio, fftSize);
      if |audio| < fftSize {
        var i := 0;
        while i < fftSize
          invariant 0 <= i <= fftSize
          invariant forall k :: 0 <= k < i ==> inputBuffer[k] == 0.0
        {
          inputBuffer[i] := 0.0;
          i := i + 1;
        }
        i := 0;
        while i < |audio|
          invariant 0 <= i <= |audio|
          invariant forall k :: 0 <= k < i ==> inputBuffer[k] == audio[k]
          invariant forall k :: |audio| <= k < fftSize ==> inputBuffer[k] == 0.0
        {
          inputBuffer[i] := audio[i];
          i := i + 1;
        }
      } else {
        var start := |audio| - fftSize;
        var i := 0;
        while i < fftSize
          invariant 0 <= i <= fftSize
          invariant forall k :: 0 <= k < i ==> inputBuffer[k] == audio[start + k]
        {
          inputBuffer[i] := audio[start + i];
          i := i + 1;
        }
      }
    }

    method ApplyWindow()
      requires Valid()
      modifies inputBuffer
      ensures inputBuffer[..] == Windowed(old(inputBuffer[..]), hann)
    {
      var i := 0;
      while i < fftSize
        invariant 0 <= i <= fftSize
        invariant forall k :: 0 <= k < i ==> inputBuffer[k] == old(inputBuffer[k]) * hann[k]
        invariant forall k :: i <= k < fftSize ==> inputBuffer[k] == old(inputBuffer[k])
      {
        assert window[i] == hann[i];
        inputBuffer[i] := inputBuffer[i] * window[i];
        i := i + 1;
      }
      assert forall k :: 0 <= k < fftSize ==> inputBuffer[..][k] == Windowed(old(inputBuffer[..]), hann)[k];
    }

    /** computeFFT: the levels of the transformed input, normalised. */
    method ComputeFFT(h: Host)
      requires Valid() && TransformShape(h)
      modifies magnitudeSpectrum
      ensures magnitudeSpectrum[..] == Normalized(Levels(h, h.dft(inputBuffer[..])))
    {
      var output := h.dft(inputBuffer[..]);
      var i := 0;
      while i < fftSize / 2 + 1
        invariant 0 <= i <= fftSize / 2 + 1
        invariant forall k :: 0 <= k < i ==> magnitudeSpectrum[k] == Decibels(h, output[k])
      {
        var re := output[i].re;
        var im := output[i].im;
        var magnitude := h.sqrt(SquaredNorm(re, im));
        magnitude := Max(magnitude, MagnitudeFloor);
        magnitudeSpectrum[i] := 20.0 * h.log10(magnitude);
        i := i + 1;
      }
      assert magnitudeSpectrum[..] == Levels(h, output);
      if magnitudeSpectrum.Length > 0 {
        var maxMag := MaxElement(magnitudeSpectrum);
        Normalize(maxMag);
      }
    }

    /** The loop of std::max_element, read for its value. */
    static method MaxElement(a: array<real>) returns (m: real)
      requires a.Length > 0
      ensures m == MaxOf(a[..])
    {
      m := a[0];
      var i := 1;
      while i < a.Length
        invariant 1 <= i <= a.Length
        invariant m in a[..i]
        invariant forall k :: 0 <= k < i ==> a[k] <= m
      {
        if a[i] > m {
          m := a[i];
        }
        i := i + 1;
      }
      assert a[..i] == a[..];
    }

    /** The normalisation loop of computeFFT. */
    method Normalize(maxMag: real)
      requires magnitudeSpectrum.Length > 0 && maxMag == MaxOf(magnitudeSpectrum[..])
      modifies magnitudeSpectrum
      ensures magnitudeSpectrum[..] == Normalized(old(magnitudeSpectrum[..]))
    {
      var minMag := maxMag - DynamicRange;
      var i := 0;
      while i < magnitudeSpectrum.Length
        invariant 0 <= i <= magnitudeSpectrum.Length
        invariant forall k :: 0 <= k < i ==> magnitudeSpectrum[k] == Scaled(old(magnitudeSpectrum[k]), maxMag)
        invariant forall k :: i <= k < magnitudeSpectrum.Length ==> magnitudeSpectrum[k] == old(magnitudeSpectrum[k])
      {
        var mag := magnitudeSpectrum[i];
        magnitudeSpectrum[i] := Max(0.0, Min(1.0, (mag - minMag) / (maxMag - minMag)));
        i := i + 1;
      }
    }

    /** getBinFrequencies: one frequency per spectrum bin, at multiples of the bin width. */
    method GetBinFrequencies(sampleRate: int) returns (frequencies: seq<real>)
      requires Valid()
      ensures frequencies == BinFrequencies(sampleRate, fftSize, magnitudeSpectrum.Length)
    {
      frequencies := [];
      var binWidth := sampleRate as real / fftSize as real;
      var i := 0;
      while i < magnitudeSpectrum.Length
        invariant 0 <= i <= magnitudeSpectrum.Length
        invariant |frequencies| == i
        invariant forall k :: 0 <= k < i ==> frequencies[k] == BinFrequencies(sampleRate, fftSize, i)[k]
      {
        frequencies := frequencies + [i as real * binWidth];
        i := i + 1;
      }
      assert frequencies == BinFrequencies(sampleRate, fftSize, magnitudeSpectrum.Length);
    }
  }
}
