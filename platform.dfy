/** The services the synthesizer takes from its platform and that this model does not
    define: the C math library (std::sin, std::cos, std::pow, std::log10, std::sqrt),
    the FFTW real-to-complex transform, and the process-wide uniform random generator
    used for noise. They are passed in as values of the arrow fields below; each
    property the model relies on is stated as a precondition where it is used. */
module Platform {

  datatype Complex = Complex(re: real, im: real)

  datatype Host = Host(
    sin: real -> real,
    cos: real -> real,
    pow: (real, real) -> real,
    log10: real -> real,
    sqrt: real -> real,
    /** fftwf_execute on a plan made by fftwf_plan_dft_r2c_1d: n reals in, n/2+1 bins out */
    dft: seq<real> -> seq<Complex>,
    /** the k-th draw of std::uniform_real_distribution<float>(-1, 1) on the shared mt19937 */
    noise: nat -> real)

  /** The random generator only yields values in [-1, 1]. */
  ghost predicate NoiseInRange(h: Host) {
    forall k: nat :: -1.0 <= h.noise(k) <= 1.0
  }

  /** std::sin never leaves [-1, 1]. */
  ghost predicate SineInRange(h: Host) {
    forall x: real :: -1.0 <= h.sin(x) <= 1.0
  }

  /** std::cos never leaves [-1, 1]. */
  ghost predicate CosineInRange(h: Host) {
    forall x: real :: -1.0 <= h.cos(x) <= 1.0
  }

  /** A real-to-complex transform of n samples yields n/2+1 bins. */
  ghost predicate TransformShape(h: Host) {
    forall x: seq<real> :: |h.dft(x)| == |x| / 2 + 1
  }
}
