/** The octave composer (the engine's `noise`): fractal Brownian motion with
    persistence 0.5 and lacunarity 2, followed by the distribution remap. */
module Fractal {

  function Pow2(k: nat): (p: nat)
    ensures p >= 1
  {
    if k == 0 then 1 else 2 * Pow2(k - 1)
  }

  /** The amplitude of octave `k` when the first octave has `amplitude`: it
      is halved once per octave. */
  function AmplitudeAt(amplitude: real, k: nat): real
    decreases k
  {
    if k == 0 then amplitude else AmplitudeAt(amplitude * 0.5, k - 1)
  }

  /** The spatial scale of octave `k` when the first octave has `scale`: it
      is doubled once per octave. */
  function ScaleAt(scale: real, k: nat): real
    decreases k
  {
    if k == 0 then scale else ScaleAt(scale * 2.0, k - 1)
  }

  /** How many times `for (i = 0; i < octaves; i++)` runs. */
  function OctaveCount(octaves: int): (n: nat)
    ensures octaves >= 0 ==> n == octaves
    ensures octaves < 0 ==> n == 0
  {
    if octaves < 0 then 0 else octaves
  }

  /** The engine's octave loop: `octaves` turns, each adding `raw` at the
      scaled point weighted by the current amplitude, then halving the
      amplitude and doubling the scale. */
  method SumOctaves(raw: Raw, x: real, y: real, t: real, amplitude: real, scale: real, octaves: int)
    returns (noise: real)
    ensures noise == OctaveSum(raw, x, y, t, amplitude, scale, OctaveCount(octaves))
  {
    var amp := amplitude;
    var sc := scale;
    noise := 0.0;
    var i := 0;
    ghost var n := OctaveCount(octaves);
    ghost var total := OctaveSum(raw, x, y, t, amplitude, scale, n);
    while i < octaves
      invariant 0 <= i <= n
      invariant noise + OctaveSum(raw, x, y, t, amp, sc, n - i) == total
    {
      var v := raw(x * sc, y * sc, t);
      OctaveStep(raw, x, y, t, amp, sc, n - i - 1, noise, total, v);
      noise := noise + v * amp;
      amp := amp * 0.5;
      sc := sc * 2.0;
      i := i + 1;
    }
  }

  /** A single-octave noise function, such as Simplex3D.RawNoise over one
      engine's tables. */
  type Raw = (real, real, real) -> real

  /** `raw` stays within `bound` everywhere. */
  ghost predicate Bounded(raw: Raw, bound: real) {
    forall x, y, t :: -bound <= raw(x, y, t) <= bound
  }

  /** `n` octaves added in the loop's order, the first with `amplitude` and
      `scale`, each next one with half the amplitude and twice the scale.
      Only the two spatial coordinates are scaled; the time coordinate is
      passed unchanged. */
  function OctaveSum(raw: Raw, x: real, y: real, t: real, amplitude: real, scale: real, n: nat): real
    decreases n
  {
    if n == 0 then 0.0
    else Layer(raw, x, y, t, amplitude, scale) + OctaveSum(raw, x, y, t, amplitude * 0.5, scale * 2.0, n - 1)
  }

  /** One layer: raw noise at (x * sc, y * sc, t), weighted by `a`. */
  function Layer(raw: Raw, x: real, y: real, t: real, a: real, sc: real): real {
    raw(x * sc, y * sc, t) * a
  }

  /** `Math.pow((noise + 1) / 2, distrib)`, with the platform's `Math.pow`
      passed in as `pow`. */
  function Shape(noise: real, distrib: real, pow: (real, real) -> real): real {
    pow((noise + 1.0) / 2.0, distrib)
  }

  function AbsR(v: real): (a: real)
    ensures a >= 0.0 && (a == v || a == -v)
  {
    if v < 0.0 then -v else v
  }

  // ----- Properties -----

  /** Octave `k` has the configured amplitude divided by 2^k. */
  lemma {:induction false} AmplitudeClosedForm(amplitude: real, k: nat)
    ensures AmplitudeAt(amplitude, k) * Pow2(k) as real == amplitude
    decreases k
  {
    if k > 0 {
      AmplitudeClosedForm(amplitude * 0.5, k - 1);
      var q := AmplitudeAt(amplitude * 0.5, k - 1);
      var p := Pow2(k - 1) as real;
      assert AmplitudeAt(amplitude, k) == q;
      assert Pow2(k) as real == 2.0 * p;
      assert q * (2.0 * p) == 2.0 * (q * p);
    }
  }

  /** Octave `k` has the configured scale times 2^k. */
  lemma {:induction false} ScaleClosedForm(scale: real, k: nat)
    ensures ScaleAt(scale, k) == scale * Pow2(k) as real
    decreases k
  {
    if k > 0 {
      ScaleClosedForm(scale * 2.0, k - 1);
      var p := Pow2(k - 1) as real;
      assert ScaleAt(scale, k) == (scale * 2.0) * p;
      assert Pow2(k) as real == 2.0 * p;
      assert (scale * 2.0) * p == scale * (2.0 * p);
    }
  }

  /** Adding octave `n` to the first `n` gives the first `n + 1`: the sum
      accumulates octave `k` with amplitude `AmplitudeAt(amplitude, k)` and
      scale `ScaleAt(scale, k)`, in increasing `k`. */
  lemma {:induction false} OctaveSplit(raw: Raw, x: real, y: real, t: real, amplitude: real, scale: real, n: nat)
    ensures OctaveSum(raw, x, y, t, amplitude, scale, n + 1)
            == OctaveSum(raw, x, y, t, amplitude, scale, n)
               + Layer(raw, x, y, t, AmplitudeAt(amplitude, n), ScaleAt(scale, n))
    decreases n
  {
    if n > 0 {
      OctaveSplit(raw, x, y, t, amplitude * 0.5, scale * 2.0, n - 1);
      assert AmplitudeAt(amplitude, n) == AmplitudeAt(amplitude * 0.5, n - 1);
      assert ScaleAt(scale, n) == ScaleAt(scale * 2.0, n - 1);
    }
  }

  /** One turn of the engine's loop: adding the raw value `v` at the current
      scale, weighted by the current amplitude, and moving on to the next
      amplitude and scale leaves the running total plus the octaves still to
      come unchanged. */
  lemma OctaveStep(raw: Raw, x: real, y: real, t: real, amp: real, sc: real, m: nat,
                   noise: real, total: real, v: real)
    requires noise + OctaveSum(raw, x, y, t, amp, sc, m + 1) == total
    requires v == raw(x * sc, y * sc, t)
    ensures (noise + v * amp) + OctaveSum(raw, x, y, t, amp * 0.5, sc * 2.0, m) == total
  {
    LayerValue(raw, x, y, t, amp, sc, v);
  }

  /** The layer at amplitude `a` and scale `sc` is the raw value `v` at the
      scaled point times `a`. */
  lemma LayerValue(raw: Raw, x: real, y: real, t: real, a: real, sc: real, v: real)
    requires v == raw(x * sc, y * sc, t)
    ensures Layer(raw, x, y, t, a, sc) == v * a
  {
  }

  lemma LayerBound(raw: Raw, bound: real, x: real, y: real, t: real, a: real, sc: real)
    requires Bounded(raw, bound)
    ensures AbsR(Layer(raw, x, y, t, a, sc)) <= bound * AbsR(a)
  {
    ProductBound(raw(x * sc, y * sc, t), a, bound);
  }

  lemma ProductBound(r: real, a: real, b: real)
    requires -b <= r <= b
    ensures AbsR(r * a) <= b * AbsR(a)
  {
    if a >= 0.0 {
      NonNegativeProduct(b - r, a);
      NonNegativeProduct(b + r, a);
    } else {
      NonNegativeProduct(b - r, -a);
      NonNegativeProduct(b + r, -a);
    }
  }

  lemma NonNegativeProduct(p: real, q: real)
    requires p >= 0.0 && q >= 0.0
    ensures p * q >= 0.0
  {
  }

  /** However many octaves are summed, the total stays within twice `bound`
      times the first amplitude, less twice `bound` times `w`, the size of
      the amplitude of the first octave not added: a geometric series with
      ratio 1/2. */
  lemma {:induction false} OctaveSumBound(raw: Raw, bound: real, x: real, y: real, t: real,
                                          amplitude: real, scale: real, n: nat, w: real)
    requires Bounded(raw, bound)
    requires w == AbsR(AmplitudeAt(amplitude, n))
    ensures AbsR(OctaveSum(raw, x, y, t, amplitude, scale, n)) <= 2.0 * bound * (AbsR(amplitude) - w)
    decreases n
  {
    if n > 0 {
      var half := amplitude * 0.5;
      var rest := OctaveSum(raw, x, y, t, half, scale * 2.0, n - 1);
      assert AmplitudeAt(amplitude, n) == AmplitudeAt(half, n - 1);
      OctaveSumBound(raw, bound, x, y, t, half, scale * 2.0, n - 1, w);
      LayerBound(raw, bound, x, y, t, amplitude, scale);
      BoundStep(raw, bound, x, y, t, amplitude, half, scale, n, w, rest);
    }
  }

  /** The inductive step of OctaveSumBound: a first layer within `bound`
      times the amplitude and a rest, which starts at half the amplitude,
      within the bound for half the amplitude. */
  lemma BoundStep(raw: Raw, bound: real, x: real, y: real, t: real,
                  amplitude: real, half: real, scale: real, n: nat, w: real, rest: real)
    requires n > 0 && half == amplitude * 0.5
    requires AbsR(Layer(raw, x, y, t, amplitude, scale)) <= bound * AbsR(amplitude)
    requires rest == OctaveSum(raw, x, y, t, half, scale * 2.0, n - 1)
    requires AbsR(rest) <= 2.0 * bound * (AbsR(half) - w)
    ensures AbsR(OctaveSum(raw, x, y, t, amplitude, scale, n)) <= 2.0 * bound * (AbsR(amplitude) - w)
  {
    var first := Layer(raw, x, y, t, amplitude, scale);
    assert AbsR(half) * 2.0 == AbsR(amplitude) by {
      HalfMagnitude(amplitude);
    }
    assert OctaveSum(raw, x, y, t, amplitude, scale, n) == first + rest;
    GeometricStep(first, rest, bound, AbsR(amplitude), AbsR(half), w);
  }

  lemma HalfMagnitude(a: real)
    ensures AbsR(a * 0.5) * 2.0 == AbsR(a)
  {
  }

  /** One step of the series: a first term within `bound * a` and a rest
      within `2 * bound * (a / 2 - w)` add up to within `2 * bound * (a - w)`. */
  lemma GeometricStep(first: real, rest: real, bound: real, a: real, half: real, w: real)
    requires AbsR(first) <= bound * a && AbsR(rest) <= 2.0 * bound * (half - w)
    requires half * 2.0 == a
    ensures AbsR(first + rest) <= 2.0 * bound * (a - w)
  {
    assert 2.0 * bound * (a - w) == bound * a + 2.0 * bound * (half - w);
  }

  /** In particular the total never exceeds twice `bound` times the
      configured amplitude. */
  lemma OctaveSumWithin(raw: Raw, bound: real, x: real, y: real, t: real,
                        amplitude: real, scale: real, n: nat)
    requires Bounded(raw, bound)
    ensures AbsR(OctaveSum(raw, x, y, t, amplitude, scale, n)) <= 2.0 * bound * AbsR(amplitude)
  {
    var w := AbsR(AmplitudeAt(amplitude, n));
    OctaveSumBound(raw, bound, x, y, t, amplitude, scale, n, w);
    assert -bound <= raw(x, y, t) <= bound;
    NonNegativeProduct(2.0 * bound, w);
  }

  /** With one octave, amplitude 1 and scale 1 the sum is the raw noise
      itself. */
  lemma SingleOctave(raw: Raw, x: real, y: real, t: real)
    ensures OctaveSum(raw, x, y, t, 1.0, 1.0, 1) == raw(x, y, t)
  {
    assert x * 1.0 == x && y * 1.0 == y;
  }

  /** With distribution exponent 1 the remap is the linear map from [-1, 1]
      into [0, 1], for any `pow` that is the identity at exponent 1. */
  lemma LinearDistribution(noise: real, pow: (real, real) -> real)
    requires forall b :: pow(b, 1.0) == b
    ensures Shape(noise, 1.0, pow) == (noise + 1.0) / 2.0
    ensures -1.0 <= noise <= 1.0 ==> 0.0 <= Shape(noise, 1.0, pow) <= 1.0
  {
  }

  /** The linear remap reaches all of [0, 1]: each `v` there is the image of
      the noise value `2v - 1`, which lies in [-1, 1]. */
  lemma LinearDistributionOnto(v: real, pow: (real, real) -> real)
    requires forall b :: pow(b, 1.0) == b
    requires 0.0 <= v <= 1.0
    ensures -1.0 <= 2.0 * v - 1.0 <= 1.0
    ensures Shape(2.0 * v - 1.0, 1.0, pow) == v
  {
    LinearDistribution(2.0 * v - 1.0, pow);
  }

  /** With the default settings (one octave, amplitude, scale and exponent
      1) the engine's output is the raw noise mapped linearly from [-1, 1]
      into [0, 1]. */
  lemma DefaultNoise(raw: Raw, x: real, y: real, t: real, pow: (real, real) -> real)
    requires forall b :: pow(b, 1.0) == b
    ensures Shape(OctaveSum(raw, x, y, t, 1.0, 1.0, 1), 1.0, pow) == (raw(x, y, t) + 1.0) / 2.0
  {
    SingleOctave(raw, x, y, t);
    LinearDistribution(OctaveSum(raw, x, y, t, 1.0, 1.0, 1), pow);
  }
}
