/** The noise engine object: its configuration, its three lookup tables, and
    the two entry points `rawNoise` (one octave) and `noise` (the octave sum
    remapped by the distribution exponent). */
module Engine {
  import opened Tables
  import opened Permutation
  import opened Config
  import Simplex3D
  import Fractal

  /** The values the table builder draws from. `system` stands for the
      platform's own generator, which is not part of this model. */
  function TableSource(random: RandomSource, system: seq<real>): (s: seq<real>)
    ensures random.Supplied? ==> s == random.values
    ensures random.SystemRandom? ==> s == system
  {
    match random
    case Supplied(values) => values
    case SystemRandom => system
  }

  /** One octave of noise over a pair of lookup tables, as a total function
      (tables that break the invariant give 0, a case no engine reaches). */
  function TableNoise(perm: seq<byte>, permMod12: seq<byte>): Fractal.Raw {
    (x: real, y: real, t: real) =>
      if WellFormed(perm, permMod12) then Simplex3D.RawNoise(perm, permMod12, x, y, t) else 0.0
  }

  /** The octave function of any well-formed tables is bounded by RAW_BOUND. */
  lemma TableNoiseBounded(perm: seq<byte>, permMod12: seq<byte>)
    requires WellFormed(perm, permMod12)
    ensures Fractal.Bounded(TableNoise(perm, permMod12), Simplex3D.RAW_BOUND)
  {
    forall x, y, t
      ensures -Simplex3D.RAW_BOUND <= TableNoise(perm, permMod12)(x, y, t) <= Simplex3D.RAW_BOUND
    {
      var r := Simplex3D.RawNoise(perm, permMod12, x, y, t);
    }
  }

  /** Before the remap, the octave sum of an engine's tables stays within
      twice RAW_BOUND times the configured amplitude, for any octave count. */
  lemma NoiseSumBound(perm: seq<byte>, permMod12: seq<byte>, x: real, y: real, t: real,
                      amplitude: real, scale: real, n: nat)
    requires WellFormed(perm, permMod12)
    ensures Fractal.AbsR(Fractal.OctaveSum(TableNoise(perm, permMod12), x, y, t, amplitude, scale, n))
            <= 2.0 * Simplex3D.RAW_BOUND * Fractal.AbsR(amplitude)
  {
    TableNoiseBounded(perm, permMod12);
    SumWithinRawBound(TableNoise(perm, permMod12), x, y, t, amplitude, scale, n);
  }

  /** `Fractal.OctaveSumWithin` at the bound `RAW_BOUND`, stated for an
      arbitrary single-octave function. It holds no proof of its own: it keeps
      the body of `rawNoise` out of the proof of `NoiseSumBound`, which stays
      small and cheap that way. */
  lemma SumWithinRawBound(raw: Fractal.Raw, x: real, y: real, t: real, amplitude: real, scale: real, n: nat)
    requires Fractal.Bounded(raw, Simplex3D.RAW_BOUND)
    ensures Fractal.AbsR(Fractal.OctaveSum(raw, x, y, t, amplitude, scale, n))
            <= 2.0 * Simplex3D.RAW_BOUND * Fractal.AbsR(amplitude)
  {
    Fractal.OctaveSumWithin(raw, Simplex3D.RAW_BOUND, x, y, t, amplitude, scale, n);
  }

  class Simplex {
    const amplitude: real
    const distrib: real
    const scale: real
    const octaves: int
    const random: RandomSource
    const p: array<byte>
    const perm: array<byte>
    const permMod12: array<byte>

    /** `p` is a permutation of 0..255 and `perm`, `permMod12` are its
        doubled expansion. */
    ghost predicate Valid()
      reads p, perm, permMod12
    {
      p.Length == TABLE_SIZE && IsPermutation(p[..]) &&
      Expanded(p[..], perm[..], permMod12[..]) &&
      WellFormed(perm[..], permMod12[..])
    }

    /** The engine as the constructor is written: the configured source is
        stored in `random`, but the table is built from the platform's
        generator, whose values are `systemRandom`. */
    constructor AsWritten(cfg: Options, systemRandom: seq<real>)
      requires ValidSource(systemRandom)
      ensures amplitude == Amplitude(cfg) && distrib == Distrib(cfg)
      ensures scale == Scale(cfg) && octaves == Octaves(cfg) && random == Config.Random(cfg)
      ensures p[..] == PermutationTable(systemRandom)
      ensures fresh(p) && fresh(perm) && fresh(permMod12) && perm != permMod12
      ensures Valid()
    {
      amplitude := Amplitude(cfg);
      distrib := Distrib(cfg);
      scale := Scale(cfg);
      octaves := Octaves(cfg);
      random := Config.Random(cfg);
      var table := BuildPermutationTable(systemRandom);
      var doubled, mod12 := ExpandTable(table);
      ExpandedProperties(table[..], doubled[..], mod12[..]);
      p := table;
      perm := doubled;
      permMod12 := mod12;
    }

    /** The engine with the table built from the configured source, falling
        back to the platform's generator when none is configured. */
    constructor (cfg: Options, systemRandom: seq<real>)
      requires ValidSource(TableSource(Config.Random(cfg), systemRandom))
      ensures amplitude == Amplitude(cfg) && distrib == Distrib(cfg)
      ensures scale == Scale(cfg) && octaves == Octaves(cfg) && random == Config.Random(cfg)
      ensures p[..] == PermutationTable(TableSource(random, systemRandom))
      ensures fresh(p) && fresh(perm) && fresh(permMod12) && perm != permMod12
      ensures Valid()
    {
      amplitude := Amplitude(cfg);
      distrib := Distrib(cfg);
      scale := Scale(cfg);
      octaves := Octaves(cfg);
      random := Config.Random(cfg);
      var table := BuildPermutationTable(TableSource(Config.Random(cfg), systemRandom));
      var doubled, mod12 := ExpandTable(table);
      ExpandedProperties(table[..], doubled[..], mod12[..]);
      p := table;
      perm := doubled;
      permMod12 := mod12;
    }

    /** This engine's single-octave noise function. */
    function Raw(): Fractal.Raw
      reads perm, permMod12
    {
      TableNoise(perm[..], permMod12[..])
    }

    /** `rawNoise`: one octave of 3D simplex noise over this engine's tables. */
    function RawNoise(xin: real, yin: real, tin: real): (r: real)
      reads p, perm, permMod12
      requires Valid()
      ensures -Simplex3D.RAW_BOUND <= r <= Simplex3D.RAW_BOUND
      ensures r == Raw()(xin, yin, tin)
    {
      Simplex3D.RawNoise(perm[..], permMod12[..], xin, yin, tin)
    }

    /** `noise`: sums `octaves` layers of raw noise, the amplitude halving and
        the spatial scale doubling at each layer, then raises
        `(noise + 1) / 2` to the power `distrib`. An absent or zero `t` is
        time 0. */
    method Noise(x: real, y: real, t: Option<real>, pow: (real, real) -> real) returns (r: real)
      ensures r == Fractal.Shape(Fractal.OctaveSum(Raw(), x, y, RealOr(t, 0.0), amplitude, scale,
                                                   Fractal.OctaveCount(octaves)), distrib, pow)
    {
      var time := RealOr(t, 0.0);
      var noise := Fractal.SumOctaves(Raw(), x, y, time, amplitude, scale, octaves);
      r := pow((noise + 1.0) / 2.0, distrib);
    }
  }

  // ----- The configured random source -----

  /** As written, the constructor builds its table from the platform's
      generator even when a source is configured: with a configured source
      that always returns 0 and a platform generator that always returns 0.5,
      the table built is not the one the configured source gives. */
  lemma ConfiguredSourceIgnored()
    ensures var supplied := seq(DRAW_COUNT, k => 0.0);
            var system := seq(DRAW_COUNT, k => 0.5);
            var cfg := NO_OPTIONS.(random := Some(supplied));
            ValidSource(system) && ValidSource(TableSource(Config.Random(cfg), system)) &&
            Config.Random(cfg) == Supplied(supplied) &&
            PermutationTable(system) != PermutationTable(TableSource(Config.Random(cfg), system))
  {
    var supplied := seq(DRAW_COUNT, k => 0.0);
    var system := seq(DRAW_COUNT, k => 0.5);
    assert Draw(system[0], 0) == 128;
    ZeroSourceGivesIdentity(supplied, DRAW_COUNT);
    FirstEntryIsFirstDraw(system, DRAW_COUNT);
  }

  /** With the configured source used, a supplied source alone decides the
      table, and two supplied sources whose first draws differ give
      different tables. */
  lemma ConfiguredSourceUsed(cfg: Options, other: Options, system: seq<real>, otherSystem: seq<real>)
    requires cfg.random.Some? && other.random.Some?
    requires ValidSource(cfg.random.value) && ValidSource(other.random.value)
    ensures PermutationTable(TableSource(Config.Random(cfg), system))
            == PermutationTable(TableSource(Config.Random(cfg), otherSystem))
    ensures Draw(cfg.random.value[0], 0) != Draw(other.random.value[0], 0) ==>
            PermutationTable(TableSource(Config.Random(cfg), system))
            != PermutationTable(TableSource(Config.Random(other), system))
  {
    if Draw(cfg.random.value[0], 0) != Draw(other.random.value[0], 0) {
      FirstDrawDistinguishes(cfg.random.value, other.random.value);
    }
  }
}
