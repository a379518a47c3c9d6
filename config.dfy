/** The engine's configuration object and its falsy-coalescing defaults
    (`cfg.x || default`): a field that is absent or 0 takes the default. */
module Config {

  datatype Option<T> = None | Some(value: T)

  /** The options a caller may pass; `None` is an absent field. The random
      source, when given, is the sequence of values its calls return. */
  datatype Options = Options(
    amplitude: Option<real>,
    distrib: Option<real>,
    scale: Option<real>,
    octaves: Option<int>,
    random: Option<seq<real>>)

  /** A missing configuration object, `cfg || {}`. */
  const NO_OPTIONS: Options := Options(None, None, None, None, None)

  /** Where the engine's `random` field points: the supplied function, or the
      platform's `Math.random` when none is supplied. */
  datatype RandomSource = SystemRandom | Supplied(values: seq<real>)

  /** `v || d` for a number: the value when present and non-zero, else `d`. */
  function RealOr(v: Option<real>, d: real): (r: real)
    ensures v.Some? && v.value != 0.0 ==> r == v.value
    ensures v.None? || v.value == 0.0 ==> r == d
    ensures d != 0.0 ==> r != 0.0
  {
    match v
    case Some(x) => if x != 0.0 then x else d
    case None => d
  }

  /** `v || d` for an integer option. */
  function IntOr(v: Option<int>, d: int): (r: int)
    ensures v.Some? && v.value != 0 ==> r == v.value
    ensures v.None? || v.value == 0 ==> r == d
    ensures d != 0 ==> r != 0
  {
    match v
    case Some(x) => if x != 0 then x else d
    case None => d
  }

  function Amplitude(cfg: Options): real { RealOr(cfg.amplitude, 1.0) }
  function Distrib(cfg: Options): real { RealOr(cfg.distrib, 1.0) }
  function Scale(cfg: Options): real { RealOr(cfg.scale, 1.0) }
  function Octaves(cfg: Options): int { IntOr(cfg.octaves, 1) }

  /** `cfg.random || Math.random`: every function value is truthy. */
  function Random(cfg: Options): (s: RandomSource)
    ensures s.Supplied? <==> cfg.random.Some?
    ensures cfg.random.Some? ==> s.values == cfg.random.value
  {
    match cfg.random
    case Some(values) => Supplied(values)
    case None => SystemRandom
  }

  /** Without options every numeric setting is 1. */
  lemma DefaultsAreOne()
    ensures Amplitude(NO_OPTIONS) == 1.0 && Distrib(NO_OPTIONS) == 1.0
    ensures Scale(NO_OPTIONS) == 1.0 && Octaves(NO_OPTIONS) == 1
    ensures Random(NO_OPTIONS) == SystemRandom
  {
  }

  /** An explicit 0 is read as "unset": a caller cannot configure a zero
      amplitude, distribution, scale or octave count. */
  lemma ZeroMeansUnset(cfg: Options)
    ensures Amplitude(cfg.(amplitude := Some(0.0))) == Amplitude(cfg.(amplitude := None)) == 1.0
    ensures Distrib(cfg.(distrib := Some(0.0))) == Distrib(cfg.(distrib := None)) == 1.0
    ensures Scale(cfg.(scale := Some(0.0))) == Scale(cfg.(scale := None)) == 1.0
    ensures Octaves(cfg.(octaves := Some(0))) == Octaves(cfg.(octaves := None)) == 1
    ensures Amplitude(cfg) != 0.0 && Distrib(cfg) != 0.0 && Scale(cfg) != 0.0 && Octaves(cfg) != 0
  {
  }
}
