# simplex.js in Dafny

A model of the 3D-plus-time simplex noise engine in `simplex.js`. The model covers the engine's core and proves properties of it:

- **Permutation table builder.** `_buildPermutationTable` fills a 256-byte table with 0..255 and then shuffles it in place, left to right (Fisher–Yates), drawing one value from the random source per step.
- **Table expansion.** The constructor doubles the shuffled table into the 512-entry lookup tables `perm` and `permMod12`.
- **`rawNoise`.** One octave of simplex noise: skew the point, pick one of six tetrahedra, hash the four corners to gradients, and add up the falloff-weighted contributions.
- **`noise`.** The octave loop, with the amplitude halving and the scale doubling at each octave, then the `Math.pow` remap.
- **Configuration defaults.** `cfg.x || default`: a field that is absent or 0 takes the default.

Modules follow the program's parts:

| module | contents |
|---|---|
| `Tables` | the byte type, the gradient table `GRAD3`, the `& 255` mask, and the invariant both lookup tables satisfy |
| `Permutation` | the builder and the expansion, as methods over arrays, with the functions that specify them |
| `Simplex3D` | `rawNoise`, as pure functions over exact reals |
| `Fractal` | the octave loop, as a method over any single-octave function, with the octave sum that specifies it |
| `Config` | the configuration object and its defaults |
| `Engine` | the `Simplex` class: its two constructors, `RawNoise` and `Noise` |

The random source is given as the sequence of values its successive calls return; each value is in [0, 1). The shuffle step `~~(random() * (256 - i))` is the floor of a non-negative product.

The platform's own `Math.random` stands apart from any configured source. Each constructor therefore takes a second sequence, `systemRandom`, holding the values that `Math.random` returns.

The header comment lists a `random` option, a "reference to random function" (simplex.js:13), and line 46 stores it in `this.random`. Line 76 nevertheless passes `Math.random` to the builder, and nothing else reads `this.random`, so the option has no effect. The model follows the code in `Engine.Simplex.AsWritten` and records the difference under Findings. The unnamed constructor models the intended behaviour.

## Model

| member | source | states |
|---|---|---|
| Tables.GradientShape | simplex.js:48-64 | each of the twelve gradients has three components in {-1, 0, 1}, exactly two of them non-zero, and the table has 36 entries |
| Tables.Mask | simplex.js:193-195 | `k & 255` lies in [0, 256) and differs from `k` by a multiple of 256, for negative `k` as well |
| Permutation.Draw | simplex.js:238 | the offset drawn at step `i` lies in [0, 256 - i), so the swap partner `i + d` lies in [i, 255] |
| Permutation.Swap | simplex.js:239-241 | exchanges positions `i` and `j`, leaves every other position alone and keeps the multiset of entries |
| Permutation.Shuffled | simplex.js:236-242 | the table after the first `n` swap steps of the loop, starting from the identity; it always has 256 entries (what the steps keep is in `ShuffledIsPermutation`) |
| Permutation.PermutationTable | simplex.js:234-244 | the table the builder returns: all 255 swap steps applied; 256 entries (its bijectivity is `PermutationTableIsBijection`) |
| Permutation.BuildPermutationTable | simplex.js:234-244 | returns a 256-entry array equal to the shuffle of the identity by the source's draws, and that array is a permutation of 0..255 |
| Permutation.ShuffledIsPermutation | simplex.js:237-242 | after any number of shuffle steps the table is still a permutation of 0..255 |
| Permutation.PermutationExactlyOnce | simplex.js:235-243 | a permutation has 256 entries, holds every byte value exactly once, and has no value at two positions |
| Permutation.PermutationTableIsBijection | simplex.js:234-244 | for every valid source, the built table contains every byte value and its 256 entries are pairwise distinct |
| Permutation.ZeroSourceGivesIdentity | simplex.js:236-242 | a source that always returns 0 leaves the table as the identity, `p[i] == i` |
| Permutation.FirstEntryIsFirstDraw | simplex.js:237-242 | later steps never touch position 0, so `p[0]` is the first draw |
| Permutation.FirstDrawDistinguishes | simplex.js:237-242 | two sources whose first draws differ build different tables |
| Permutation.ExpandTable | simplex.js:77-83 | fills 512-entry arrays with `perm[k] == p[k & 255]` and `permMod12[k] == perm[k] % 12` |
| Permutation.ExpandedProperties | simplex.js:80-83 | both halves of `perm` equal `p`, `perm[k] == perm[k + 256]`, every `permMod12` entry is below 12, and the tables satisfy the evaluator's invariant |
| Permutation.IdentityTables | simplex.js:80-83 | from the identity table, `perm[k] == k & 255` and `permMod12[k] == (k & 255) % 12` |
| Simplex3D.Skew | simplex.js:112-115 | the cell of a point: `s = (x + y + t) / 3` and the floors of `x + s`, `y + s`, `t + s`, with the offsets from `CellAt`; what they locate is `SkewLocates` |
| Simplex3D.Unskew | simplex.js:116-119 | the cell origin back in input space: each coordinate minus `(i + j + k) / 6` |
| Simplex3D.CellAt | simplex.js:116-122 | the offsets of a point from the unskewed origin of cell `(i, j, k)`; that a lattice shift keeps them is `OffsetShift` |
| Simplex3D.Falloff | simplex.js:197 | `0.6 - x^2 - y^2 - z^2` for each corner; a corner with negative falloff contributes nothing (`Contribution`) |
| Simplex3D.Dot | simplex.js:202 | the dot product of gradient `gi` of `GRAD3` with the offset; its range inside the radius is `DotBound` |
| Simplex3D.Attenuated | simplex.js:201-202 | the squared falloff squared again, times the dot product; its bound is proved in `Contribution` |
| Simplex3D.SkewLocates | simplex.js:112-122 | the point is the cell's unskewed origin plus the offset, and the offset skewed back lies in the unit cube |
| Simplex3D.SimplexCorners | simplex.js:127-178 | the corner offsets are bits, with `i1 + j1 + k1 == 1`, `i2 + j2 + k2 == 2` and the second corner below the third; the second corner steps along a largest offset and the third leaves out a smallest one, with the branches' tie-breaks |
| Simplex3D.CornersFollowOrder | simplex.js:127-178 | the axis set in the second corner holds a maximum of `x0, y0, z0`, and the axis left out of the third holds a minimum, with ties decided as the branches decide them |
| Simplex3D.GradientIndex | simplex.js:193-221 | every nested read `perm[kk + k1]`, `perm[jj + j1 + ...]` and `permMod12[ii + i1 + ...]` is inside the 512-entry tables, and the result is one of 0, 3, ..., 33, so `gi + 2 < 36` |
| Simplex3D.DotBound | simplex.js:202 | the dot product of a gradient with an offset inside the falloff radius lies in [-2, 2] |
| Simplex3D.Contribution | simplex.js:197-224 | a corner with negative falloff contributes exactly 0; a corner at offset 0 contributes 0; every contribution lies within `CORNER_BOUND` = 0.6^4 * 2 |
| Simplex3D.Evaluate | simplex.js:183-227 | 32 times the four corners' sum lies within `RAW_BOUND` = 128 * `CORNER_BOUND` |
| Simplex3D.RawNoise | simplex.js:106-228 | for any well-formed tables and any point, the noise lies within `RAW_BOUND` |
| Simplex3D.VanishesAtLatticePoints | simplex.js:106-228 | the noise is 0 at the unskewed image of every lattice point |
| Simplex3D.EvaluateAtOrigin | simplex.js:183-227 | at offset 0 the first corner's dot product is 0 and the other three corners lie outside the radius |
| Simplex3D.SkewShift | simplex.js:112-122 | shifting the point by the image of a lattice vector shifts the cell by that vector and keeps the offset |
| Simplex3D.SameCellSameNoise | simplex.js:193-227 | the noise depends only on the masked cell coordinates and the offset |
| Simplex3D.Periodic | simplex.js:112-227 | the noise repeats when the point moves by the image of a lattice vector whose coordinates are multiples of 256 |
| Config.RealOr | simplex.js:42-44 | `v \|\| d`: the value when it is present and non-zero, otherwise `d`; never 0 when `d` is not 0 |
| Config.IntOr | simplex.js:45 | the same for the integer `octaves` |
| Config.Random | simplex.js:46 | the engine's `random` field is the supplied source exactly when one is supplied |
| Config.DefaultsAreOne | simplex.js:40-46 | without options, amplitude, distribution, scale and octaves are 1 and the random field is the platform generator |
| Config.ZeroMeansUnset | simplex.js:42-45 | a configured 0 gives the same setting as no value, so no setting can be 0 |
| Fractal.OctaveCount | simplex.js:97 | the loop runs `octaves` times, or not at all when `octaves` is negative |
| Fractal.SumOctaves | simplex.js:93-101 | the loop's result is the sum of the octaves, the first at the configured amplitude and scale, each next one at half the amplitude and twice the scale |
| Fractal.OctaveSum | simplex.js:97-101 | the octave sum in loop order, each octave at half the previous amplitude and twice the previous scale; its closed forms and bound are `OctaveSplit`, `OctaveSumBound` and `OctaveSumWithin` |
| Fractal.Layer | simplex.js:98 | one octave: raw noise at the scaled spatial coordinates and unscaled time, times the amplitude |
| Fractal.Shape | simplex.js:103 | `pow((noise + 1) / 2, distrib)`; with exponent 1 it is the linear remap of `LinearDistribution` |
| Fractal.OctaveStep | simplex.js:98-100 | one turn of the loop keeps the running total plus the octaves still to come unchanged |
| Fractal.AmplitudeClosedForm | simplex.js:93-99 | octave `k` has the configured amplitude divided by 2^k |
| Fractal.ScaleClosedForm | simplex.js:94-100 | octave `k` has the configured scale times 2^k |
| Fractal.OctaveSplit | simplex.js:97-101 | the first `n + 1` octaves are the first `n` plus octave `n`, taken at amplitude `amplitude / 2^n` and scale `scale * 2^n` |
| Fractal.OctaveSumBound | simplex.js:97-101 | with a raw function bounded by `b`, the sum of `n` octaves is within `2b(abs(amplitude) - abs(amplitude of octave n))` |
| Fractal.OctaveSumWithin | simplex.js:97-101 | however many octaves are summed, the sum is within `2b * abs(amplitude)` |
| Fractal.SingleOctave | simplex.js:97-101 | one octave at amplitude 1 and scale 1 is the raw value itself |
| Fractal.LinearDistribution | simplex.js:103 | with exponent 1 the remap is `(noise + 1) / 2`, which maps [-1, 1] into [0, 1] |
| Fractal.LinearDistributionOnto | simplex.js:103 | with exponent 1 every value in [0, 1] is the remap of a noise value in [-1, 1], so the remap maps [-1, 1] onto [0, 1] |
| Fractal.DefaultNoise | simplex.js:91-104 | with the default settings, `noise` is raw noise mapped linearly into [0, 1] |
| Engine.TableSource | simplex.js:46 | the values the corrected constructor builds the table from: the configured source when there is one, else the platform's |
| Engine.TableNoiseBounded | simplex.js:106-228 | an engine's single-octave function is bounded by `RAW_BOUND` everywhere |
| Engine.NoiseSumBound | simplex.js:91-101 | before the remap, an engine's octave sum is within `2 * RAW_BOUND * abs(amplitude)`, for any octave count |
| Engine.Simplex.AsWritten | simplex.js:38-84 | the constructor as written: the settings are the configured ones or their defaults, `random` is the configured source, and the table is built from the platform's values; the three tables satisfy the engine invariant |
| Engine.Simplex.constructor | simplex.js:38-84 | the constructor with the table built from the configured source when one is given; the same settings and invariant |
| Engine.Simplex.RawNoise | simplex.js:106-228 | `rawNoise` over this engine's tables lies within `RAW_BOUND` and is this engine's single-octave function |
| Engine.Simplex.Noise | simplex.js:91-104 | `noise(x, y, t)` is `pow` applied to `(octave sum + 1) / 2` and `distrib`, where the octave sum covers `octaves` octaves of this engine's raw noise and an absent or zero `t` is 0 |
| Engine.ConfiguredSourceIgnored | simplex.js:76 | a configured source of zeros and a platform source of 0.5 give different tables, so the as-written table is not the configured source's |
| Engine.ConfiguredSourceUsed | simplex.js:46 | with the source used, a configured source alone decides the table, and configured sources with different first draws give different tables |

## Left out

- `grad4` (simplex.js:65-74) is dead data: nothing reads it.
- Floating point is left out. The model uses exact reals, so IEEE-754 rounding and the `Float32Array` storage of `grad3` are not modelled. The gradient entries are small integers, which a `Float32Array` holds exactly.
- `Math.random` itself is left out: it is nondeterministic and foreign. The values it returns are the constructor parameter `systemRandom`, and a configured source is the sequence of values it returns.
- `Math.pow` is left out: Dafny has no real exponentiation. `Noise` takes it as the parameter `pow`, and only `pow(b, 1) == b` is ever assumed, in `Fractal.LinearDistribution` and `Fractal.DefaultNoise`.
- Dynamic typing is left out:
  - `t || 0` is modelled for a numeric `t` (an `Option`), not for `undefined` or NaN beyond absence.
  - `cfg || {}` is `NO_OPTIONS`.
  - A non-numeric option is not modelled.
- Simplex3D.RawNoise: proves the bound `RAW_BOUND` (about 33.2) and not the "just inside [-1, 1]" of the comment at line 226. That comment depends on geometry this bound does not use, and floating point can overshoot it.
- Fractal.OctaveCount: models an integer `octaves` only. A fractional value such as 2.5 makes the source's loop run for every integer below it (three times here), and this is not modelled.
- Tables.Mask: models `& 255` as the remainder modulo 256 for every integer. The source first converts the operand to a 32-bit integer, and that conversion is exact only for the integers a JavaScript number represents.
- Engine.Simplex.Noise: the octave loop is `Fractal.SumOctaves`, the generic loop over a single-octave function, which `Noise` calls with this engine's `RawNoise`. The `this.rawNoise` calls inside the loop are therefore calls of that function value.
- The usage example in the header comment (simplex.js:15-29) is caller code and is not modelled.

## Findings

| source | as written | input that shows it | evidently intended | confidence | as-written member | corrected member |
|---|---|---|---|---|---|---|
| simplex.js:76 | The constructor builds the table from `Math.random`. The `cfg.random` it stores at line 46 is never read. | A configured source that always returns 0, with `Math.random` returning 0.5: the table starts with 128 instead of being the identity. | The configured source, falling back to `Math.random`, seeds the table. | not executed | Engine.Simplex.AsWritten, Engine.ConfiguredSourceIgnored | Engine.Simplex.constructor, Engine.ConfiguredSourceUsed |
