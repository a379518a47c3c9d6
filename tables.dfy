/** Fixed data shared by every noise engine: the byte type of the permutation
    tables and the twelve 3D gradient vectors. */
module Tables {

  /** An entry of a `Uint8Array`. */
  newtype byte = x: int | 0 <= x < 256

  /** Length of the base permutation table. */
  const TABLE_SIZE: int := 256

  /** Length of the doubled lookup tables `perm` and `permMod12`. */
  const DOUBLED_SIZE: int := 512

  /** The twelve gradient vectors, three components each, flattened as in the
      engine's `grad3` table: the midpoints of the edges of a cube. */
  const GRAD3: seq<int> := [
     1,  1,  0,
    -1,  1,  0,
     1, -1,  0,
    -1, -1,  0,
     1,  0,  1,
    -1,  0,  1,
     1,  0, -1,
    -1,  0, -1,
     0,  1,  1,
     0, -1,  1,
     0,  1, -1,
     0, -1, -1
  ]

  /** A gradient index: the offset of the first component of one of the twelve
      vectors in GRAD3. */
  predicate IsGradientIndex(gi: int) {
    0 <= gi <= 33 && gi % 3 == 0
  }

  function Abs(v: int): (a: nat)
    ensures a == v || a == -v
  {
    if v < 0 then -v else v
  }

  /** Every component of every gradient is -1, 0 or 1, and exactly two
      components of each gradient are non-zero. */
  lemma GradientShape(gi: int)
    requires IsGradientIndex(gi)
    ensures |GRAD3| == 36
    ensures -1 <= GRAD3[gi] <= 1 && -1 <= GRAD3[gi + 1] <= 1 && -1 <= GRAD3[gi + 2] <= 1
    ensures Abs(GRAD3[gi]) + Abs(GRAD3[gi + 1]) + Abs(GRAD3[gi + 2]) == 2
  {
    var g := gi / 3;
    assert gi == 3 * g;
    if g == 0 {} else if g == 1 {} else if g == 2 {} else if g == 3 {}
    else if g == 4 {} else if g == 5 {} else if g == 6 {} else if g == 7 {}
    else if g == 8 {} else if g == 9 {} else if g == 10 {} else {}
  }

  /** `k & 255`: for every integer (JavaScript first reduces it modulo 2^32,
      a multiple of 256) this is the Euclidean remainder modulo 256. */
  function Mask(k: int): (m: int)
    ensures 0 <= m < TABLE_SIZE && (k - m) % TABLE_SIZE == 0
  {
    k % TABLE_SIZE
  }

  /** The invariant the noise evaluator relies on: both lookup tables have 512
      entries and `permMod12[k] == perm[k] % 12`. */
  predicate WellFormed(perm: seq<byte>, permMod12: seq<byte>) {
    |perm| == DOUBLED_SIZE && |permMod12| == DOUBLED_SIZE &&
    forall k :: 0 <= k < DOUBLED_SIZE ==> permMod12[k] == perm[k] % 12
  }
}
