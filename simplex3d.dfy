/** Single-octave 3D simplex noise (the engine's `rawNoise`), over exact reals:
    skew the point into simplex space, find its cell and the tetrahedron of
    the cell that holds it, and add up the falloff-weighted gradient
    contributions of the tetrahedron's four corners. */
module Simplex3D {
  import opened Tables

  /** Skew factor for three dimensions, (sqrt(4) - 1) / 3. */
  const F3: real := 1.0 / 3.0

  /** Unskew factor for three dimensions, (1 - 1 / sqrt(4)) / 3. */
  const G3: real := 1.0 / 6.0

  /** Squared radius of a corner's influence. */
  const RADIUS2: real := 0.6

  /** Largest magnitude of one corner's contribution: (0.6^2)^2 times the
      largest dot product 2. */
  const CORNER_BOUND: real := 0.2592

  /** Largest magnitude of the raw noise this model proves: 32 times four
      corners. The engine's comment that values stay just inside [-1, 1] is a
      property of the geometry this bound does not use. */
  const RAW_BOUND: real := 32.0 * 4.0 * CORNER_BOUND

  // ----- Skewing -----

  /** A simplex cell: its integer lattice coordinates and the offset of the
      point from the cell's origin, in input space. */
  datatype Cell = Cell(i: int, j: int, k: int, x0: real, y0: real, z0: real)

  /** The unskewed position of lattice point (i, j, k). */
  function Unskew(i: int, j: int, k: int): (origin: (real, real, real)) {
    var t := (i + j + k) as real * G3;
    (i as real - t, j as real - t, k as real - t)
  }

  /** Finds the cell of a point by skewing it and flooring each coordinate. */
  function Skew(xin: real, yin: real, tin: real): Cell {
    var s := (xin + yin + tin) * F3;
    CellAt(xin, yin, tin, (xin + s).Floor, (yin + s).Floor, (tin + s).Floor)
  }

  /** Skew finds the cell of a point: the point is the cell's unskewed origin
      plus the offset, and the offset skewed back lies in the unit cube, so
      the cell coordinates are the floors of the skewed point. */
  lemma SkewLocates(xin: real, yin: real, tin: real)
    ensures var c := Skew(xin, yin, tin);
      Unskew(c.i, c.j, c.k).0 + c.x0 == xin &&
      Unskew(c.i, c.j, c.k).1 + c.y0 == yin &&
      Unskew(c.i, c.j, c.k).2 + c.z0 == tin &&
      0.0 <= c.x0 + (c.x0 + c.y0 + c.z0) * F3 < 1.0 &&
      0.0 <= c.y0 + (c.x0 + c.y0 + c.z0) * F3 < 1.0 &&
      0.0 <= c.z0 + (c.x0 + c.y0 + c.z0) * F3 < 1.0
  {
    var s := (xin + yin + tin) * F3;
    var i := (xin + s).Floor;
    var j := (yin + s).Floor;
    var k := (tin + s).Floor;
    assert i as real <= xin + s < i as real + 1.0;
    assert j as real <= yin + s < j as real + 1.0;
    assert k as real <= tin + s < k as real + 1.0;
    var c := Skew(xin, yin, tin);
    assert (c.x0 + c.y0 + c.z0) * F3 == s - (i + j + k) as real * F3 + ((i + j + k) as real * G3) * 3.0 * F3;
  }

  /** The cell (i, j, k) with the offset of the point from its unskewed
      origin. */
  function CellAt(xin: real, yin: real, tin: real, i: int, j: int, k: int): Cell {
    var o := Unskew(i, j, k);
    Cell(i, j, k, xin - o.0, yin - o.1, tin - o.2)
  }

  // ----- Which tetrahedron of the cell -----

  datatype Axis = X | Y | Z

  function Coord(a: Axis, x: real, y: real, z: real): real {
    match a
    case X => x
    case Y => y
    case Z => z
  }

  /** The axis of a largest coordinate; ties go to x, then y. */
  function MaxAxis(x: real, y: real, z: real): (a: Axis)
    ensures Coord(a, x, y, z) >= x && Coord(a, x, y, z) >= y && Coord(a, x, y, z) >= z
    ensures a == Y ==> y > x
    ensures a == Z ==> z > x && z > y
  {
    if x >= y && x >= z then X else if y >= z then Y else Z
  }

  /** The axis of a smallest coordinate; ties go to z, then y. */
  function MinAxis(x: real, y: real, z: real): (a: Axis)
    ensures Coord(a, x, y, z) <= x && Coord(a, x, y, z) <= y && Coord(a, x, y, z) <= z
    ensures a == Y ==> y < z
    ensures a == X ==> x < z && x < y
  {
    if z <= x && z <= y then Z else if y <= x then Y else X
  }

  /** The unit step along an axis. */
  function Unit(a: Axis): (int, int, int) {
    match a
    case X => (1, 0, 0)
    case Y => (0, 1, 0)
    case Z => (0, 0, 1)
  }

  /** The step along the two axes other than `a`. */
  function AllBut(a: Axis): (int, int, int) {
    match a
    case X => (0, 1, 1)
    case Y => (1, 0, 1)
    case Z => (1, 1, 0)
  }

  /** Lattice offsets of the second corner (i1, j1, k1) and third corner
      (i2, j2, k2) of the tetrahedron. */
  datatype Corners = Corners(i1: int, j1: int, k1: int, i2: int, j2: int, k2: int)

  predicate IsBit(v: int) {
    v == 0 || v == 1
  }

  /** Selects one of the six tetrahedra by comparing the offsets pairwise. The
      second corner steps along the axis of the largest offset, the third adds
      the middle one and leaves out the axis of the smallest, with ties broken
      exactly as MaxAxis and MinAxis break them. */
  function SimplexCorners(x0: real, y0: real, z0: real): (c: Corners)
    ensures IsBit(c.i1) && IsBit(c.j1) && IsBit(c.k1) && IsBit(c.i2) && IsBit(c.j2) && IsBit(c.k2)
    ensures c.i1 + c.j1 + c.k1 == 1 && c.i2 + c.j2 + c.k2 == 2
    ensures c.i1 <= c.i2 && c.j1 <= c.j2 && c.k1 <= c.k2
    ensures (c.i1, c.j1, c.k1) == Unit(MaxAxis(x0, y0, z0))
    ensures (c.i2, c.j2, c.k2) == AllBut(MinAxis(x0, y0, z0))
  {
    if x0 >= y0 then
      if y0 >= z0 then Corners(1, 0, 0, 1, 1, 0)       // X Y Z order
      else if x0 >= z0 then Corners(1, 0, 0, 1, 0, 1)  // X Z Y order
      else Corners(0, 0, 1, 1, 0, 1)                   // Z X Y order
    else
      if y0 < z0 then Corners(0, 0, 1, 0, 1, 1)        // Z Y X order
      else if x0 < z0 then Corners(0, 1, 0, 0, 1, 1)   // Y Z X order
      else Corners(0, 1, 0, 1, 1, 0)                   // Y X Z order
  }

  /** The offset set to 1 in the second corner is a largest one, and the offset
      left at 0 in the third corner is a smallest one. */
  lemma CornersFollowOrder(x0: real, y0: real, z0: real)
    ensures var c := SimplexCorners(x0, y0, z0);
      (c.i1 == 1 ==> x0 >= y0 && x0 >= z0) &&
      (c.j1 == 1 ==> y0 > x0 && y0 >= z0) &&
      (c.k1 == 1 ==> z0 > x0 && z0 > y0) &&
      (c.i2 == 0 ==> x0 < y0 && x0 < z0) &&
      (c.j2 == 0 ==> y0 <= x0 && y0 < z0) &&
      (c.k2 == 0 ==> z0 <= x0 && z0 <= y0)
  {
  }

  // ----- Hashing and corner contributions -----

  /** The gradient index of lattice corner (a, b, c), after masking:
      `permMod12[a + perm[b + perm[c]]] * 3`. Each of a, b, c is a masked
      coordinate plus an offset of at most 1, so every read is inside the
      512-entry tables, and the result selects one of the twelve gradients. */
  function GradientIndex(perm: seq<byte>, permMod12: seq<byte>, a: int, b: int, c: int): (gi: int)
    requires WellFormed(perm, permMod12)
    requires 0 <= a <= TABLE_SIZE && 0 <= b <= TABLE_SIZE && 0 <= c <= TABLE_SIZE
    ensures IsGradientIndex(gi)
  {
    var middle := b + perm[c] as int;
    var outer := a + perm[middle] as int;
    assert permMod12[outer] == perm[outer] % 12;
    permMod12[outer] as int * 3
  }

  /** `0.6 - x^2 - y^2 - z^2`, the falloff of a corner at offset (x, y, z). */
  function Falloff(x: real, y: real, z: real): real {
    RADIUS2 - x * x - y * y - z * z
  }

  /** The dot product of gradient `gi` with the offset (x, y, z). */
  function Dot(gi: int, x: real, y: real, z: real): real
    requires IsGradientIndex(gi)
  {
    Dot3(GRAD3[gi], GRAD3[gi + 1], GRAD3[gi + 2], x, y, z)
  }

  /** The dot product of the integer vector (g0, g1, g2) with (x, y, z). */
  function Dot3(g0: int, g1: int, g2: int, x: real, y: real, z: real): real {
    g0 as real * x + g1 as real * y + g2 as real * z
  }

  /** `(t * t) * (t * t) * d`: the dot product `d` weighted by the squared
      squared falloff `t`. */
  function Attenuated(t: real, d: real): real {
    (t * t) * (t * t) * d
  }

  /** The contribution of one corner: nothing when its falloff is negative
      (the point is outside the corner's radius), otherwise the squared
      squared falloff times the gradient's dot product with the offset. */
  function Contribution(perm: seq<byte>, permMod12: seq<byte>, a: int, b: int, c: int,
                        x: real, y: real, z: real): (n: real)
    requires WellFormed(perm, permMod12)
    requires 0 <= a <= TABLE_SIZE && 0 <= b <= TABLE_SIZE && 0 <= c <= TABLE_SIZE
    ensures Falloff(x, y, z) < 0.0 ==> n == 0.0
    ensures x == 0.0 && y == 0.0 && z == 0.0 ==> n == 0.0
    ensures -CORNER_BOUND <= n <= CORNER_BOUND
  {
    var t := Falloff(x, y, z);
    if t < 0.0 then 0.0
    else
      var gi := GradientIndex(perm, permMod12, a, b, c);
      InsideRadius(t, x, y, z);
      DotBound(gi, x, y, z);
      ContributionBound(t, x, y, z, Dot(gi, x, y, z));
      Attenuated(t, Dot(gi, x, y, z))
  }

  /** Adds up the four corner contributions of the tetrahedron that holds
      offset (x0, y0, z0) in the cell with masked coordinates (ii, jj, kk),
      and scales the sum by 32. */
  function Evaluate(perm: seq<byte>, permMod12: seq<byte>, ii: int, jj: int, kk: int,
                    x0: real, y0: real, z0: real): (r: real)
    requires WellFormed(perm, permMod12)
    requires 0 <= ii < TABLE_SIZE && 0 <= jj < TABLE_SIZE && 0 <= kk < TABLE_SIZE
    ensures -RAW_BOUND <= r <= RAW_BOUND
  {
    var c := SimplexCorners(x0, y0, z0);
    var x1 := x0 - c.i1 as real + G3;
    var y1 := y0 - c.j1 as real + G3;
    var z1 := z0 - c.k1 as real + G3;
    var x2 := x0 - c.i2 as real + 2.0 * G3;
    var y2 := y0 - c.j2 as real + 2.0 * G3;
    var z2 := z0 - c.k2 as real + 2.0 * G3;
    var x3 := x0 - 1.0 + 3.0 * G3;
    var y3 := y0 - 1.0 + 3.0 * G3;
    var z3 := z0 - 1.0 + 3.0 * G3;
    var n0 := Contribution(perm, permMod12, ii, jj, kk, x0, y0, z0);
    var n1 := Contribution(perm, permMod12, ii + c.i1, jj + c.j1, kk + c.k1, x1, y1, z1);
    var n2 := Contribution(perm, permMod12, ii + c.i2, jj + c.j2, kk + c.k2, x2, y2, z2);
    var n3 := Contribution(perm, permMod12, ii + 1, jj + 1, kk + 1, x3, y3, z3);
    32.0 * (n0 + n1 + n2 + n3)
  }

  /** Single-octave simplex noise at (xin, yin, tin). */
  function RawNoise(perm: seq<byte>, permMod12: seq<byte>, xin: real, yin: real, tin: real): (r: real)
    requires WellFormed(perm, permMod12)
    ensures -RAW_BOUND <= r <= RAW_BOUND
  {
    var cell := Skew(xin, yin, tin);
    Evaluate(perm, permMod12, Mask(cell.i), Mask(cell.j), Mask(cell.k), cell.x0, cell.y0, cell.z0)
  }

  // ----- Properties -----

  /** Noise is zero at every lattice point: there the point is its own cell
      origin, the origin corner's dot product is 0, and the other three
      corners lie outside the radius. */
  lemma VanishesAtLatticePoints(perm: seq<byte>, permMod12: seq<byte>, a: int, b: int, c: int)
    requires WellFormed(perm, permMod12)
    ensures RawNoise(perm, permMod12, Unskew(a, b, c).0, Unskew(a, b, c).1, Unskew(a, b, c).2) == 0.0
  {
    var o := Unskew(a, b, c);
    SkewOfLatticePoint(a, b, c);
    assert Skew(o.0, o.1, o.2) == Cell(a, b, c, 0.0, 0.0, 0.0);
    EvaluateAtOrigin(perm, permMod12, Mask(a), Mask(b), Mask(c));
  }

  lemma SkewOfLatticePoint(a: int, b: int, c: int)
    ensures var o := Unskew(a, b, c); Skew(o.0, o.1, o.2) == Cell(a, b, c, 0.0, 0.0, 0.0)
  {
    var o := Unskew(a, b, c);
    var s := (o.0 + o.1 + o.2) * F3;
    assert o.0 + s == a as real && o.1 + s == b as real && o.2 + s == c as real;
  }

  lemma EvaluateAtOrigin(perm: seq<byte>, permMod12: seq<byte>, ii: int, jj: int, kk: int)
    requires WellFormed(perm, permMod12)
    requires 0 <= ii < TABLE_SIZE && 0 <= jj < TABLE_SIZE && 0 <= kk < TABLE_SIZE
    ensures Evaluate(perm, permMod12, ii, jj, kk, 0.0, 0.0, 0.0) == 0.0
  {
    assert SimplexCorners(0.0, 0.0, 0.0) == Corners(1, 0, 0, 1, 1, 0);
    assert Falloff(-5.0 / 6.0, 1.0 / 6.0, 1.0 / 6.0) < 0.0;
    assert Falloff(-2.0 / 3.0, -2.0 / 3.0, 1.0 / 3.0) < 0.0;
    assert Falloff(-0.5, -0.5, -0.5) < 0.0;
  }

  /** Noise repeats with period 256 along each lattice axis: shifting the point
      by the unskewed image of a lattice vector whose coordinates are multiples
      of 256 moves it to the same offset in a cell whose masked coordinates are
      unchanged. */
  lemma Periodic(perm: seq<byte>, permMod12: seq<byte>, xin: real, yin: real, tin: real, a: int, b: int, c: int)
    requires WellFormed(perm, permMod12)
    requires a % TABLE_SIZE == 0 && b % TABLE_SIZE == 0 && c % TABLE_SIZE == 0
    ensures var o := Unskew(a, b, c);
      RawNoise(perm, permMod12, xin + o.0, yin + o.1, tin + o.2) == RawNoise(perm, permMod12, xin, yin, tin)
  {
    var o := Unskew(a, b, c);
    ShiftedCell(xin, yin, tin, a, b, c);
    SameCellSameNoise(perm, permMod12, xin + o.0, yin + o.1, tin + o.2, xin, yin, tin);
  }

  /** The shifted point's cell has the same masked coordinates and the same
      offsets as the point's own cell. */
  lemma ShiftedCell(xin: real, yin: real, tin: real, a: int, b: int, c: int)
    requires a % TABLE_SIZE == 0 && b % TABLE_SIZE == 0 && c % TABLE_SIZE == 0
    ensures var o := Unskew(a, b, c);
      var cell := Skew(xin, yin, tin); var moved := Skew(xin + o.0, yin + o.1, tin + o.2);
      Mask(moved.i) == Mask(cell.i) && Mask(moved.j) == Mask(cell.j) && Mask(moved.k) == Mask(cell.k) &&
      moved.x0 == cell.x0 && moved.y0 == cell.y0 && moved.z0 == cell.z0
  {
    var cell := Skew(xin, yin, tin);
    SkewShift(xin, yin, tin, a, b, c);
    MaskShift(cell.i, a);
    MaskShift(cell.j, b);
    MaskShift(cell.k, c);
  }

  /** Two points whose cells have the same masked coordinates and the same
      offsets have the same noise. */
  lemma SameCellSameNoise(perm: seq<byte>, permMod12: seq<byte>, x: real, y: real, t: real,
                          x': real, y': real, t': real)
    requires WellFormed(perm, permMod12)
    requires var c := Skew(x, y, t); var c' := Skew(x', y', t');
      Mask(c.i) == Mask(c'.i) && Mask(c.j) == Mask(c'.j) && Mask(c.k) == Mask(c'.k) &&
      c.x0 == c'.x0 && c.y0 == c'.y0 && c.z0 == c'.z0
    ensures RawNoise(perm, permMod12, x, y, t) == RawNoise(perm, permMod12, x', y', t')
  {
  }

  lemma MaskShift(v: int, a: int)
    requires a % TABLE_SIZE == 0
    ensures Mask(v + a) == Mask(v)
  {
  }

  lemma SkewShift(xin: real, yin: real, tin: real, a: int, b: int, c: int)
    ensures var o := Unskew(a, b, c); var cell := Skew(xin, yin, tin);
      Skew(xin + o.0, yin + o.1, tin + o.2) == Cell(cell.i + a, cell.j + b, cell.k + c, cell.x0, cell.y0, cell.z0)
  {
    var o := Unskew(a, b, c);
    var s := (xin + yin + tin) * F3;
    var s' := ((xin + o.0) + (yin + o.1) + (tin + o.2)) * F3;
    assert s' == s + (a + b + c) as real * G3;
    assert (xin + o.0) + s' == (xin + s) + a as real;
    assert (yin + o.1) + s' == (yin + s) + b as real;
    assert (tin + o.2) + s' == (tin + s) + c as real;
    FloorShift(xin + s, a);
    FloorShift(yin + s, b);
    FloorShift(tin + s, c);
    OffsetShift(xin, yin, tin, (xin + s).Floor, (yin + s).Floor, (tin + s).Floor, a, b, c);
  }

  /** Moving both the point and the cell by the same lattice vector keeps the
      offset. */
  lemma OffsetShift(xin: real, yin: real, tin: real, i: int, j: int, k: int, a: int, b: int, c: int)
    ensures var o := Unskew(a, b, c); var cell := CellAt(xin, yin, tin, i, j, k);
      CellAt(xin + o.0, yin + o.1, tin + o.2, i + a, j + b, k + c)
        == Cell(i + a, j + b, k + c, cell.x0, cell.y0, cell.z0)
  {
  }

  lemma FloorShift(r: real, n: int)
    ensures (r + n as real).Floor == r.Floor + n
  {
    assert r.Floor as real <= r < r.Floor as real + 1.0;
  }

  // ----- Bounding one corner's contribution -----

  lemma ContributionBound(t: real, x: real, y: real, z: real, d: real)
    requires t == Falloff(x, y, z) && t >= 0.0
    requires -2.0 <= d <= 2.0
    ensures -CORNER_BOUND <= Attenuated(t, d) <= CORNER_BOUND
  {
    SquaresUnderRadius(t, x, y, z);
    FourthPowerBound(t);
    ScaledBound((t * t) * (t * t), d);
  }

  /** A corner with non-negative falloff is less than 1 away along each axis. */
  lemma InsideRadius(t: real, x: real, y: real, z: real)
    requires t == Falloff(x, y, z) && t >= 0.0
    ensures -1.0 < x < 1.0 && -1.0 < y < 1.0 && -1.0 < z < 1.0
  {
    SquaresUnderRadius(t, x, y, z);
    UnderRadius(x);
    UnderRadius(y);
    UnderRadius(z);
  }

  lemma SquaresUnderRadius(t: real, x: real, y: real, z: real)
    requires t == Falloff(x, y, z) && t >= 0.0
    ensures t <= RADIUS2 && x * x <= RADIUS2 && y * y <= RADIUS2 && z * z <= RADIUS2
  {
    assert 0.0 <= x * x && 0.0 <= y * y && 0.0 <= z * z;
  }

  lemma FourthPowerBound(t: real)
    requires 0.0 <= t <= RADIUS2
    ensures 0.0 <= (t * t) * (t * t) <= 0.1296
  {
    MulMonotone(t, RADIUS2, t, RADIUS2);
    var t2 := t * t;
    MulMonotone(t2, 0.36, t2, 0.36);
  }

  lemma ScaledBound(t4: real, d: real)
    requires 0.0 <= t4 <= 0.1296 && -2.0 <= d <= 2.0
    ensures -CORNER_BOUND <= t4 * d <= CORNER_BOUND
  {
    MulMonotone(0.0, t4, 0.0, 2.0 - d);
    MulMonotone(0.0, t4, 0.0, 2.0 + d);
  }

  lemma MulMonotone(a: real, b: real, c: real, d: real)
    requires 0.0 <= a <= b && 0.0 <= c <= d
    ensures 0.0 <= a * c <= b * d
  {
    assert b * d - a * c == b * (d - c) + c * (b - a);
  }

  lemma UnderRadius(v: real)
    requires v * v <= RADIUS2
    ensures -1.0 < v < 1.0
  {
    if v >= 1.0 {
      MulMonotone(1.0, v, 1.0, v);
    } else if v <= -1.0 {
      MulMonotone(1.0, -v, 1.0, -v);
    }
  }

  lemma DotBound(gi: int, x: real, y: real, z: real)
    requires IsGradientIndex(gi)
    requires -1.0 < x < 1.0 && -1.0 < y < 1.0 && -1.0 < z < 1.0
    ensures -2.0 <= Dot(gi, x, y, z) <= 2.0
  {
    GradientShape(gi);
    ComponentsBound(GRAD3[gi], GRAD3[gi + 1], GRAD3[gi + 2], x, y, z);
  }

  lemma ComponentsBound(g0: int, g1: int, g2: int, x: real, y: real, z: real)
    requires -1 <= g0 <= 1 && -1 <= g1 <= 1 && -1 <= g2 <= 1
    requires Abs(g0) + Abs(g1) + Abs(g2) == 2
    requires -1.0 < x < 1.0 && -1.0 < y < 1.0 && -1.0 < z < 1.0
    ensures -2.0 <= Dot3(g0, g1, g2, x, y, z) <= 2.0
  {
    TermBound(g0, x);
    TermBound(g1, y);
    TermBound(g2, z);
  }

  lemma TermBound(g: int, v: real)
    requires -1 <= g <= 1 && -1.0 < v < 1.0
    ensures -(Abs(g) as real) <= g as real * v <= Abs(g) as real
  {
  }
}
