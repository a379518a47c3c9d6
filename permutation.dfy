/** The permutation table builder: a left-to-right Fisher-Yates shuffle of the
    bytes 0..255 driven by a uniform random source, and the expansion of the
    shuffled table into the doubled `perm` and `permMod12` lookup tables. */
module Permutation {
  import opened Tables

  /** The number of values the shuffle draws from the random source. */
  const DRAW_COUNT: int := 255

  /** A random source, given as the values its successive calls return: the
      shuffle needs 255 of them, each in [0, 1). */
  predicate ValidSource(random: seq<real>) {
    |random| >= DRAW_COUNT &&
    forall k :: 0 <= k < DRAW_COUNT ==> 0.0 <= random[k] < 1.0
  }

  /** The offset `~~(u * (256 - i))` drawn at step `i`; for a non-negative
      product the double bitwise negation truncates, which is the floor. */
  function Draw(u: real, i: nat): (d: int)
    requires 0.0 <= u < 1.0 && i < TABLE_SIZE
    ensures 0 <= d < TABLE_SIZE - i
  {
    var m := TABLE_SIZE - i;
    FloorOfProduct(u, m);
    (u * m as real).Floor
  }

  lemma FloorOfProduct(u: real, m: int)
    requires 0.0 <= u < 1.0 && m > 0
    ensures 0 <= (u * m as real).Floor < m
  {
    var r := u * m as real;
    assert m as real - r == (1.0 - u) * m as real;
    assert 0.0 <= r < m as real;
    assert r.Floor as real <= r;
  }

  /** The first `n` bytes in increasing order. */
  function Range(n: nat): (s: seq<byte>)
    requires n <= TABLE_SIZE
    ensures |s| == n
  {
    seq(n, k requires 0 <= k < n => k as byte)
  }

  /** The initial table, before any swap: `p[i] == i`. */
  function Identity(): (s: seq<byte>)
    ensures |s| == TABLE_SIZE
  {
    Range(TABLE_SIZE)
  }

  /** Exchanges the entries at positions `i` and `j`. */
  function Swap(s: seq<byte>, i: int, j: int): (r: seq<byte>)
    requires 0 <= i < |s| && 0 <= j < |s|
    ensures |r| == |s| && r[i] == s[j] && r[j] == s[i]
    ensures forall k :: 0 <= k < |s| && k != i && k != j ==> r[k] == s[k]
    ensures multiset(r) == multiset(s)
  {
    s[i := s[j]][j := s[i]]
  }

  /** The table after the first `n` steps of the shuffle: step `i` swaps
      position `i` with position `i + Draw(random[i], i)`. */
  function Shuffled(random: seq<real>, n: nat): (s: seq<byte>)
    requires ValidSource(random) && n <= DRAW_COUNT
    ensures |s| == TABLE_SIZE
  {
    if n == 0 then Identity()
    else
      var prev := Shuffled(random, n - 1);
      Swap(prev, n - 1, n - 1 + Draw(random[n - 1], n - 1))
  }

  /** One step of the shuffle, unfolded. It holds no proof of its own: it
      gives the builder's loop this unfolding as a single fact, which keeps
      the proof of the loop small and cheap. */
  lemma ShuffledStep(random: seq<real>, n: nat)
    requires ValidSource(random) && n < DRAW_COUNT
    ensures Shuffled(random, n + 1) == Swap(Shuffled(random, n), n, n + Draw(random[n], n))
  {
  }

  /** The table the builder returns. */
  function PermutationTable(random: seq<real>): (s: seq<byte>)
    requires ValidSource(random)
    ensures |s| == TABLE_SIZE
  {
    Shuffled(random, DRAW_COUNT)
  }

  /** Every byte value occurs exactly once. */
  ghost predicate IsPermutation(s: seq<byte>) {
    multiset(s) == multiset(Identity())
  }

  /** Builds the base table: fills `p[i] = i`, then for `i` from 0 to 254 swaps
      `p[i]` with `p[i + draw]`. */
  method BuildPermutationTable(random: seq<real>) returns (p: array<byte>)
    requires ValidSource(random)
    ensures fresh(p) && p.Length == TABLE_SIZE
    ensures p[..] == PermutationTable(random)
    ensures IsPermutation(p[..])
  {
    p := new byte[TABLE_SIZE];
    for i := 0 to TABLE_SIZE
      invariant forall k :: 0 <= k < i ==> p[k] == k as byte
    {
      p[i] := i as byte;
    }
    assert forall k :: 0 <= k < TABLE_SIZE ==> p[..][k] == Identity()[k];
    assert p[..] == Identity();
    for i := 0 to DRAW_COUNT
      invariant p[..] == Shuffled(random, i)
    {
      var r := i + Draw(random[i], i);
      ghost var before := p[..];
      var aux := p[i];
      p[i] := p[r];
      p[r] := aux;
      assert p[..] == Swap(before, i, r);
      ShuffledStep(random, i);
    }
    ShuffledIsPermutation(random, DRAW_COUNT);
  }

  /** Expands the base table into the 512-entry lookup tables:
      `perm[k] = p[k & 255]` and `permMod12[k] = perm[k] % 12`. */
  method ExpandTable(p: array<byte>) returns (perm: array<byte>, permMod12: array<byte>)
    requires p.Length == TABLE_SIZE
    ensures fresh(perm) && fresh(permMod12) && perm != permMod12
    ensures Expanded(p[..], perm[..], permMod12[..])
  {
    perm := new byte[DOUBLED_SIZE];
    permMod12 := new byte[DOUBLED_SIZE];
    for i := 0 to DOUBLED_SIZE
      invariant forall k :: 0 <= k < i ==> perm[k] == p[Mask(k)]
      invariant forall k :: 0 <= k < i ==> permMod12[k] == perm[k] % 12
    {
      perm[i] := p[Mask(i)];
      permMod12[i] := perm[i] % 12;
    }
  }

  /** The relation between the base table and the two lookup tables. */
  predicate Expanded(p: seq<byte>, perm: seq<byte>, permMod12: seq<byte>) {
    |p| == TABLE_SIZE && |perm| == DOUBLED_SIZE && |permMod12| == DOUBLED_SIZE &&
    (forall k :: 0 <= k < DOUBLED_SIZE ==> perm[k] == p[Mask(k)]) &&
    (forall k :: 0 <= k < DOUBLED_SIZE ==> permMod12[k] == perm[k] % 12)
  }

  // ----- Properties of the shuffle -----

  lemma {:induction false} RangeCount(n: nat, v: byte)
    requires n <= TABLE_SIZE
    ensures multiset(Range(n))[v] == if (v as int) < n then 1 else 0
  {
    if n > 0 {
      RangeCount(n - 1, v);
      assert Range(n) == Range(n - 1) + [(n - 1) as byte];
      assert multiset(Range(n)) == multiset(Range(n - 1)) + multiset{(n - 1) as byte};
    }
  }

  /** After any number of steps the table is a permutation of 0..255. */
  lemma {:induction false} ShuffledIsPermutation(random: seq<real>, n: nat)
    requires ValidSource(random) && n <= DRAW_COUNT
    ensures IsPermutation(Shuffled(random, n))
  {
    if n > 0 {
      ShuffledIsPermutation(random, n - 1);
    }
  }

  /** A permutation holds every byte value, each exactly once, at distinct
      positions. */
  lemma PermutationExactlyOnce(s: seq<byte>)
    requires IsPermutation(s)
    ensures |s| == TABLE_SIZE
    ensures forall v: byte :: multiset(s)[v] == 1
    ensures forall v: byte :: v in s
    ensures forall a, b :: 0 <= a < b < |s| ==> s[a] != s[b]
  {
    assert |s| == |multiset(s)| == |multiset(Identity())| == TABLE_SIZE;
    forall v: byte ensures multiset(s)[v] == 1 {
      RangeCount(TABLE_SIZE, v);
    }
    forall v: byte ensures v in s {
      assert multiset(s)[v] == 1;
    }
    forall a, b | 0 <= a < b < |s| ensures s[a] != s[b] {
      RepeatedValueCount(s, a, b);
    }
  }

  /** A value stored at two positions occurs at least twice. */
  lemma RepeatedValueCount(s: seq<byte>, a: int, b: int)
    requires 0 <= a < b < |s|
    ensures s[a] == s[b] ==> multiset(s)[s[a]] >= 2
  {
    assert s == s[..b] + s[b..];
    assert s[a] in s[..b];
    assert s[b] in s[b..];
    assert multiset(s)[s[a]] == multiset(s[..b])[s[a]] + multiset(s[b..])[s[a]];
  }

  /** The built table is a bijection on 0..255, whatever the source. */
  lemma PermutationTableIsBijection(random: seq<real>)
    requires ValidSource(random)
    ensures forall v: byte :: v in PermutationTable(random)
    ensures forall a, b :: 0 <= a < b < TABLE_SIZE ==> PermutationTable(random)[a] != PermutationTable(random)[b]
  {
    ShuffledIsPermutation(random, DRAW_COUNT);
    PermutationExactlyOnce(PermutationTable(random));
  }

  /** A source that always returns 0 draws offset 0 at every step, so every
      swap is a no-op and the table stays the identity. */
  lemma {:induction false} ZeroSourceGivesIdentity(random: seq<real>, n: nat)
    requires ValidSource(random) && n <= DRAW_COUNT
    requires forall k :: 0 <= k < DRAW_COUNT ==> random[k] == 0.0
    ensures Shuffled(random, n) == Identity()
    ensures forall k :: 0 <= k < TABLE_SIZE ==> Shuffled(random, n)[k] == k as byte
  {
    if n > 0 {
      ZeroSourceGivesIdentity(random, n - 1);
      assert Draw(random[n - 1], n - 1) == 0;
    }
  }

  /** Steps after the first never touch position 0, so the first entry of the
      table is the first draw. */
  lemma {:induction false} FirstEntryIsFirstDraw(random: seq<real>, n: nat)
    requires ValidSource(random) && 1 <= n <= DRAW_COUNT
    ensures Shuffled(random, n)[0] as int == Draw(random[0], 0)
  {
    if n > 1 {
      FirstEntryIsFirstDraw(random, n - 1);
    }
  }

  /** Two sources whose first draws differ give different tables. */
  lemma FirstDrawDistinguishes(random: seq<real>, other: seq<real>)
    requires ValidSource(random) && ValidSource(other)
    requires Draw(random[0], 0) != Draw(other[0], 0)
    ensures PermutationTable(random) != PermutationTable(other)
  {
    FirstEntryIsFirstDraw(random, DRAW_COUNT);
    FirstEntryIsFirstDraw(other, DRAW_COUNT);
  }

  // ----- Properties of the expansion -----

  /** Both halves of `perm` repeat the base table, `permMod12` holds gradient
      numbers below 12, and the tables meet the evaluator's invariant. */
  lemma ExpandedProperties(p: seq<byte>, perm: seq<byte>, permMod12: seq<byte>)
    requires Expanded(p, perm, permMod12)
    ensures WellFormed(perm, permMod12)
    ensures perm[..TABLE_SIZE] == p && perm[TABLE_SIZE..] == p
    ensures forall k :: 0 <= k < TABLE_SIZE ==> perm[k] == perm[k + TABLE_SIZE]
    ensures forall k :: 0 <= k < DOUBLED_SIZE ==> permMod12[k] < 12
  {
    forall k | 0 <= k < TABLE_SIZE
      ensures perm[k] == p[k] && perm[k + TABLE_SIZE] == p[k]
    {
      assert Mask(k) == k && Mask(k + TABLE_SIZE) == k;
    }
    assert perm[..TABLE_SIZE] == p;
    assert perm[TABLE_SIZE..] == p;
  }

  /** The tables expanded from the identity table: `perm[k] == k & 255` and
      `permMod12[k] == (k & 255) % 12`. */
  lemma IdentityTables(perm: seq<byte>, permMod12: seq<byte>)
    requires Expanded(Identity(), perm, permMod12)
    ensures forall k :: 0 <= k < DOUBLED_SIZE ==> perm[k] as int == Mask(k)
    ensures forall k :: 0 <= k < DOUBLED_SIZE ==> permMod12[k] as int == Mask(k) % 12
  {
    forall k | 0 <= k < DOUBLED_SIZE
      ensures perm[k] as int == Mask(k) && permMod12[k] as int == Mask(k) % 12
    {
      assert perm[k] == Identity()[Mask(k)];
    }
  }
}
