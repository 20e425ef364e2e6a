/** Weighted variants: which variant a 32-bit hash selects, and how many hashes select each. */
module Variants {
  import opened Options
  import opened Flags

  const U64_MAX := 0xFFFF_FFFF_FFFF_FFFF
  const HASHES := 0x1_0000_0000

  type u64 = x: int | 0 <= x <= U64_MAX

  function Min(a: int, b: int): int {
    if a <= b then a else b
  }

  function SaturatingAdd(a: u64, b: u64): (r: u64)
    ensures r == Min(a + b, U64_MAX)
  {
    if a + b <= U64_MAX then a + b else U64_MAX
  }

  /** The exact (unbounded) sum of the weights. */
  function Weight(vs: seq<WeightedVariant>): nat {
    if |vs| == 0 then 0 else Weight(vs[..|vs| - 1]) + vs[|vs| - 1].weight
  }

  /** Where the slice of variant `i` starts on the line of all weights. */
  function Start(vs: seq<WeightedVariant>, i: nat): nat
    requires i <= |vs|
  {
    Weight(vs[..i])
  }

  lemma StartStep(vs: seq<WeightedVariant>, i: nat)
    requires i < |vs|
    ensures Start(vs, i + 1) == Start(vs, i) + vs[i].weight
  {
    assert vs[..i + 1][..i] == vs[..i];
  }

  lemma {:induction false} StartMonotone(vs: seq<WeightedVariant>, i: nat, j: nat)
    requires i <= j <= |vs|
    ensures Start(vs, i) <= Start(vs, j)
    decreases j - i
  {
    if i < j {
      StartStep(vs, i);
      StartMonotone(vs, i + 1, j);
    }
  }

  /** The saturated total that the bucket is drawn from. */
  function Total(vs: seq<WeightedVariant>): u64 {
    Min(Weight(vs), U64_MAX)
  }

  /** Modulo for totals that fit 32 bits, a 32-bit fixed-point scaling above that. */
  function Bucket(hash: u32, total: u64): int
    requires total > 0
  {
    if total <= U32_MAX then hash % total else hash * total / HASHES
  }

  lemma BucketBelowTotal(hash: u32, total: u64)
    requires total > 0
    ensures 0 <= Bucket(hash, total) < total
  {
    if total > U32_MAX {
      assert hash * total < HASHES * total by { MulStrict(hash, HASHES, total); }
      DivBelow(hash * total, HASHES, total);
    }
  }

  lemma MulStrict(a: int, b: int, c: int)
    requires a < b && c > 0
    ensures a * c < b * c
  {
  }

  lemma DivBelow(x: int, d: int, q: int)
    requires d > 0 && 0 <= x < d * q
    ensures 0 <= x / d < q
  {
    DivBounds(x, d);
    if x / d >= q {
      MulAtLeast(d, q, x / d);
    }
  }

  lemma MulAtLeast(d: int, a: int, b: int)
    requires d > 0 && a <= b
    ensures d * a <= d * b
  {
  }

  /** Variant `i` owns exactly the buckets of its slice. */
  predicate Owns(vs: seq<WeightedVariant>, i: nat, bucket: int)
    requires i < |vs|
  {
    Start(vs, i) <= bucket < Start(vs, i + 1)
  }

  lemma OwnerIsUnique(vs: seq<WeightedVariant>, i: nat, j: nat, bucket: int)
    requires i < |vs| && j < |vs| && Owns(vs, i, bucket) && Owns(vs, j, bucket)
    ensures i == j
  {
    if i < j {
      StartMonotone(vs, i + 1, j);
    } else if j < i {
      StartMonotone(vs, j + 1, i);
    }
  }

  /** The variant a hash selects: the owner of its bucket. */
  function PickIndex(vs: seq<WeightedVariant>, hash: u32): (i: nat)
    requires Total(vs) > 0
    ensures i < |vs| && Owns(vs, i, Bucket(hash, Total(vs)))
    ensures vs[i].weight > 0
  {
    BucketBelowTotal(hash, Total(vs));
    assert vs[..|vs|] == vs;
    Owner(vs, Bucket(hash, Total(vs)), |vs|)
  }

  function Owner(vs: seq<WeightedVariant>, bucket: int, n: nat): (i: nat)
    requires n <= |vs| && 0 <= bucket < Start(vs, n)
    ensures i < |vs| && Owns(vs, i, bucket)
    ensures vs[i].weight > 0
  {
    StartStep(vs, n - 1);
    if Start(vs, n - 1) <= bucket then n - 1 else Owner(vs, bucket, n - 1)
  }

  function PickedValue(vs: seq<WeightedVariant>, hash: u32): FlagValue {
    if Total(vs) > 0 then vs[PickIndex(vs, hash)].value
    else if |vs| > 0 then vs[0].value
    else NullValue
  }

  /** The bucketing loop, in saturating 64-bit arithmetic. With a non-zero total it returns from
      inside the loop: the guard value after the loop is never used. */
  method PickWeightedVariant(o: Oracle, flagKey: string, userKey: string, variants: seq<WeightedVariant>)
    returns (value: FlagValue)
    ensures value == PickedValue(variants, o.hash(flagKey + ":" + userKey + ":variant"))
  {
    var total: u64 := 0;
    for n := 0 to |variants|
      invariant total == Min(Start(variants, n), U64_MAX)
    {
      StartStep(variants, n);
      total := SaturatingAdd(total, variants[n].weight);
    }
    assert variants[..|variants|] == variants;
    if total == 0 {
      return if |variants| > 0 then variants[0].value else NullValue;
    }

    var hash := o.hash(flagKey + ":" + userKey + ":variant");
    BucketBelowTotal(hash, total);
    var bucket: u64;
    if total <= U32_MAX {
      bucket := hash % total;
    } else {
      var scaled := hash * total / HASHES;
      bucket := scaled;  // it fits: the fallback of the source's checked narrowing is never taken
    }

    var cumulative: u64 := 0;
    for n := 0 to |variants|
      invariant cumulative == Min(Start(variants, n), U64_MAX)
      invariant Start(variants, n) <= bucket
    {
      StartStep(variants, n);
      cumulative := SaturatingAdd(cumulative, variants[n].weight);
      if bucket < cumulative {
        OwnerIsUnique(variants, n, PickIndex(variants, hash), bucket);
        return variants[n].value;
      }
    }
    assert false;
  }

  // ---- How many of the 2^32 hashes select a variant ----

  /** The number of hashes below `n` whose bucket lies in `[lo, hi)`. */
  function CountIn(total: u64, lo: int, hi: int, n: nat): nat
    requires total > 0 && n <= HASHES
  {
    if n == 0 then 0
    else CountIn(total, lo, hi, n - 1) + (if lo <= Bucket(n - 1, total) < hi then 1 else 0)
  }

  /** The number of hashes that select variant `i`. */
  function Share(vs: seq<WeightedVariant>, i: nat): nat
    requires Total(vs) > 0 && i < |vs|
  {
    CountPicks(vs, i, HASHES)
  }

  function CountPicks(vs: seq<WeightedVariant>, i: nat, n: nat): nat
    requires Total(vs) > 0 && i < |vs| && n <= HASHES
  {
    if n == 0 then 0
    else CountPicks(vs, i, n - 1) + (if PickIndex(vs, n - 1) == i then 1 else 0)
  }

  lemma {:induction false} PicksAreBuckets(vs: seq<WeightedVariant>, i: nat, n: nat)
    requires Total(vs) > 0 && i < |vs| && n <= HASHES
    ensures CountPicks(vs, i, n) == CountIn(Total(vs), Start(vs, i), Start(vs, i + 1), n)
  {
    if n > 0 {
      PicksAreBuckets(vs, i, n - 1);
      if Owns(vs, i, Bucket(n - 1, Total(vs))) {
        OwnerIsUnique(vs, i, PickIndex(vs, n - 1), Bucket(n - 1, Total(vs)));
      }
    }
  }

  function Clamp(x: int, lo: int, hi: int): int {
    if x < lo then lo else if x > hi then hi else x
  }

  /** Within one period the hashes in `[lo, hi)` are counted by clamping; a whole period holds `hi - lo`. */
  lemma {:induction false} ModuloCount(total: u64, lo: int, hi: int, q: nat, r: nat)
    requires 0 < total <= U32_MAX && 0 <= lo <= hi <= total && r <= total && q * total + r <= HASHES
    ensures CountIn(total, lo, hi, q * total + r) == q * (hi - lo) + Clamp(r, lo, hi) - lo
    decreases q, r
  {
    if r > 0 {
      ModuloCount(total, lo, hi, q, r - 1);
      var h := q * total + (r - 1);
      assert h % total == r - 1 by { ModOf(q, total, r - 1); }
    } else if q > 0 {
      assert q * total == (q - 1) * total + total;
      ModuloCount(total, lo, hi, q - 1, total);
      assert q * (hi - lo) == (q - 1) * (hi - lo) + (hi - lo);
    }
  }

  lemma ModOf(q: int, d: int, r: int)
    requires 0 <= r < d
    ensures (q * d + r) % d == r
    ensures (q * d + r) / d == q
  {
    var x := q * d + r;
    assert x == d * (x / d) + x % d;
    if x / d < q {
      MulAtLeast(d, x / d + 1, q);
    } else if x / d > q {
      MulAtLeast(d, q + 1, x / d);
    }
  }

  lemma ModuloCountAll(total: u64, lo: int, hi: int)
    requires 0 < total <= U32_MAX && 0 <= lo <= hi <= total
    ensures (HASHES / total) * (hi - lo) <= CountIn(total, lo, hi, HASHES)
                                         <= (HASHES / total) * (hi - lo) + (hi - lo)
  {
    var q, r := HASHES / total, HASHES % total;
    EuclideanForm(HASHES, total);
    ModuloCount(total, lo, hi, q, r);
  }

  lemma EuclideanForm(x: nat, d: nat)
    requires d > 0
    ensures (x / d) * d + x % d == x && 0 <= x % d < d && 0 <= x / d
  {
  }

  lemma Distribute(a: int, b: int, c: int)
    ensures a * (b + c) == a * b + a * c
    ensures (b + c) * a == b * a + c * a
    ensures a * (b - c) == a * b - a * c
    ensures (b - c) * a == b * a - c * a
  {
  }

  /** The facts about the slice of variant `i` that the share bounds need. */
  lemma SliceOf(vs: seq<WeightedVariant>, i: nat)
    requires i < |vs|
    ensures Start(vs, i + 1) == Start(vs, i) + vs[i].weight <= Weight(vs)
  {
    StartStep(vs, i);
    StartMonotone(vs, i + 1, |vs|);
    assert vs[..|vs|] == vs;
  }

  /** The share bound of the modulo branch. */
  lemma ModuloShare(vs: seq<WeightedVariant>, i: nat)
    requires 0 < Total(vs) <= U32_MAX && i < |vs|
    ensures var cycles := HASHES / Total(vs);
            vs[i].weight * cycles <= Share(vs, i) <= vs[i].weight * (cycles + 1)
  {
    var w, q := vs[i].weight, HASHES / Total(vs);
    SliceOf(vs, i);
    PicksAreBuckets(vs, i, HASHES);
    ModuloCountAll(Total(vs), Start(vs, i), Start(vs, i + 1));
    Distribute(w, q, 1);
    assert q * w == w * q;
  }

  /** The least hash whose scaled bucket reaches `x`. */
  function Threshold(total: u64, x: int): int
    requires total > 0
  {
    (x * HASHES + total - 1) / total
  }

  lemma ThresholdIsExact(total: u64, x: int, hash: u32)
    requires total > U32_MAX && x >= 0
    ensures x <= Bucket(hash, total) <==> Threshold(total, x) <= hash
  {
    var b := Bucket(hash, total);
    var t := Threshold(total, x);
    DivBounds(hash * total, HASHES);
    DivBounds(x * HASHES + total - 1, total);
    if x <= b {
      MulAtLeast(HASHES, x, b);
      if t > hash { MulAtLeast(total, hash + 1, t); }
    } else {
      MulAtLeast(HASHES, b + 1, x);
      if t <= hash { MulAtLeast(total, t, hash); }
    }
  }

  lemma DivBounds(x: int, d: int)
    requires d > 0
    ensures d * (x / d) <= x < d * (x / d) + d
  {
  }

  lemma {:induction false} ScaledCount(total: u64, lo: int, hi: int, n: nat)
    requires total > U32_MAX && 0 <= lo <= hi <= total && n <= HASHES
    requires 0 <= Threshold(total, lo) <= Threshold(total, hi)
    ensures CountIn(total, lo, hi, n)
         == Clamp(n, Threshold(total, lo), Threshold(total, hi)) - Threshold(total, lo)
  {
    if n > 0 {
      ScaledCount(total, lo, hi, n - 1);
      ThresholdIsExact(total, lo, n - 1);
      ThresholdIsExact(total, hi, n - 1);
    }
  }

  /** A threshold is `x * 2^32 / T` rounded up. */
  lemma ThresholdRounds(total: u64, x: int)
    requires total > 0
    ensures x * HASHES <= total * Threshold(total, x) < x * HASHES + total
  {
    DivBounds(x * HASHES + total - 1, total);
  }

  lemma ThresholdOrder(total: u64, x: int, y: int)
    requires total > 0 && 0 <= x <= y <= total
    ensures 0 <= Threshold(total, x) <= Threshold(total, y) <= HASHES
  {
    ThresholdRounds(total, x);
    ThresholdRounds(total, y);
    RoundedOrder(total, 0, x * HASHES, 0, Threshold(total, x));
    RoundedOrder(total, x * HASHES, y * HASHES, Threshold(total, x), Threshold(total, y));
    RoundedOrder(total, y * HASHES, total * HASHES, Threshold(total, y), HASHES);
  }

  lemma RoundedOrder(d: int, x: int, y: int, tx: int, ty: int)
    requires d > 0 && x <= y
    requires x <= d * tx < x + d && y <= d * ty < y + d
    ensures tx <= ty
  {
    if tx > ty {
      MulAtLeast(d, ty + 1, tx);
      Distribute(d, ty, 1);
    }
  }

  /** The share bound of the scaled branch: the number of hashes differs from the ideal
      `w * 2^32 / T` by less than one. `w` is the part of the variant's slice below the total, which is
      its whole weight unless the sum of all weights saturates. */
  lemma ScaledShare(vs: seq<WeightedVariant>, i: nat)
    requires Total(vs) > U32_MAX && i < |vs|
    ensures var w := Min(Start(vs, i + 1), Total(vs)) - Min(Start(vs, i), Total(vs));
            w * HASHES - Total(vs) < Total(vs) * Share(vs, i) < w * HASHES + Total(vs)
    ensures Weight(vs) <= U64_MAX ==>
              Min(Start(vs, i + 1), Total(vs)) - Min(Start(vs, i), Total(vs)) == vs[i].weight
  {
    SliceOf(vs, i);
    PicksAreBuckets(vs, i, HASHES);
    ClippedCount(Total(vs), Start(vs, i), Start(vs, i + 1), HASHES);
    ScaledCountAll(Total(vs), Min(Start(vs, i), Total(vs)), Min(Start(vs, i + 1), Total(vs)));
  }

  lemma ScaledCountAll(total: u64, lo: int, hi: int)
    requires total > U32_MAX && 0 <= lo <= hi <= total
    ensures (hi - lo) * HASHES - total < total * CountIn(total, lo, hi, HASHES) < (hi - lo) * HASHES + total
  {
    ThresholdOrder(total, lo, hi);
    ScaledCount(total, lo, hi, HASHES);
    ThresholdRounds(total, lo);
    ThresholdRounds(total, hi);
    Distribute(total, Threshold(total, hi), Threshold(total, lo));
  }

  /** No bucket reaches the total, so slices can be clipped there. */
  lemma {:induction false} ClippedCount(total: u64, lo: int, hi: int, n: nat)
    requires total > 0 && n <= HASHES
    ensures CountIn(total, lo, hi, n) == CountIn(total, Min(lo, total), Min(hi, total), n)
  {
    if n > 0 {
      ClippedCount(total, lo, hi, n - 1);
      BucketBelowTotal(n - 1, total);
    }
  }

  // ---- Scaling every weight by the same factor ----

  predicate ScaledBy(vs: seq<WeightedVariant>, ws: seq<WeightedVariant>, c: nat) {
    |ws| == |vs| && forall i :: 0 <= i < |vs| ==> ws[i].weight == c * vs[i].weight
  }

  lemma {:induction false} ScaledStart(vs: seq<WeightedVariant>, ws: seq<WeightedVariant>, c: nat, i: nat)
    requires ScaledBy(vs, ws, c) && i <= |vs|
    ensures Start(ws, i) == c * Start(vs, i)
  {
    if i > 0 {
      ScaledStart(vs, ws, c, i - 1);
      StartStep(vs, i - 1);
      StartStep(ws, i - 1);
      assert c * (Start(vs, i - 1) + vs[i - 1].weight) == c * Start(vs, i - 1) + c * vs[i - 1].weight;
    }
  }

  lemma ScaledWeight(vs: seq<WeightedVariant>, ws: seq<WeightedVariant>, c: nat)
    requires c > 0 && ScaledBy(vs, ws, c)
    ensures Weight(ws) == c * Weight(vs) >= Weight(vs)
  {
    assert vs[..|vs|] == vs && ws[..|ws|] == ws;
    ScaledStart(vs, ws, c, |vs|);
    if Weight(vs) > 0 { MulAtLeast(Weight(vs), 1, c); }
  }

  /** In the scaled branch only the ratios of the weights matter, hash by hash. */
  lemma ScalingKeepsPicks(vs: seq<WeightedVariant>, ws: seq<WeightedVariant>, c: nat, hash: u32)
    requires c > 0 && ScaledBy(vs, ws, c)
    requires Weight(vs) > U32_MAX && Weight(ws) <= U64_MAX
    ensures Total(vs) > U32_MAX && Total(ws) > U32_MAX
    ensures PickIndex(ws, hash) == PickIndex(vs, hash)
  {
    hide PickIndex, Start, Weight;
    ScaledWeight(vs, ws, c);
    var i := PickIndex(vs, hash);
    ScaledStart(vs, ws, c, i);
    ScaledStart(vs, ws, c, i + 1);
    var b, d := Bucket(hash, Total(vs)), Bucket(hash, Total(ws));
    ScaledBucket(hash, Total(vs), c, b, d);
    MulAtLeast(c, Start(vs, i), b);
    MulAtLeast(c, b + 1, Start(vs, i + 1));
    OwnerIsUnique(ws, i, PickIndex(ws, hash), d);
  }

  lemma ScaledBucket(hash: u32, total: int, c: int, b: int, d: int)
    requires c > 0 && total > 0
    requires b == hash * total / HASHES && d == hash * (c * total) / HASHES
    ensures c * b <= d < c * (b + 1)
  {
    assert hash * (c * total) == c * (hash * total);
    DivBounds(hash * total, HASHES);
    DivBounds(c * (hash * total), HASHES);
    ScaledDiv(hash * total, c, b, d);
  }

  lemma ScaledDiv(x: int, c: int, b: int, d: int)
    requires c > 0 && x >= 0
    requires HASHES * b <= x < HASHES * b + HASHES
    requires HASHES * d <= c * x < HASHES * d + HASHES
    ensures c * b <= d < c * (b + 1)
  {
    assert c * (HASHES * b) <= c * x by { MulAtLeast(c, HASHES * b, x); }
    assert c * x < c * (HASHES * b + HASHES) by { MulStrict(x, HASHES * b + HASHES, c); }
    assert c * (HASHES * b) == HASHES * (c * b);
    assert c * (HASHES * b + HASHES) == HASHES * (c * (b + 1));
  }

  /** Some variant carries all the weight. */
  predicate OneVariantHasAllWeight(vs: seq<WeightedVariant>) {
    exists i :: 0 <= i < |vs| && vs[i].weight == Weight(vs)
  }

  /** In the modulo branch it is different: scaling the weights keeps every user's variant exactly when
      the factor is one or there is nothing to choose. */
  lemma ScalingInModuloBranch(vs: seq<WeightedVariant>, ws: seq<WeightedVariant>, c: nat)
    requires c > 0 && ScaledBy(vs, ws, c)
    requires 0 < Weight(vs) <= U32_MAX
    ensures 0 < Total(vs) <= U32_MAX && 0 < Total(ws) == Weight(ws)
    ensures (forall hash: u32 :: PickIndex(ws, hash) == PickIndex(vs, hash))
       <==> c == 1 || OneVariantHasAllWeight(vs)
  {
    ScaledWeight(vs, ws, c);
    NoSaturation(vs, ws, c);
    if c == 1 {
      forall hash: u32 ensures PickIndex(ws, hash) == PickIndex(vs, hash) {
        UnscaledPick(vs, ws, hash);
      }
    } else if OneVariantHasAllWeight(vs) {
      var i :| 0 <= i < |vs| && vs[i].weight == Weight(vs);
      forall hash: u32 ensures PickIndex(ws, hash) == PickIndex(vs, hash) {
        OnlyPositive(vs, i, PickIndex(vs, hash));
        OnlyPositive(ws, i, PickIndex(ws, hash));
      }
    } else {
      SomePickChanges(vs, ws, c);
    }
  }

  /** Weights have 32 bits, so a factor cannot take a 32-bit total past 64 bits. */
  lemma NoSaturation(vs: seq<WeightedVariant>, ws: seq<WeightedVariant>, c: nat)
    requires c > 0 && ScaledBy(vs, ws, c) && 0 < Weight(vs) <= U32_MAX
    ensures Weight(ws) <= U64_MAX
  {
    ScaledWeight(vs, ws, c);
    var i := PickIndex(vs, 0);
    MulAtLeast(c, 1, vs[i].weight);
    MulAtLeast(c, Weight(vs), U32_MAX);
  }

  lemma UnscaledPick(vs: seq<WeightedVariant>, ws: seq<WeightedVariant>, hash: u32)
    requires ScaledBy(vs, ws, 1) && Total(vs) > 0 && Total(ws) == Total(vs)
    ensures PickIndex(ws, hash) == PickIndex(vs, hash)
  {
    var i := PickIndex(vs, hash);
    ScaledStart(vs, ws, 1, i);
    ScaledStart(vs, ws, 1, i + 1);
    OwnerIsUnique(ws, i, PickIndex(ws, hash), Bucket(hash, Total(ws)));
  }

  lemma OnlyPositive(vs: seq<WeightedVariant>, i: nat, j: nat)
    requires i < |vs| && j < |vs| && vs[i].weight == Weight(vs) && vs[j].weight > 0
    ensures i == j
  {
    assert vs[..|vs|] == vs;
    StartStep(vs, i);
    StartStep(vs, j);
    if i < j {
      StartMonotone(vs, i + 1, j);
      StartMonotone(vs, j + 1, |vs|);
    } else if j < i {
      StartMonotone(vs, j + 1, i);
      StartMonotone(vs, i + 1, |vs|);
    }
  }

  /** In either branch a hash below a part of the total has its bucket below the same multiple of the hash. */
  lemma BucketOfSmallHash(hash: u32, total: u64, c: nat)
    requires c > 1 && 0 < hash < total <= c * U32_MAX
    ensures 0 <= Bucket(hash, total) < c * hash
  {
    MulAtLeast(hash, 2, c);
    if total <= U32_MAX {
      ModOf(0, total, hash);
    } else {
      MulAtLeast(hash, total, c * U32_MAX);
      assert hash * (c * U32_MAX) == (c * hash) * U32_MAX;
      MulStrict(U32_MAX, HASHES, c * hash);
      DivBelow(hash * total, HASHES, c * hash);
    }
  }

  /** The first slice that is not empty starts at zero and is not everything. */
  lemma FirstSlice(vs: seq<WeightedVariant>) returns (i: nat)
    requires 0 < Total(vs) <= U32_MAX && !OneVariantHasAllWeight(vs)
    ensures i < |vs| && Start(vs, i) == 0 && 0 < Start(vs, i + 1) < Weight(vs)
  {
    hide Bucket, Weight;
    i := PickIndex(vs, 0);
    FirstBucket(Total(vs));
    StartStep(vs, i);
    StartMonotone(vs, i + 1, |vs|);
    assert vs[..|vs|] == vs;
  }

  lemma FirstBucket(total: u64)
    requires 0 < total <= U32_MAX
    ensures Bucket(0, total) == 0
  {
    ModOf(0, total, 0);
  }

  /** The hash just past the first slice is outside it, */
  lemma PastFirstSlice(vs: seq<WeightedVariant>, i: nat, hash: u32)
    requires 0 < Total(vs) <= U32_MAX && i < |vs| && hash == Start(vs, i + 1) < Weight(vs)
    ensures PickIndex(vs, hash) != i
  {
    hide Weight, Start, PickIndex;
    ModOf(0, Total(vs), hash);
  }

  /** and moves back into it when the weights are multiplied. */
  lemma BackInFirstSlice(vs: seq<WeightedVariant>, ws: seq<WeightedVariant>, c: nat, i: nat, hash: u32)
    requires c > 1 && ScaledBy(vs, ws, c) && 0 < Weight(vs) <= U32_MAX
    requires i < |vs| && Start(vs, i) == 0 && 0 < hash == Start(vs, i + 1) < Weight(vs)
    ensures 0 < Total(ws) == Weight(ws) && PickIndex(ws, hash) == i
  {
    hide Bucket, PickIndex, Weight, Start;
    ScaledWeight(vs, ws, c);
    NoSaturation(vs, ws, c);
    ScaledStart(vs, ws, c, i);
    ScaledStart(vs, ws, c, i + 1);
    ScaledBounds(hash, Weight(vs), c);
    BucketOfSmallHash(hash, Total(ws), c);
    OwnerIsUnique(ws, i, PickIndex(ws, hash), Bucket(hash, Total(ws)));
  }

  lemma ScaledBounds(t: int, m: int, c: int)
    requires c > 1 && 0 < t < m <= U32_MAX
    ensures t < c * t <= c * m <= c * U32_MAX
  {
    MulAtLeast(t, 2, c);
    MulAtLeast(c, t, m);
    MulAtLeast(c, m, U32_MAX);
  }

  lemma SomePickChanges(vs: seq<WeightedVariant>, ws: seq<WeightedVariant>, c: nat)
    requires c > 1 && ScaledBy(vs, ws, c) && 0 < Weight(vs) <= U32_MAX
    requires 0 < Total(vs) <= U32_MAX && 0 < Total(ws)
    requires !OneVariantHasAllWeight(vs)
    ensures exists hash: u32 :: PickIndex(ws, hash) != PickIndex(vs, hash)
  {
    hide Bucket, PickIndex, Weight, Start, ScaledBy, Total;
    var i := FirstSlice(vs);
    var hash := Start(vs, i + 1);
    PastFirstSlice(vs, i, hash);
    BackInFirstSlice(vs, ws, c, i, hash);
  }

  /** The example in the source comment: the same ratios, a different variant for hash 65. */
  lemma SameRatiosDifferentPick(a: FlagValue, b: FlagValue, c: FlagValue)
    ensures var big := [WeightedVariant(60, a), WeightedVariant(30, b), WeightedVariant(10, c)];
            var small := [WeightedVariant(6, a), WeightedVariant(3, b), WeightedVariant(1, c)];
            ScaledBy(small, big, 10) && Total(big) > 0 && Total(small) > 0
            && PickIndex(big, 65) == 1 && PickIndex(small, 65) == 0
  {
    var big := [WeightedVariant(60, a), WeightedVariant(30, b), WeightedVariant(10, c)];
    var small := [WeightedVariant(6, a), WeightedVariant(3, b), WeightedVariant(1, c)];
    ThreeStarts(big);
    ThreeStarts(small);
    OwnerIsUnique(big, 1, PickIndex(big, 65), 65);
    OwnerIsUnique(small, 0, PickIndex(small, 65), 5);
  }

  lemma ThreeStarts(vs: seq<WeightedVariant>)
    requires |vs| == 3
    ensures Start(vs, 0) == 0 && Start(vs, 1) == vs[0].weight
    ensures Start(vs, 2) == vs[0].weight + vs[1].weight
    ensures Start(vs, 3) == Weight(vs) == vs[0].weight + vs[1].weight + vs[2].weight
  {
    StartStep(vs, 0);
    StartStep(vs, 1);
    StartStep(vs, 2);
    assert vs[..3] == vs;
  }
}
