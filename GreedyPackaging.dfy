/**
 * The greedy packaging decomposition of lib/quotationformula.ts:49-67.
 *
 * `Pass` is the main loop (one step per listed size, largest-first when the
 * list is sorted that way), `Packaging` adds the top-up of one container of
 * the last listed size for a positive leftover, and the method
 * `CalculatePackaging` is the loop itself, proved to compute `Packaging`.
 * A breakdown maps a container size to a positive number of containers.
 */
module GreedyPackaging {
  import opened RealArith

  type Breakdown = map<real, nat>

  /** No size is zero (a zero size makes the source divide by zero). */
  predicate NonZero(sizes: seq<real>)
  {
    forall i :: 0 <= i < |sizes| ==> sizes[i] != 0.0
  }

  predicate AllPositive(sizes: seq<real>)
  {
    forall i :: 0 <= i < |sizes| ==> sizes[i] > 0.0
  }

  /**
   * The source returns a numeric breakdown: no size is zero, and a positive
   * quantity has at least one size to be topped up with.
   */
  predicate CanPackage(litres: real, sizes: seq<real>)
  {
    NonZero(sizes) && (litres <= 0.0 || |sizes| > 0)
  }

  /** The state of the greedy loop: what is still to be packed, and the counts so far. */
  datatype PassState = PassState(remaining: real, breakdown: Breakdown)

  /** One iteration of the loop for one size: take as many whole containers as fit. */
  function Step(p: PassState, size: real): PassState
    requires size != 0.0
  {
    var count := (p.remaining / size).Floor;
    if count > 0 then PassState(p.remaining - count as real * size, p.breakdown[size := count])
    else p
  }

  /** The loop's state after it has processed every size of `sizes`, in order. */
  function Pass(litres: real, sizes: seq<real>): (r: PassState)
    requires NonZero(sizes)
    ensures forall k :: k in r.breakdown ==> k in sizes && r.breakdown[k] > 0
    decreases |sizes|
  {
    if sizes == [] then PassState(litres, map[])
    else
      var init := sizes[..|sizes| - 1];
      assert forall k :: k in init ==> k in sizes;
      Step(Pass(litres, init), sizes[|sizes| - 1])
  }

  /** The breakdown `calculatePackaging(litres, sizes)` returns. */
  function Packaging(litres: real, sizes: seq<real>): (b: Breakdown)
    requires CanPackage(litres, sizes)
    ensures forall k :: k in b ==> k in sizes && b[k] > 0
    ensures forall k :: k in Pass(litres, sizes).breakdown ==> k in b && b[k] >= Pass(litres, sizes).breakdown[k]
  {
    var p := Pass(litres, sizes);
    if p.remaining > 0.0 then
      var smallest := sizes[|sizes| - 1];
      p.breakdown[smallest := Count(p.breakdown, smallest) + 1]
    else
      p.breakdown
  }

  /** The number of containers of `size`, 0 when the size is absent (`breakdown[size] || 0`). */
  function Count(b: Breakdown, size: real): (n: nat)
    ensures n > 0 ==> size in b && n == b[size]
    ensures size in b ==> n == b[size]
  {
    if size in b then b[size] else 0
  }

  /** The litres held by `count` containers of `size` litres each. */
  function Volume(size: real, count: nat): real
  {
    size * count as real
  }

  /** One more container adds exactly its size. */
  lemma VolumeOneMore(size: real, n: nat)
    ensures Volume(size, n + 1) == Volume(size, n) + size
    ensures Volume(size, 0) == 0.0
  {
  }

  /** The total litres a breakdown holds: the sum of size times count over its entries. */
  ghost function Capacity(b: Breakdown): real
    decreases b.Keys
  {
    if b == map[] then 0.0
    else
      HasKey(b);
      var k :| k in b;
      Volume(k, b[k]) + Capacity(b - {k})
  }

  lemma HasKey(b: Breakdown)
    ensures b == map[] || exists k :: k in b
  {
    if forall k :: k !in b {
      assert b == map[];
    }
  }

  /** A breakdown over positive sizes with at least one entry holds a positive capacity. */
  lemma {:induction false} CapacityPositive(b: Breakdown)
    requires forall k :: k in b ==> k > 0.0 && b[k] > 0
    ensures Capacity(b) >= 0.0
    ensures b != map[] ==> Capacity(b) > 0.0
    decreases b.Keys
  {
    if b != map[] {
      HasKey(b);
      var k0 :| k0 in b;
      CapacityRemove(b, k0);
      CapacityPositive(b - {k0});
      MulPositive(k0, b[k0] as real);
      assert Volume(k0, b[k0]) > 0.0;
    }
  }

  /** The capacity can be split at any entry. */
  lemma {:induction false} CapacityRemove(b: Breakdown, k: real)
    requires k in b
    ensures Capacity(b) == Volume(k, b[k]) + Capacity(b - {k})
    decreases b.Keys
  {
    var k0 :| k0 in b && Capacity(b) == Volume(k0, b[k0]) + Capacity(b - {k0});
    if k0 != k {
      var without0, withoutK := b - {k0}, b - {k};
      assert k in without0 && without0[k] == b[k];
      assert k0 in withoutK && withoutK[k0] == b[k0];
      CapacityRemove(without0, k);
      CapacityRemove(withoutK, k0);
      var rest := without0 - {k};
      assert withoutK - {k0} == rest;
    }
  }

  /** Setting one entry changes the capacity by that entry alone. */
  lemma CapacityUpdate(b: Breakdown, k: real, n: nat)
    ensures Capacity(b[k := n]) == Capacity(b - {k}) + Volume(k, n)
    ensures k !in b ==> Capacity(b[k := n]) == Capacity(b) + Volume(k, n)
    ensures k in b ==> Capacity(b[k := n]) == Capacity(b) + Volume(k, n) - Volume(k, b[k])
  {
    CapacityRemove(b[k := n], k);
    assert b[k := n] - {k} == b - {k};
    if k in b {
      CapacityRemove(b, k);
    } else {
      assert b - {k} == b;
    }
  }

  /** `Floor(r / size)` whole containers hold at most `r`, and one more would exceed it. */
  lemma FloorDivBounds(r: real, size: real)
    requires size > 0.0
    ensures (r / size).Floor as real * size <= r < (r / size).Floor as real * size + size
  {
    var q := r / size;
    var f := q.Floor as real;
    assert q * size == r;
    assert f <= q < f + 1.0;
    MulMonotone(f, q, size);
    MulStrict(q, f + 1.0, size);
    assert r < (f + 1.0) * size;
    assert (f + 1.0) * size == f * size + size;
    assert r < f * size + size;
  }

  /** At least one whole container that fits means the container fits. */
  lemma AtLeastOneContainer(count: int, size: real, r: real)
    requires count >= 1 && size > 0.0 && count as real * size <= r
    ensures size <= r
  {
    MulMonotone(1.0, count as real, size);
  }

  /**
   * The invariant of the greedy loop: litres are conserved between what is
   * packed and what remains, the remainder never exceeds the input and stays
   * non-negative for a non-negative input, it is below the last size
   * processed, every recorded size comes from the list with a positive count
   * and is larger than the remainder, and a negative input records nothing.
   */
  ghost predicate PassFacts(litres: real, p: PassState, sizes: seq<real>)
  {
    && litres == p.remaining + Capacity(p.breakdown)
    && p.remaining <= litres
    && (litres >= 0.0 ==> p.remaining >= 0.0)
    && (|sizes| > 0 ==> p.remaining < sizes[|sizes| - 1])
    && (forall k :: k in p.breakdown ==> k in sizes && p.breakdown[k] > 0 && p.remaining < k)
    && (litres < 0.0 ==> p == PassState(litres, map[]))
  }

  lemma {:induction false} PassInvariant(litres: real, sizes: seq<real>)
    requires AllPositive(sizes)
    ensures PassFacts(litres, Pass(litres, sizes), sizes)
    decreases |sizes|
  {
    if sizes != [] {
      var init := sizes[..|sizes| - 1];
      PassInvariant(litres, init);
      StepKeepsFacts(litres, Pass(litres, init), init, sizes[|sizes| - 1]);
      assert init + [sizes[|sizes| - 1]] == sizes;
    }
  }

  /** A size the loop takes containers of is not yet in the breakdown. */
  lemma FreshSize(p: PassState, size: real)
    requires size > 0.0 && (p.remaining / size).Floor > 0
    requires forall k :: k in p.breakdown ==> p.remaining < k
    ensures size !in p.breakdown
  {
    var count := (p.remaining / size).Floor;
    FloorDivBounds(p.remaining, size);
    MulMonotone(1.0, count as real, size);
  }

  /** One step of the loop preserves the invariant, with the processed size appended. */
  lemma StepKeepsFacts(litres: real, p: PassState, init: seq<real>, size: real)
    requires size > 0.0 && PassFacts(litres, p, init)
    ensures PassFacts(litres, Step(p, size), init + [size])
  {
    var sizes := init + [size];
    var count := (p.remaining / size).Floor;
    StepArithmetic(p, size);
    var q := Step(p, size);
    if count > 0 {
      assert q == PassState(p.remaining - count as real * size, p.breakdown[size := count]);
      FreshSize(p, size);
      StepConserves(litres, p, size, count);
      forall k | k in q.breakdown
        ensures k in sizes && q.breakdown[k] > 0 && q.remaining < k
      {
        if k != size {
          assert k in init;
        }
      }
      assert p.remaining <= litres;
      assert litres >= 0.0;
      assert sizes[|sizes| - 1] == size;
      assert PassFacts(litres, q, sizes);
    } else {
      assert q == p;
      forall k | k in q.breakdown
        ensures k in sizes
      {
        assert k in init;
      }
      assert sizes[|sizes| - 1] == size;
      assert PassFacts(litres, q, sizes);
    }
  }

  /** Taking `count` containers of a fresh size moves their volume from the remainder to the breakdown. */
  lemma StepConserves(litres: real, p: PassState, size: real, count: nat)
    requires litres == p.remaining + Capacity(p.breakdown) && size !in p.breakdown
    ensures litres == (p.remaining - count as real * size) + Capacity(p.breakdown[size := count])
  {
    CapacityUpdate(p.breakdown, size, count);
  }

  /** The arithmetic of one step: what is taken fits, and what is left is below the size. */
  lemma StepArithmetic(p: PassState, size: real)
    requires size > 0.0
    ensures var count := (p.remaining / size).Floor;
      && (count > 0 ==> 0.0 <= Step(p, size).remaining < size <= p.remaining)
      && (count <= 0 ==> p.remaining < size)
  {
    var r := p.remaining;
    var count := (r / size).Floor;
    FloorDivBounds(r, size);
    if count > 0 {
      AtLeastOneContainer(count, size, r);
    } else {
      MulMonotone(count as real, 0.0, size);
    }
  }

  /** A step adds at most one fresh size, so the counts already recorded stay as they are. */
  lemma StepKeepsCounts(litres: real, p: PassState, init: seq<real>, size: real)
    requires size > 0.0 && PassFacts(litres, p, init)
    ensures forall k :: k in p.breakdown ==> k in Step(p, size).breakdown && Step(p, size).breakdown[k] == p.breakdown[k]
    ensures Step(p, size).remaining <= p.remaining
  {
    var count := (p.remaining / size).Floor;
    FloorDivBounds(p.remaining, size);
    if count > 0 {
      FreshSize(p, size);
    }
  }

  /** Counts recorded at one step are never overwritten by a later step, and the remainder never grows. */
  lemma {:induction false} PassKeepsCounts(litres: real, sizes: seq<real>, j: nat)
    requires AllPositive(sizes) && j <= |sizes|
    ensures forall k :: k in Pass(litres, sizes[..j]).breakdown ==>
      k in Pass(litres, sizes).breakdown && Pass(litres, sizes).breakdown[k] == Pass(litres, sizes[..j]).breakdown[k]
    ensures Pass(litres, sizes).remaining <= Pass(litres, sizes[..j]).remaining
    decreases |sizes|
  {
    if j < |sizes| {
      var init := sizes[..|sizes| - 1];
      assert init[..j] == sizes[..j];
      PassKeepsCounts(litres, init, j);
      PassInvariant(litres, init);
      StepKeepsCounts(litres, Pass(litres, init), init, sizes[|sizes| - 1]);
    } else {
      assert sizes[..j] == sizes;
    }
  }

  /**
   * Each count the loop records is `Floor(remaining / size)` for the
   * remainder at that step.
   */
  lemma PassCountIsFloor(litres: real, sizes: seq<real>, i: nat)
    requires AllPositive(sizes) && i < |sizes|
    ensures var before := Pass(litres, sizes[..i]).remaining;
      var count := (before / sizes[i]).Floor;
      && count > 0 ==> sizes[i] in Pass(litres, sizes).breakdown
                       && Pass(litres, sizes).breakdown[sizes[i]] == count
  {
    assert sizes[..i + 1][..i] == sizes[..i];
    PassKeepsCounts(litres, sizes, i + 1);
  }

  /** After the step for `sizes[i]` the remainder is in `[0, sizes[i])` and has not grown. */
  lemma PassRemainderAfterStep(litres: real, sizes: seq<real>, i: nat)
    requires AllPositive(sizes) && i < |sizes| && litres >= 0.0
    ensures var before := Pass(litres, sizes[..i]).remaining;
      var after := Pass(litres, sizes[..i + 1]).remaining;
      0.0 <= after <= before && after < sizes[i]
  {
    assert sizes[..i + 1][..i] == sizes[..i];
    var prefix := sizes[..i + 1];
    assert AllPositive(prefix);
    PassInvariant(litres, prefix);
    PassInvariant(litres, sizes[..i]);
    PassKeepsCounts(litres, prefix, i);
  }

  /** The top-up adds exactly one container of the last size to the capacity. */
  lemma TopUpCapacity(litres: real, sizes: seq<real>)
    requires CanPackage(litres, sizes)
    ensures var p := Pass(litres, sizes);
      Capacity(Packaging(litres, sizes)) == Capacity(p.breakdown) + (if p.remaining > 0.0 then sizes[|sizes| - 1] else 0.0)
  {
    var p := Pass(litres, sizes);
    if p.remaining > 0.0 {
      OneMoreContainer(p.breakdown, sizes[|sizes| - 1]);
    }
  }

  /** One more container of `size` adds `size` litres to the capacity. */
  lemma OneMoreContainer(b: Breakdown, size: real)
    ensures Capacity(b[size := Count(b, size) + 1]) == Capacity(b) + size
  {
    var n := Count(b, size);
    CapacityUpdate(b, size, n + 1);
    VolumeOneMore(size, n);
  }

  /**
   * The breakdown holds at least the requested litres, and overshoots by less
   * than one container of the last size when the request is non-negative.
   */
  lemma PackagingCovers(litres: real, sizes: seq<real>)
    requires AllPositive(sizes) && CanPackage(litres, sizes)
    ensures Capacity(Packaging(litres, sizes)) >= litres
    ensures litres >= 0.0 && |sizes| > 0 ==> Capacity(Packaging(litres, sizes)) - litres < sizes[|sizes| - 1]
  {
    PassInvariant(litres, sizes);
    TopUpCapacity(litres, sizes);
  }

  /** For a non-negative request the breakdown is exact iff the greedy pass leaves nothing over. */
  lemma PackagingExact(litres: real, sizes: seq<real>)
    requires AllPositive(sizes) && CanPackage(litres, sizes) && litres >= 0.0
    ensures Capacity(Packaging(litres, sizes)) == litres <==> Pass(litres, sizes).remaining == 0.0
  {
    PassInvariant(litres, sizes);
    TopUpCapacity(litres, sizes);
  }

  /**
   * Every size in the breakdown is a listed size with a positive count, and
   * the breakdown is empty exactly when nothing positive was requested.
   */
  lemma PackagingShape(litres: real, sizes: seq<real>)
    requires AllPositive(sizes) && CanPackage(litres, sizes)
    ensures var b := Packaging(litres, sizes);
      forall k :: k in b ==> k in sizes && b[k] > 0
    ensures Packaging(litres, sizes) == map[] <==> litres <= 0.0
  {
    PassInvariant(litres, sizes);
    PackagingCovers(litres, sizes);
    assert Capacity(map[]) == 0.0;
    if litres == 0.0 {
      CapacityPositive(Pass(litres, sizes).breakdown);
    }
  }

  /**
   * The top-up adds exactly one container of the last size when the pass
   * leaves a positive remainder, and changes nothing else.
   */
  lemma PackagingTopUp(litres: real, sizes: seq<real>, k: real)
    requires CanPackage(litres, sizes)
    ensures var p := Pass(litres, sizes);
      Count(Packaging(litres, sizes), k)
        == Count(p.breakdown, k) + (if p.remaining > 0.0 && k == sizes[|sizes| - 1] then 1 else 0)
  {
  }

  /** The loop of `calculatePackaging`, proved to compute `Packaging`. */
  method CalculatePackaging(litres: real, packagingSizes: seq<real>) returns (breakdown: Breakdown)
    requires CanPackage(litres, packagingSizes)
    ensures breakdown == Packaging(litres, packagingSizes)
    ensures AllPositive(packagingSizes) ==> Capacity(breakdown) >= litres
    ensures forall k :: k in breakdown ==> k in packagingSizes && breakdown[k] > 0
  {
    breakdown := map[];
    var remaining := litres;
    for i := 0 to |packagingSizes|
      invariant PassState(remaining, breakdown) == Pass(litres, packagingSizes[..i])
    {
      ghost var before := PassState(remaining, breakdown);
      var size := packagingSizes[i];
      var count := (remaining / size).Floor;
      if count > 0 {
        breakdown := breakdown[size := count];
        remaining := remaining - count as real * size;
      }
      assert PassState(remaining, breakdown) == Step(before, size);
      assert packagingSizes[..i + 1][..i] == packagingSizes[..i];
    }
    assert packagingSizes[..|packagingSizes|] == packagingSizes;
    if remaining > 0.0 {
      var smallest := packagingSizes[|packagingSizes| - 1];
      breakdown := breakdown[smallest := Count(breakdown, smallest) + 1];
    }
    if AllPositive(packagingSizes) {
      PackagingCovers(litres, packagingSizes);
    }
  }
}
