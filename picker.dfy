/** The pool picker of dask_worker_pools/propagate.py:12-75 as a specification: the
    totals the loop at lines 35-48 accumulates, and the ranking and threshold decision
    of lines 50-75. The method that runs the loop is Propagate.PickPool. */
module Picker {
  import opened Wrappers
  import opened Helpers
  import opened Counters

  /** A dependency's layer name with the pool resolved for it. */
  type DepPool = (string, Option<Pool>)

  type Layers = map<string, Layer>

  /** Python truthiness of a pool: neither None nor the empty string. */
  predicate Truthy(p: Option<Pool>) {
    p.Some? && p.value != ""
  }

  /** The loop state: `pool_key_counts`, `pool_bytes` and `unknown_sizes`. */
  datatype Tally = Tally(keyCounts: Counter, bytes: Counter, unknownSizes: bool)

  predicate DepsIn(pairs: seq<DepPool>, layers: Layers) {
    forall i :: 0 <= i < |pairs| ==> pairs[i].0 in layers
  }

  /** One iteration of the loop at propagate.py:35-48. */
  function Step(t: Tally, pair: DepPool, layers: Layers): Tally
    requires pair.0 in layers
  {
    if !Truthy(pair.1) then t
    else
      var pool := pair.1.value;
      var lyr := layers[pair.0];
      var keyCounts := Add(t.keyCounts, pool, lyr.keyCount);
      if t.unknownSizes then Tally(keyCounts, t.bytes, true)
      else
        match LayerBytes(lyr)
        case None => Tally(keyCounts, t.bytes, true)
        case Some(size) => Tally(keyCounts, Add(t.bytes, pool, size), false)
  }

  /** The loop state after the given dependencies, from empty counters. */
  function Accumulate(pairs: seq<DepPool>, layers: Layers): Tally
    requires DepsIn(pairs, layers)
  {
    if |pairs| == 0 then Tally([], [], false)
    else Step(Accumulate(pairs[..|pairs| - 1], layers), pairs[|pairs| - 1], layers)
  }

  /** Lines 50-75: no pool, the top pool of the byte ranking, or an error when the byte
      ranking is empty. Lines 53-54 would rank by key count when a size was unknown, but
      line 55 overwrites `costs` unconditionally, so the byte ranking is always used.
      The float comparison `transfer < total * ((n - 1) / n)` is taken exactly, as
      `transfer * n < total * (n - 1)` with `n > 0`. */
  function Rank(t: Tally): Result<Option<Pool>, Error> {
    if |t.keyCounts| == 0 then Ok(None)
    else
      var costs := MostCommon(t.bytes);
      if |costs| == 0 then Err(NothingToUnpack)  // `(biggest_pool, biggest_cost), *other_costs = []`
      else
        var transfer := Total(costs[1..]);
        var total := transfer + costs[0].1;
        var n := |t.keyCounts|;
        if transfer * n < total * (n - 1) then Ok(Some(costs[0].0)) else Ok(None)
  }

  /** pick_pool as a function of its input pairs and the graph's layers. */
  function PickPoolOf(pairs: seq<DepPool>, layers: Layers): Result<Option<Pool>, Error>
    requires DepsIn(pairs, layers)
  {
    if |pairs| == 0 then Ok(None) else Rank(Accumulate(pairs, layers))
  }

  /** The distinct truthy pools among the inputs. */
  function TruthyPools(pairs: seq<DepPool>): set<Pool> {
    set i | 0 <= i < |pairs| && Truthy(pairs[i].1) :: pairs[i].1.value
  }

  /** The inputs that have a truthy pool, in order. */
  function Pooled(pairs: seq<DepPool>): (r: seq<DepPool>)
    ensures forall i :: 0 <= i < |r| ==> r[i] in pairs && Truthy(r[i].1)
  {
    if |pairs| == 0 then []
    else
      var front := Pooled(pairs[..|pairs| - 1]);
      assert forall x :: x in pairs[..|pairs| - 1] ==> x in pairs;
      if Truthy(pairs[|pairs| - 1].1) then front + [pairs[|pairs| - 1]] else front
  }

  // ---------------------------------------------------------------------------
  // The accumulated totals
  // ---------------------------------------------------------------------------

  lemma TruthyPoolsSnoc(pairs: seq<DepPool>)
    requires |pairs| > 0
    ensures TruthyPools(pairs) ==
      TruthyPools(pairs[..|pairs| - 1]) +
      (if Truthy(pairs[|pairs| - 1].1) then {pairs[|pairs| - 1].1.value} else {})
  {
    var front := pairs[..|pairs| - 1];
    forall p | p in TruthyPools(pairs)
      ensures p in TruthyPools(front) || (Truthy(pairs[|pairs| - 1].1) && p == pairs[|pairs| - 1].1.value)
    {
      var i :| 0 <= i < |pairs| && Truthy(pairs[i].1) && pairs[i].1.value == p;
      if i < |pairs| - 1 { assert front[i] == pairs[i]; }
    }
    forall p | p in TruthyPools(front) ensures p in TruthyPools(pairs) {
      var i :| 0 <= i < |front| && Truthy(front[i].1) && front[i].1.value == p;
      assert pairs[i] == front[i];
    }
  }

  /** Both counters have distinct keys; the key-count counter holds exactly the truthy
      pools of the inputs, and every pool with a byte total also has a key count. */
  lemma {:induction false} AccumulateShape(pairs: seq<DepPool>, layers: Layers)
    requires DepsIn(pairs, layers)
    ensures var t := Accumulate(pairs, layers);
      Distinct(t.keyCounts) && Distinct(t.bytes) &&
      Keys(t.keyCounts) == TruthyPools(pairs) && Keys(t.bytes) <= Keys(t.keyCounts)
  {
    if |pairs| > 0 {
      var front := pairs[..|pairs| - 1];
      var last := pairs[|pairs| - 1];
      AccumulateShape(front, layers);
      TruthyPoolsSnoc(pairs);
      var t := Accumulate(front, layers);
      if Truthy(last.1) {
        var lyr := layers[last.0];
        AddKeySet(t.keyCounts, last.1.value, lyr.keyCount);
        AddDistinct(t.keyCounts, last.1.value, lyr.keyCount);
        if !t.unknownSizes && LayerBytes(lyr).Some? {
          AddKeySet(t.bytes, last.1.value, LayerBytes(lyr).value);
          AddDistinct(t.bytes, last.1.value, LayerBytes(lyr).value);
        }
      }
    } else {
      assert TruthyPools(pairs) == {};
    }
  }

  /** n, the number of entries of `pool_key_counts`, is the number of distinct truthy
      pools among the inputs. */
  lemma PoolCount(pairs: seq<DepPool>, layers: Layers)
    requires DepsIn(pairs, layers)
    ensures |Accumulate(pairs, layers).keyCounts| == |TruthyPools(pairs)|
  {
    AccumulateShape(pairs, layers);
    DistinctSize(Accumulate(pairs, layers).keyCounts);
  }

  lemma PooledDepsIn(pairs: seq<DepPool>, layers: Layers)
    requires DepsIn(pairs, layers)
    ensures DepsIn(Pooled(pairs), layers)
  {
    var q := Pooled(pairs);
    forall i | 0 <= i < |q| ensures q[i].0 in layers {
      var j :| 0 <= j < |pairs| && pairs[j] == q[i];
    }
  }

  /** Inputs without a truthy pool contribute nothing: the totals are those of the pooled
      inputs alone (propagate.py:36-37). */
  lemma {:induction false} AccumulateIgnoresUnpooled(pairs: seq<DepPool>, layers: Layers)
    requires DepsIn(pairs, layers)
    ensures DepsIn(Pooled(pairs), layers)
    ensures Accumulate(pairs, layers) == Accumulate(Pooled(pairs), layers)
  {
    PooledDepsIn(pairs, layers);
    if |pairs| > 0 {
      var front := pairs[..|pairs| - 1];
      var last := pairs[|pairs| - 1];
      AccumulateIgnoresUnpooled(front, layers);
      if Truthy(last.1) {
        var q := Pooled(pairs);
        assert q[..|q| - 1] == Pooled(front);
      }
    }
  }

  /** Once a size is unknown the flag stays set and the byte totals stop changing
      (propagate.py:43-48). */
  lemma {:induction false} UnknownSticky(pairs: seq<DepPool>, layers: Layers, i: nat)
    requires DepsIn(pairs, layers) && i <= |pairs|
    requires Accumulate(pairs[..i], layers).unknownSizes
    ensures Accumulate(pairs, layers).unknownSizes
    ensures Accumulate(pairs, layers).bytes == Accumulate(pairs[..i], layers).bytes
  {
    if i < |pairs| {
      var front := pairs[..|pairs| - 1];
      assert front[..i] == pairs[..i];
      UnknownSticky(front, layers, i);
    } else {
      assert pairs[..i] == pairs;
    }
  }

  /** Once some pool has a byte total, the byte counter never becomes empty again. */
  lemma {:induction false} BytesStayNonEmpty(pairs: seq<DepPool>, layers: Layers, i: nat)
    requires DepsIn(pairs, layers) && i <= |pairs|
    requires |Accumulate(pairs[..i], layers).bytes| > 0
    ensures |Accumulate(pairs, layers).bytes| > 0
  {
    if i < |pairs| {
      var front := pairs[..|pairs| - 1];
      assert front[..i] == pairs[..i];
      BytesStayNonEmpty(front, layers, i);
    } else {
      assert pairs[..i] == pairs;
    }
  }

  /** The summed key counts (`len(lyr)`) of the inputs whose pool is `p`. */
  function KeySum(pairs: seq<DepPool>, layers: Layers, p: Pool): nat
    requires DepsIn(pairs, layers)
  {
    if |pairs| == 0 then 0
    else
      var last := pairs[|pairs| - 1];
      KeySum(pairs[..|pairs| - 1], layers, p) +
      (if Truthy(last.1) && last.1.value == p then layers[last.0].keyCount else 0)
  }

  /** Every input with a truthy pool has a known size. */
  predicate SizesKnown(pairs: seq<DepPool>, layers: Layers)
    requires DepsIn(pairs, layers)
  {
    forall i :: 0 <= i < |pairs| && Truthy(pairs[i].1) ==> LayerBytes(layers[pairs[i].0]).Some?
  }

  lemma SizesKnownPrefix(pairs: seq<DepPool>, layers: Layers, i: nat)
    requires DepsIn(pairs, layers) && i <= |pairs| && SizesKnown(pairs, layers)
    ensures SizesKnown(pairs[..i], layers)
  {
    assert forall j :: 0 <= j < i ==> pairs[..i][j] == pairs[j];
  }

  /** The summed sizes of the inputs whose pool is `p`, when every pooled size is known. */
  function ByteSum(pairs: seq<DepPool>, layers: Layers, p: Pool): nat
    requires DepsIn(pairs, layers) && SizesKnown(pairs, layers)
  {
    if |pairs| == 0 then 0
    else
      var last := pairs[|pairs| - 1];
      SizesKnownPrefix(pairs, layers, |pairs| - 1);
      ByteSum(pairs[..|pairs| - 1], layers, p) +
      (if Truthy(last.1) && last.1.value == p then LayerBytes(layers[last.0]).value else 0)
  }

  /** `pool_key_counts[p]` is the sum of `len(lyr)` over the inputs in pool `p`
      (propagate.py:40). */
  lemma {:induction false} AccumulateKeyCounts(pairs: seq<DepPool>, layers: Layers, p: Pool)
    requires DepsIn(pairs, layers)
    ensures Get(Accumulate(pairs, layers).keyCounts, p) == KeySum(pairs, layers, p)
  {
    if |pairs| > 0 {
      var front := pairs[..|pairs| - 1];
      var last := pairs[|pairs| - 1];
      AccumulateKeyCounts(front, layers, p);
      if Truthy(last.1) {
        AddCounts(Accumulate(front, layers).keyCounts, last.1.value, layers[last.0].keyCount);
      }
    }
  }

  /** `unknown_sizes` stays unset exactly when every pooled input has a known size
      (propagate.py:43-46). */
  lemma {:induction false} AccumulateKnownIff(pairs: seq<DepPool>, layers: Layers)
    requires DepsIn(pairs, layers)
    ensures !Accumulate(pairs, layers).unknownSizes <==> SizesKnown(pairs, layers)
  {
    if |pairs| > 0 {
      var front := pairs[..|pairs| - 1];
      AccumulateKnownIff(front, layers);
      assert forall i :: 0 <= i < |front| ==> front[i] == pairs[i];
    }
  }

  /** With every pooled size known, `pool_bytes[p]` is the sum of the sizes of the inputs
      in pool `p` (propagate.py:48). */
  lemma {:induction false} AccumulateBytes(pairs: seq<DepPool>, layers: Layers, p: Pool)
    requires DepsIn(pairs, layers) && SizesKnown(pairs, layers)
    ensures Get(Accumulate(pairs, layers).bytes, p) == ByteSum(pairs, layers, p)
  {
    if |pairs| > 0 {
      var front := pairs[..|pairs| - 1];
      var last := pairs[|pairs| - 1];
      SizesKnownPrefix(pairs, layers, |pairs| - 1);
      AccumulateBytes(front, layers, p);
      AccumulateKnownIff(front, layers);
      var t := Accumulate(front, layers);
      if Truthy(last.1) {
        assert LayerBytes(layers[last.0]).Some?;
        AddCounts(t.bytes, last.1.value, LayerBytes(layers[last.0]).value);
      }
    }
  }

  /** The byte totals in general: when the input at `i` is the first pooled input with an
      unknown size (or `i` is the end), `pool_bytes[p]` is the sum of the sizes of the
      inputs before `i` in pool `p`. */
  lemma AccumulateBytesUntilUnknown(pairs: seq<DepPool>, layers: Layers, p: Pool, i: nat)
    requires DepsIn(pairs, layers) && i <= |pairs|
    requires SizesKnown(pairs[..i], layers)
    requires i < |pairs| ==> Truthy(pairs[i].1) && LayerBytes(layers[pairs[i].0]).None?
    ensures Get(Accumulate(pairs, layers).bytes, p) == ByteSum(pairs[..i], layers, p)
  {
    AccumulateBytes(pairs[..i], layers, p);
    if i < |pairs| {
      var next := pairs[..i + 1];
      assert next[..i] == pairs[..i];
      assert next[i] == pairs[i];
      assert Accumulate(next, layers).bytes == Accumulate(pairs[..i], layers).bytes;
      UnknownSticky(pairs, layers, i + 1);
    } else {
      assert pairs[..i] == pairs;
    }
  }

  /** The state after the first pooled input: its pool's key count, and its byte total
      unless its size is unknown. */
  lemma FirstPooledStep(q: seq<DepPool>, layers: Layers)
    requires DepsIn(q, layers) && |q| > 0 && Truthy(q[0].1)
    ensures var t1 := Accumulate(q[..1], layers);
      (LayerBytes(layers[q[0].0]).None? ==> t1.unknownSizes && t1.bytes == []) &&
      (LayerBytes(layers[q[0].0]).Some? ==> |t1.bytes| > 0)
  {
    assert q[..1][..0] == [];
    assert q[..1][0] == q[0];
  }

  /** Every input pool is a key of the key-count counter, so it is not empty. */
  lemma KeyCountsNonEmpty(q: seq<DepPool>, layers: Layers)
    requires DepsIn(q, layers) && |q| > 0 && Truthy(q[0].1)
    ensures |Accumulate(q, layers).keyCounts| > 0
  {
    AccumulateShape(q, layers);
    assert q[0].1.value in TruthyPools(q);
  }

  /** pick_pool fails exactly when the first input with a truthy pool has an unknown
      size: then no byte total is ever recorded and the unpacking at propagate.py:57 has
      nothing to unpack. */
  lemma PickPoolFailsIff(pairs: seq<DepPool>, layers: Layers)
    requires DepsIn(pairs, layers)
    ensures DepsIn(Pooled(pairs), layers)
    ensures PickPoolOf(pairs, layers).Err? <==>
      |Pooled(pairs)| > 0 && LayerBytes(layers[Pooled(pairs)[0].0]).None?
  {
    AccumulateIgnoresUnpooled(pairs, layers);
    var q := Pooled(pairs);
    if |q| > 0 {
      assert q[0] in pairs;
      var t := Accumulate(q, layers);
      FirstPooledStep(q, layers);
      KeyCountsNonEmpty(q, layers);
      MostCommonFacts(t.bytes);
      if LayerBytes(layers[q[0].0]).None? {
        UnknownSticky(q, layers, 1);
      } else {
        BytesStayNonEmpty(q, layers, 1);
      }
    }
  }

  // ---------------------------------------------------------------------------
  // The decision
  // ---------------------------------------------------------------------------

  /** The threshold decision in closed form: moving everything to the top pool is chosen
      exactly when n times the top byte total exceeds the sum of all byte totals; the top
      pool is the first, in insertion order, with a largest byte total. */
  lemma RankThreshold(t: Tally)
    requires |t.keyCounts| > 0 && |t.bytes| > 0
    ensures var m := ArgMaxFirst(t.bytes);
      Rank(t) == if |t.keyCounts| * t.bytes[m].1 > Total(t.bytes) then Ok(Some(t.bytes[m].0)) else Ok(None)
  {
    var costs := MostCommon(t.bytes);
    MostCommonTotal(t.bytes);
    MostCommonHead(t.bytes);
    TotalSplit(costs);
    ThresholdArith(Total(costs[1..]), costs[0].1, |t.keyCounts|);
  }

  /** `transfer < total * (n - 1) / n` with `total = transfer + big` is `n * big > total`. */
  lemma ThresholdArith(transfer: nat, big: nat, n: nat)
    requires n > 0
    ensures transfer * n < (transfer + big) * (n - 1) <==> n * big > transfer + big
  {
    assert (transfer + big) * (n - 1) == transfer * (n - 1) + big * (n - 1);
    assert transfer * (n - 1) == transfer * n - transfer;
    assert big * (n - 1) == big * n - big;
    assert n * big == big * n;
  }

  /** With a single candidate pool the picker never assigns one: 0 < 0 fails. */
  lemma RankSinglePool(t: Tally)
    requires |t.keyCounts| == 1
    ensures Rank(t).Ok? ==> Rank(t).value.None?
  {
    if |t.bytes| > 0 {
      RankThreshold(t);
      TotalBounds(t.bytes, ArgMaxFirst(t.bytes));
    }
  }

  /** Equal byte totals for every candidate pool leave the layer unconstrained. */
  lemma RankBalanced(t: Tally, v: nat)
    requires |t.keyCounts| == |t.bytes| > 0
    requires forall i :: 0 <= i < |t.bytes| ==> t.bytes[i].1 == v
    ensures Rank(t) == Ok(None)
  {
    RankThreshold(t);
    TotalUniform(t.bytes, v);
  }

  /** The key counts influence the decision only through their number: the ranking never
      reads them, nor the unknown-size flag. */
  lemma RankIgnoresKeyCounts(t: Tally, keyCounts: Counter, unknownSizes: bool)
    requires |keyCounts| == |t.keyCounts|
    ensures Rank(Tally(keyCounts, t.bytes, unknownSizes)) == Rank(t)
  {
  }

  /** The chosen pool is one of the inputs' truthy pools. */
  lemma PickPoolFromInputs(pairs: seq<DepPool>, layers: Layers)
    requires DepsIn(pairs, layers)
    ensures PickPoolOf(pairs, layers).Ok? && PickPoolOf(pairs, layers).value.Some? ==>
      PickPoolOf(pairs, layers).value.value in TruthyPools(pairs)
  {
    if |pairs| > 0 {
      var t := Accumulate(pairs, layers);
      AccumulateShape(pairs, layers);
      if |t.keyCounts| > 0 && |t.bytes| > 0 {
        RankThreshold(t);
        var m := ArgMaxFirst(t.bytes);
        assert t.bytes[m].0 in Keys(t.bytes);
      }
    }
  }

  /** No inputs, or no input with a truthy pool: no pool (propagate.py:27-28, 50-51). */
  lemma PickPoolNoPools(pairs: seq<DepPool>, layers: Layers)
    requires DepsIn(pairs, layers)
    requires TruthyPools(pairs) == {}
    ensures PickPoolOf(pairs, layers) == Ok(None)
  {
    if |pairs| > 0 {
      PoolCount(pairs, layers);
    }
  }

  /** The decision of pick_pool, with n the number of distinct input pools. */
  lemma PickPoolDecision(pairs: seq<DepPool>, layers: Layers)
    requires DepsIn(pairs, layers)
    requires |Accumulate(pairs, layers).bytes| > 0
    ensures var b := Accumulate(pairs, layers).bytes;
      var m := ArgMaxFirst(b);
      PickPoolOf(pairs, layers) ==
        if |TruthyPools(pairs)| * b[m].1 > Total(b) then Ok(Some(b[m].0)) else Ok(None)
  {
    var t := Accumulate(pairs, layers);
    PoolCount(pairs, layers);
    AccumulateShape(pairs, layers);
    assert t.bytes[0].0 in Keys(t.bytes);
    assert |pairs| > 0;
    RankThreshold(t);
  }

  /** All inputs in one pool: the picker never assigns a pool. */
  lemma PickPoolSinglePool(pairs: seq<DepPool>, layers: Layers)
    requires DepsIn(pairs, layers)
    requires |TruthyPools(pairs)| == 1
    ensures PickPoolOf(pairs, layers).Ok? ==> PickPoolOf(pairs, layers).value.None?
  {
    PoolCount(pairs, layers);
    RankSinglePool(Accumulate(pairs, layers));
  }

  /** Two inputs in different pools with known sizes: the larger wins outright, even by a
      single byte, and equal sizes leave the layer unconstrained (propagate.py:67-69). */
  lemma TwoInputs(pairs: seq<DepPool>, layers: Layers)
    requires DepsIn(pairs, layers)
    requires |pairs| == 2 && Truthy(pairs[0].1) && Truthy(pairs[1].1) && pairs[0].1 != pairs[1].1
    requires LayerBytes(layers[pairs[0].0]).Some? && LayerBytes(layers[pairs[1].0]).Some?
    ensures var a := LayerBytes(layers[pairs[0].0]).value;
      var b := LayerBytes(layers[pairs[1].0]).value;
      PickPoolOf(pairs, layers) ==
        if a > b then Ok(pairs[0].1) else if b > a then Ok(pairs[1].1) else Ok(None)
  {
    TwoInputsTally(pairs, layers);
    RankTwo(Accumulate(pairs, layers));
  }

  lemma TwoInputsTally(pairs: seq<DepPool>, layers: Layers)
    requires DepsIn(pairs, layers)
    requires |pairs| == 2 && Truthy(pairs[0].1) && Truthy(pairs[1].1) && pairs[0].1 != pairs[1].1
    requires LayerBytes(layers[pairs[0].0]).Some? && LayerBytes(layers[pairs[1].0]).Some?
    ensures var t := Accumulate(pairs, layers);
      |t.keyCounts| == 2 &&
      t.bytes == [(pairs[0].1.value, LayerBytes(layers[pairs[0].0]).value),
                  (pairs[1].1.value, LayerBytes(layers[pairs[1].0]).value)]
  {
    var a := LayerBytes(layers[pairs[0].0]).value;
    var b := LayerBytes(layers[pairs[1].0]).value;
    var pa := pairs[0].1.value;
    var pb := pairs[1].1.value;
    assert pairs[..1][..0] == [];
    assert pairs[..1][0] == pairs[0];
    assert pa != pb;
    var t0 := Accumulate(pairs[..1][..0], layers);
    assert t0 == Tally([], [], false);
    var t1 := Accumulate(pairs[..1], layers);
    assert t1 == Step(t0, pairs[0], layers);
    assert t1.bytes == [(pa, a)] && |t1.keyCounts| == 1 && !t1.unknownSizes;
    assert t1.keyCounts[0].0 == pa;
    var t := Accumulate(pairs, layers);
    assert t == Step(t1, pairs[1], layers);
    assert [(pa, a)][1..] == [];
    assert Add([], pb, b) == [(pb, b)];
    assert Add([(pa, a)], pb, b) == [(pa, a)] + Add([], pb, b);
  }

  lemma RankTwo(t: Tally)
    requires |t.keyCounts| == 2 && |t.bytes| == 2
    ensures Rank(t) ==
      if t.bytes[0].1 > t.bytes[1].1 then Ok(Some(t.bytes[0].0))
      else if t.bytes[1].1 > t.bytes[0].1 then Ok(Some(t.bytes[1].0))
      else Ok(None)
  {
    RankThreshold(t);
    assert t.bytes[1..][1..] == [];
    assert Total(t.bytes[1..][1..]) == 0;
    assert Total(t.bytes[1..]) == t.bytes[1].1;
    assert Total(t.bytes) == t.bytes[0].1 + t.bytes[1].1;
  }
}
