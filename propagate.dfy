/** The optimization pass of dask_worker_pools/propagate.py: walk the high-level graph
    from its leaves towards its roots and tag every layer that has no pool with the pool
    most of its input data will already sit in.

    The recursion is specified by the functions Visit and VisitAll, which thread the
    graph's layer map through the traversal exactly as the Python code mutates it; the
    methods at the end of the module run the same traversal on a HighLevelGraph object
    and are proved to end in the state those functions compute. */
module Propagate {
  import opened Wrappers
  import opened Helpers
  import opened Counters
  import opened Picker

  /** `dsk.dependencies`: the names of the layers each layer reads from. dask holds each
      entry as a set; a sequence fixes its iteration order, and may even repeat a name,
      a graph dask cannot build (that dependency would be visited and counted twice).
      Nothing proved here needs the entries to be duplicate-free, so the model keeps
      this generality. */
  type Deps = map<string, seq<string>>

  /** A ghost ranking of layers; it exists only to show the graph is acyclic. */
  type Ranks = map<string, nat>

  /** Every layer has a dependency entry, and every dependency names a layer. */
  predicate Closed(layers: Layers, deps: Deps) {
    deps.Keys == layers.Keys &&
    forall k, i :: k in deps && 0 <= i < |deps[k]| ==> deps[k][i] in deps
  }

  /** Every dependency ranks strictly below the layer that reads it: the graph is a DAG. */
  predicate Ranked(deps: Deps, rank: Ranks) {
    deps.Keys <= rank.Keys &&
    forall k, i :: k in deps && 0 <= i < |deps[k]| ==> deps[k][i] in rank && rank[deps[k][i]] < rank[k]
  }

  predicate WellFormed(layers: Layers, deps: Deps, rank: Ranks) {
    Closed(layers, deps) && Ranked(deps, rank)
  }

  // ---------------------------------------------------------------------------
  // set_pool on values
  // ---------------------------------------------------------------------------

  /** The layer set_pool leaves in the graph: a layer without annotations gets
      `{"resources": {pool: 1}}`; a layer with annotations is put back unchanged, because
      the edited dict at propagate.py:87 is a copy that is never stored. */
  function TagLayer(lyr: Layer, pool: Pool): (r: Layer)
    ensures r.keyCount == lyr.keyCount && r.collectionAnnotations == lyr.collectionAnnotations
    ensures lyr.annotations.Some? ==> r == lyr
    ensures lyr.annotations.None? ==> r.annotations == Some(Annotations(Some(map[pool := 1]), {}))
  {
    if lyr.annotations.None? then lyr.(annotations := Some(Annotations(Some(map[pool := 1]), {})))
    else lyr
  }

  /** A tag written onto a bare layer is read back by get_layer_pool. */
  lemma TagLayerReadsBack(lyr: Layer, pool: Pool)
    requires IsPoolKey(pool) && lyr.annotations.None?
    ensures GetLayerPool(TagLayer(lyr, pool)) == Ok(Some(pool))
  {
    var t := TagLayer(lyr, pool);
    assert PoolKeys(map[pool := 1]) == {pool};
    assert LayerPoolKeys(t) == {pool};
  }

  // ---------------------------------------------------------------------------
  // The traversal as functions
  // ---------------------------------------------------------------------------

  /** One more than the largest rank among `names`. */
  function RankBound(rank: Ranks, names: seq<string>): (b: nat)
    requires forall i :: 0 <= i < |names| ==> names[i] in rank
    ensures forall i :: 0 <= i < |names| ==> rank[names[i]] < b
  {
    if |names| == 0 then 0
    else
      var front := RankBound(rank, names[..|names| - 1]);
      var r := rank[names[|names| - 1]] + 1;
      if front < r then r else front
  }

  lemma {:induction false} RankBoundAtMost(rank: Ranks, names: seq<string>, b: nat)
    requires forall i :: 0 <= i < |names| ==> names[i] in rank && rank[names[i]] < b
    ensures RankBound(rank, names) <= b
  {
    if |names| > 0 {
      RankBoundAtMost(rank, names[..|names| - 1], b);
    }
  }

  /** `zip(deps, input_pools)`. */
  function Zip(names: seq<string>, pools: seq<Option<Pool>>): (r: seq<DepPool>)
    requires |names| == |pools|
    ensures |r| == |names| && forall i :: 0 <= i < |r| ==> r[i] == (names[i], pools[i])
  {
    seq(|names|, i requires 0 <= i < |names| => (names[i], pools[i]))
  }

  /** _propagate_pool_recursive(name): its result and the layer map it leaves. */
  function Visit(layers: Layers, deps: Deps, rank: Ranks, name: string): (res: (Result<Option<Pool>, Error>, Layers))
    requires WellFormed(layers, deps, rank) && name in layers
    ensures res.1.Keys == layers.Keys
    decreases rank[name], 1, 0
  {
    match GetLayerPool(layers[name])
    case Err(e) => (Err(e), layers)
    case Ok(own) =>
      if Truthy(own) then (Ok(own), layers)
      else if |deps[name]| == 0 then (Ok(None), layers)
      else
        var ds := deps[name];
        RankBoundAtMost(rank, ds, rank[name]);
        var (inputs, after) := VisitAll(layers, deps, rank, ds);
        if inputs.Err? then (Err(inputs.error), after)
        else
          var picked := PickPoolOf(Zip(ds, inputs.value), after);
          if picked.Err? then (Err(picked.error), after)
          else if Truthy(picked.value) then (picked, after[name := TagLayer(after[name], picked.value.value)])
          else (picked, after)
  }

  /** The list comprehension `[_propagate_pool_recursive(d, dsk) for d in names]`, which
      stops at the first exception. */
  function VisitAll(layers: Layers, deps: Deps, rank: Ranks, names: seq<string>): (res: (Result<seq<Option<Pool>>, Error>, Layers))
    requires WellFormed(layers, deps, rank)
    requires forall i :: 0 <= i < |names| ==> names[i] in layers
    ensures res.1.Keys == layers.Keys
    ensures res.0.Ok? ==> |res.0.value| == |names|
    decreases RankBound(rank, names), 0, |names|
  {
    if |names| == 0 then (Ok([]), layers)
    else
      var (front, mid) := VisitAll(layers, deps, rank, names[..|names| - 1]);
      if front.Err? then (Err(front.error), mid)
      else
        var (last, after) := Visit(mid, deps, rank, names[|names| - 1]);
        if last.Err? then (Err(last.error), after)
        else (Ok(front.value + [last.value]), after)
  }

  /** Some layer lists `k` as a dependency (`dependents.get(k)` is truthy). */
  predicate HasDependents(deps: Deps, k: string) {
    exists j :: j in deps && k in deps[j]
  }

  /** The layers, in graph order, that nothing depends on. */
  function Leaves(order: seq<string>, deps: Deps): (r: seq<string>)
    ensures forall x :: x in r ==> x in order
  {
    if |order| == 0 then []
    else
      var front := Leaves(order[..|order| - 1], deps);
      var last := order[|order| - 1];
      assert order == order[..|order| - 1] + [last];
      if HasDependents(deps, last) then front else front + [last]
  }

  /** The traversal starts from exactly the layers without dependents. */
  lemma {:induction false} LeavesExactly(order: seq<string>, deps: Deps)
    ensures forall x :: x in Leaves(order, deps) <==> x in order && !HasDependents(deps, x)
  {
    if |order| > 0 {
      var front := order[..|order| - 1];
      LeavesExactly(front, deps);
      assert order == front + [order[|order| - 1]];
    }
  }

  /** When the graph order lists each layer once, each leaf is visited once. */
  lemma {:induction false} LeavesDistinct(order: seq<string>, deps: Deps)
    requires forall i, j :: 0 <= i < j < |order| ==> order[i] != order[j]
    ensures forall i, j :: 0 <= i < j < |Leaves(order, deps)| ==> Leaves(order, deps)[i] != Leaves(order, deps)[j]
  {
    if |order| > 0 {
      var front := order[..|order| - 1];
      var last := order[|order| - 1];
      assert order == front + [last];
      LeavesDistinct(front, deps);
      assert last !in front;
      var fr := Leaves(front, deps);
      assert last !in fr;
      assert forall i, j :: 0 <= i < j < |fr| ==> fr[i] != fr[j];
      var r := Leaves(order, deps);
      assert r == if HasDependents(deps, last) then fr else fr + [last];
      forall i, j | 0 <= i < j < |r| ensures r[i] != r[j] {
        if j < |fr| {
          assert r[i] == fr[i] && r[j] == fr[j];
        } else {
          assert r[j] == last && r[i] == fr[i];
          assert r[i] in fr;
        }
      }
    }
  }

  /** propagate_pool_optimization: the layers of the optimized graph, or the error of the
      first leaf whose traversal raised. */
  function Optimize(layers: Layers, deps: Deps, rank: Ranks, order: seq<string>): Result<Layers, Error>
    requires WellFormed(layers, deps, rank)
    requires forall i :: 0 <= i < |order| ==> order[i] in layers
  {
    var leaves := Leaves(order, deps);
    assert forall i :: 0 <= i < |leaves| ==> leaves[i] in layers by {
      forall i | 0 <= i < |leaves| ensures leaves[i] in layers {
        assert leaves[i] in leaves;
      }
    }
    var (r, after) := VisitAll(layers, deps, rank, leaves);
    if r.Err? then Err(r.error) else Ok(after)
  }

  // ---------------------------------------------------------------------------
  // What a traversal may change
  // ---------------------------------------------------------------------------

  /** `after` is `before` tagged with a pool key by set_pool. */
  predicate NewlyTagged(before: Layer, after: Layer) {
    before.annotations.None? &&
    var g := GetLayerPool(after);
    g.Ok? && g.value.Some? && after == TagLayer(before, g.value.value)
  }

  /** The only change from `before` to `after` is that some bare layers with inputs
      were tagged. */
  predicate Evolved(before: Layers, after: Layers, deps: Deps) {
    after.Keys == before.Keys &&
    forall k :: k in before ==>
      after[k] == before[k] || (k in deps && |deps[k]| > 0 && NewlyTagged(before[k], after[k]))
  }

  /** Layers ranked at or above `bound` are untouched. */
  predicate FrameAbove(before: Layers, after: Layers, rank: Ranks, bound: nat) {
    forall k :: k in before && k in after && k in rank && rank[k] >= bound ==> after[k] == before[k]
  }

  predicate PoolOrNone(p: Option<Pool>) {
    p.Some? ==> IsPoolKey(p.value)
  }

  lemma EvolvedTrans(a: Layers, b: Layers, c: Layers, deps: Deps)
    requires Evolved(a, b, deps) && Evolved(b, c, deps)
    ensures Evolved(a, c, deps)
  {
    forall k | k in a
      ensures c[k] == a[k] || (k in deps && |deps[k]| > 0 && NewlyTagged(a[k], c[k]))
    {
      if b[k] != a[k] {
        assert b[k].annotations.Some?;
        assert c[k] == b[k];
      }
    }
  }

  /** A visit only tags bare layers with inputs, leaves every layer ranked above the
      visited one alone, and returns a pool key or None. */
  lemma {:induction false} VisitFacts(layers: Layers, deps: Deps, rank: Ranks, name: string)
    requires WellFormed(layers, deps, rank) && name in layers
    ensures var (r, after) := Visit(layers, deps, rank, name);
      Evolved(layers, after, deps) && FrameAbove(layers, after, rank, rank[name] + 1) &&
      (r.Ok? ==> PoolOrNone(r.value))
    decreases rank[name], 1, 0
  {
    var own := GetLayerPool(layers[name]);
    if own.Ok? && !Truthy(own.value) && |deps[name]| > 0 {
      var ds := deps[name];
      RankBoundAtMost(rank, ds, rank[name]);
      VisitAllFacts(layers, deps, rank, ds);
      var (inputs, mid) := VisitAll(layers, deps, rank, ds);
      if inputs.Ok? {
        var pairs := Zip(ds, inputs.value);
        var picked := PickPoolOf(pairs, mid);
        PickPoolFromInputs(pairs, mid);
        if picked.Ok? && picked.value.Some? {
          var p := picked.value.value;
          var i :| 0 <= i < |pairs| && Truthy(pairs[i].1) && pairs[i].1.value == p;
          assert pairs[i].1 == inputs.value[i];
          TagStepFacts(layers, mid, deps, rank, name, p);
        }
      }
    }
  }

  /** Tagging the visited layer after its inputs keeps the facts of VisitFacts. */
  lemma TagStepFacts(layers: Layers, mid: Layers, deps: Deps, rank: Ranks, name: string, p: Pool)
    requires WellFormed(layers, deps, rank) && name in layers && |deps[name]| > 0
    requires IsPoolKey(p) && mid.Keys == layers.Keys
    requires Evolved(layers, mid, deps) && FrameAbove(layers, mid, rank, rank[name])
    ensures var after := mid[name := TagLayer(mid[name], p)];
      Evolved(layers, after, deps) && FrameAbove(layers, after, rank, rank[name] + 1)
  {
    var after := mid[name := TagLayer(mid[name], p)];
    if mid[name].annotations.None? {
      TagLayerReadsBack(mid[name], p);
    }
    assert Evolved(mid, after, deps);
    EvolvedTrans(layers, mid, after, deps);
  }

  lemma {:induction false} VisitAllFacts(layers: Layers, deps: Deps, rank: Ranks, names: seq<string>)
    requires WellFormed(layers, deps, rank)
    requires forall i :: 0 <= i < |names| ==> names[i] in layers
    ensures var (r, after) := VisitAll(layers, deps, rank, names);
      Evolved(layers, after, deps) && FrameAbove(layers, after, rank, RankBound(rank, names)) &&
      (r.Ok? ==> forall i :: 0 <= i < |r.value| ==> PoolOrNone(r.value[i]))
    decreases RankBound(rank, names), 0, |names|
  {
    if |names| > 0 {
      var front := names[..|names| - 1];
      var last := names[|names| - 1];
      VisitAllFacts(layers, deps, rank, front);
      var (fr, mid) := VisitAll(layers, deps, rank, front);
      if fr.Ok? {
        VisitFacts(mid, deps, rank, last);
        var (lr, after) := Visit(mid, deps, rank, last);
        EvolvedTrans(layers, mid, after, deps);
        FrameTrans(layers, mid, after, rank, RankBound(rank, front), rank[last] + 1, RankBound(rank, names));
        if lr.Ok? {
          var rv := fr.value + [lr.value];
          forall i | 0 <= i < |rv| ensures PoolOrNone(rv[i]) {
            if i < |fr.value| {
              assert rv[i] == fr.value[i];
            }
          }
        }
      }
    }
  }

  lemma FrameTrans(a: Layers, b: Layers, c: Layers, rank: Ranks, b1: nat, b2: nat, bound: nat)
    requires a.Keys == b.Keys == c.Keys && b1 <= bound && b2 <= bound
    requires FrameAbove(a, b, rank, b1) && FrameAbove(b, c, rank, b2)
    ensures FrameAbove(a, c, rank, bound)
  {
  }

  /** Once the traversal of some prefix of `names` has raised, the traversal of the
      whole list ends there with the same error and the same layers. */
  lemma {:induction false} VisitAllErrStops(layers: Layers, deps: Deps, rank: Ranks, names: seq<string>, j: nat)
    requires WellFormed(layers, deps, rank)
    requires forall i :: 0 <= i < |names| ==> names[i] in layers
    requires j <= |names|
    requires VisitAll(layers, deps, rank, names[..j]).0.Err?
    ensures VisitAll(layers, deps, rank, names) == VisitAll(layers, deps, rank, names[..j])
  {
    if j < |names| {
      var front := names[..|names| - 1];
      assert front[..j] == names[..j];
      VisitAllErrStops(layers, deps, rank, front, j);
    } else {
      assert names[..j] == names;
    }
  }

  /** A layer that already has a pool keeps it, and nothing is traversed below it
      (propagate.py:115-118). */
  lemma VisitTagged(layers: Layers, deps: Deps, rank: Ranks, name: string, p: Pool)
    requires WellFormed(layers, deps, rank) && name in layers
    requires GetLayerPool(layers[name]) == Ok(Some(p))
    ensures Visit(layers, deps, rank, name) == (Ok(Some(p)), layers)
  {
    assert |p| >= |PoolPrefix|;
  }

  /** An untagged root has no pool and is left alone (propagate.py:120-123). */
  lemma VisitRoot(layers: Layers, deps: Deps, rank: Ranks, name: string)
    requires WellFormed(layers, deps, rank) && name in layers
    requires GetLayerPool(layers[name]) == Ok(None) && |deps[name]| == 0
    ensures Visit(layers, deps, rank, name) == (Ok(None), layers)
  {
  }

  /** The pool a visit returns for a bare layer is the pool it wrote on it. */
  lemma VisitWritesTag(layers: Layers, deps: Deps, rank: Ranks, name: string, p: Pool)
    requires WellFormed(layers, deps, rank) && name in layers
    requires layers[name].annotations.None?
    requires Visit(layers, deps, rank, name).0 == Ok(Some(p))
    ensures GetLayerPool(Visit(layers, deps, rank, name).1[name]) == Ok(Some(p))
    ensures Visit(layers, deps, rank, name).1[name] == TagLayer(layers[name], p)
  {
    assert GetLayerPool(layers[name]) == Ok(None);
    var ds := deps[name];
    assert |ds| > 0;
    RankBoundAtMost(rank, ds, rank[name]);
    VisitAllFacts(layers, deps, rank, ds);
    var (inputs, mid) := VisitAll(layers, deps, rank, ds);
    assert inputs.Ok?;
    assert mid[name] == layers[name];
    var pairs := Zip(ds, inputs.value);
    PickPoolFromInputs(pairs, mid);
    assert PickPoolOf(pairs, mid) == Ok(Some(p));
    var i :| 0 <= i < |pairs| && Truthy(pairs[i].1) && pairs[i].1.value == p;
    assert IsPoolKey(p);
    TagLayerReadsBack(layers[name], p);
  }

  /** A layer that has annotations comes out of a visit unchanged, even when the visit
      returns a pool for it: set_pool edits a detached copy of its annotations. */
  lemma VisitKeepsAnnotated(layers: Layers, deps: Deps, rank: Ranks, name: string, k: string)
    requires WellFormed(layers, deps, rank) && name in layers
    requires k in layers && layers[k].annotations.Some?
    ensures Visit(layers, deps, rank, name).1[k] == layers[k]
  {
    VisitFacts(layers, deps, rank, name);
  }

  /** Layers carrying no pool key: then the traversal finds no pool anywhere. */
  predicate NoTags(layers: Layers) {
    forall k :: k in layers ==> GetLayerPool(layers[k]) == Ok(None)
  }

  /** `n` inputs without a pool. */
  function NoPools(n: nat): (r: seq<Option<Pool>>)
    ensures |r| == n && forall i :: 0 <= i < n ==> r[i].None?
  {
    seq(n, _ => None)
  }

  /** In a graph without any pool tag every visit returns None and changes nothing. */
  lemma {:induction false} VisitNoTags(layers: Layers, deps: Deps, rank: Ranks, name: string)
    requires WellFormed(layers, deps, rank) && name in layers && NoTags(layers)
    ensures Visit(layers, deps, rank, name) == (Ok(None), layers)
    decreases rank[name], 1, 0
  {
    if |deps[name]| > 0 {
      var ds := deps[name];
      RankBoundAtMost(rank, ds, rank[name]);
      VisitAllNoTags(layers, deps, rank, ds);
      var (inputs, mid) := VisitAll(layers, deps, rank, ds);
      var pairs := Zip(ds, inputs.value);
      assert TruthyPools(pairs) == {};
      PickPoolNoPools(pairs, mid);
    }
  }

  lemma {:induction false} VisitAllNoTags(layers: Layers, deps: Deps, rank: Ranks, names: seq<string>)
    requires WellFormed(layers, deps, rank) && NoTags(layers)
    requires forall i :: 0 <= i < |names| ==> names[i] in layers
    ensures VisitAll(layers, deps, rank, names) == (Ok(NoPools(|names|)), layers)
    decreases RankBound(rank, names), 0, |names|
  {
    if |names| > 0 {
      var front := names[..|names| - 1];
      VisitAllNoTags(layers, deps, rank, front);
      VisitNoTags(layers, deps, rank, names[|names| - 1]);
      assert NoPools(|front|) + [None] == NoPools(|names|);
    }
  }

  /** What the pass does to a graph: the same layer names; layers with annotations,
      among them every tagged layer, and roots are left as they were; any other change
      is a pool key written on a bare layer with inputs. */
  lemma OptimizeChanges(layers: Layers, deps: Deps, rank: Ranks, order: seq<string>)
    requires WellFormed(layers, deps, rank)
    requires forall i :: 0 <= i < |order| ==> order[i] in layers
    ensures var r := Optimize(layers, deps, rank, order);
      r.Ok? ==>
        r.value.Keys == layers.Keys &&
        (forall k :: k in layers && layers[k].annotations.Some? ==> r.value[k] == layers[k]) &&
        (forall k :: k in layers && GetLayerPool(layers[k]).Ok? && GetLayerPool(layers[k]).value.Some? ==>
           r.value[k] == layers[k]) &&
        (forall k :: k in layers && |deps[k]| == 0 ==> r.value[k] == layers[k]) &&
        (forall k :: k in layers && r.value[k] != layers[k] ==>
           layers[k].annotations.None? && |deps[k]| > 0 &&
           GetLayerPool(r.value[k]).Ok? && GetLayerPool(r.value[k]).value.Some? &&
           r.value[k] == TagLayer(layers[k], GetLayerPool(r.value[k]).value.value))
  {
    var leaves := Leaves(order, deps);
    assert forall i :: 0 <= i < |leaves| ==> leaves[i] in layers by {
      forall i | 0 <= i < |leaves| ensures leaves[i] in layers {
        assert leaves[i] in leaves;
      }
    }
    VisitAllFacts(layers, deps, rank, leaves);
    forall k | k in layers && GetLayerPool(layers[k]).Ok? && GetLayerPool(layers[k]).value.Some?
      ensures layers[k].annotations.Some?
    {
    }
  }

  /** A graph without pool tags comes out of the pass unchanged. */
  lemma OptimizeNoTags(layers: Layers, deps: Deps, rank: Ranks, order: seq<string>)
    requires WellFormed(layers, deps, rank) && NoTags(layers)
    requires forall i :: 0 <= i < |order| ==> order[i] in layers
    ensures Optimize(layers, deps, rank, order) == Ok(layers)
  {
    var leaves := Leaves(order, deps);
    assert forall i :: 0 <= i < |leaves| ==> leaves[i] in layers by {
      forall i | 0 <= i < |leaves| ensures leaves[i] in layers {
        assert leaves[i] in leaves;
      }
    }
    VisitAllNoTags(layers, deps, rank, leaves);
  }

  // ---------------------------------------------------------------------------
  // The graph object and the pass as methods
  // ---------------------------------------------------------------------------

  /** Every listed layer exists, every layer is listed exactly once (the keys of a
      dict are distinct), and dependencies are closed. */
  predicate GraphShape(layers: Layers, deps: Deps, order: seq<string>) {
    Closed(layers, deps) &&
    (forall i :: 0 <= i < |order| ==> order[i] in layers) &&
    (forall k :: k in layers ==> k in order) &&
    (forall i, j :: 0 <= i < j < |order| ==> order[i] != order[j])
  }

  /** The shape of a graph depends only on the names of its layers. */
  lemma GraphShapeKeys(a: Layers, b: Layers, deps: Deps, order: seq<string>)
    requires GraphShape(a, deps, order) && b.Keys == a.Keys
    ensures GraphShape(b, deps, order)
  {
  }

  /** The parts of dask's HighLevelGraph the pass reads and writes. */
  class HighLevelGraph {
    var layers: Layers
    var dependencies: Deps
    /** The iteration order of `layers`. */
    var layerOrder: seq<string>

    predicate Valid()
      reads this
    {
      GraphShape(layers, dependencies, layerOrder)
    }

    constructor (layers: Layers, dependencies: Deps, layerOrder: seq<string>)
      requires GraphShape(layers, dependencies, layerOrder)
      ensures Valid()
      ensures this.layers == layers && this.dependencies == dependencies && this.layerOrder == layerOrder
    {
      this.layers := layers;
      this.dependencies := dependencies;
      this.layerOrder := layerOrder;
    }

    /** `dsk.copy()`: a new graph object with the same layer map; layers are values, so
        later edits of the copy's map never reach this graph. */
    method Copy() returns (g: HighLevelGraph)
      requires Valid()
      ensures fresh(g) && g.Valid()
      ensures g.layers == layers && g.dependencies == dependencies && g.layerOrder == layerOrder
    {
      g := new HighLevelGraph(layers, dependencies, layerOrder);
    }
  }

  /** pick_pool (propagate.py:12-75): the loop over the inputs, then the ranking. */
  method PickPool(depsPools: seq<DepPool>, dsk: HighLevelGraph) returns (r: Result<Option<Pool>, Error>)
    requires DepsIn(depsPools, dsk.layers)
    ensures r == PickPoolOf(depsPools, dsk.layers)
  {
    if |depsPools| == 0 {
      return Ok(None);
    }
    var poolBytes: Counter := [];
    var poolKeyCounts: Counter := [];
    var unknownSizes := false;
    for i := 0 to |depsPools|
      invariant Tally(poolKeyCounts, poolBytes, unknownSizes) == Accumulate(depsPools[..i], dsk.layers)
    {
      assert depsPools[..i + 1][..i] == depsPools[..i];
      var (dep, pool) := depsPools[i];
      if !Truthy(pool) {
        continue;
      }
      var lyr := dsk.layers[dep];
      poolKeyCounts := Add(poolKeyCounts, pool.value, lyr.keyCount);
      if !unknownSizes {
        var size := LayerBytes(lyr);
        if size.None? {
          unknownSizes := true;
        } else {
          poolBytes := Add(poolBytes, pool.value, size.value);
        }
      }
    }
    assert depsPools[..|depsPools|] == depsPools;
    r := Rank(Tally(poolKeyCounts, poolBytes, unknownSizes));
  }

  /** set_pool (propagate.py:78-95), step by step: a copy of the layer replaces it in the
      map; a layer without annotations gets a fresh dict that the copy holds, so the
      "resources" entry written into it shows; a layer with annotations gets a detached
      `dict(...)`, so the entry written into that is lost. */
  method SetPool(lyrName: string, dsk: HighLevelGraph, pool: Pool)
    requires lyrName in dsk.layers
    modifies dsk
    ensures dsk.layers == old(dsk.layers)[lyrName := TagLayer(old(dsk.layers)[lyrName], pool)]
    ensures dsk.dependencies == old(dsk.dependencies) && dsk.layerOrder == old(dsk.layerOrder)
    ensures old(dsk.Valid()) ==> dsk.Valid()
  {
    var lyr := dsk.layers[lyrName];
    dsk.layers := dsk.layers[lyrName := lyr];
    var anno: Annotations;
    var attached: bool;
    if lyr.annotations.None? {
      anno := Annotations(None, {});
      attached := true;
    } else {
      anno := lyr.annotations.value;
      attached := false;
    }
    var resources: map<string, int> := if anno.resources.Some? then anno.resources.value else map[];
    resources := resources[pool := 1];
    anno := anno.(resources := Some(resources));
    if attached {
      dsk.layers := dsk.layers[lyrName := lyr.(annotations := Some(anno))];
    }
  }

  /** _propagate_pool_recursive (propagate.py:98-129) on a graph object. */
  method PropagatePoolRecursive(lyrName: string, dsk: HighLevelGraph, ghost rank: Ranks)
    returns (r: Result<Option<Pool>, Error>)
    requires WellFormed(dsk.layers, dsk.dependencies, rank) && lyrName in dsk.layers
    modifies dsk
    ensures dsk.dependencies == old(dsk.dependencies) && dsk.layerOrder == old(dsk.layerOrder)
    ensures r == Visit(old(dsk.layers), dsk.dependencies, rank, lyrName).0
    ensures dsk.layers == Visit(old(dsk.layers), dsk.dependencies, rank, lyrName).1
    ensures old(dsk.Valid()) ==> dsk.Valid()
    decreases rank[lyrName]
  {
    var lyr := dsk.layers[lyrName];
    var pool :- GetLayerPool(lyr);
    if Truthy(pool) {
      return Ok(pool);
    }
    var deps := dsk.dependencies[lyrName];
    if |deps| == 0 {
      return Ok(None);
    }
    ghost var before := dsk.layers;
    ghost var graphDeps := dsk.dependencies;
    var inputPools: seq<Option<Pool>> := [];
    for i := 0 to |deps|
      invariant dsk.dependencies == graphDeps && dsk.layerOrder == old(dsk.layerOrder)
      invariant VisitAll(before, graphDeps, rank, deps[..i]) == (Ok(inputPools), dsk.layers)
    {
      ghost var mid := dsk.layers;
      var q := PropagatePoolRecursive(deps[i], dsk, rank);
      VisitAllStep(before, graphDeps, rank, deps, i, inputPools, mid, q, dsk.layers);
      if q.Err? {
        VisitAllErrStops(before, graphDeps, rank, deps, i + 1);
        return Err(q.error);
      }
      inputPools := inputPools + [q.value];
    }
    assert deps[..|deps|] == deps;
    VisitInputs(before, graphDeps, rank, lyrName);
    var newPool :- PickPool(Zip(deps, inputPools), dsk);
    if Truthy(newPool) {
      SetPool(lyrName, dsk, newPool.value);
    }
    return Ok(newPool);
  }

  /** One more step of VisitAll: after the prefix `names[..i]` left `mid`, visiting
      `names[i]` in `mid` extends the traversal by one name. */
  lemma VisitAllStep(layers: Layers, deps: Deps, rank: Ranks, names: seq<string>, i: nat,
                     pools: seq<Option<Pool>>, mid: Layers, q: Result<Option<Pool>, Error>, after: Layers)
    requires WellFormed(layers, deps, rank)
    requires forall j :: 0 <= j < |names| ==> names[j] in layers
    requires i < |names|
    requires VisitAll(layers, deps, rank, names[..i]) == (Ok(pools), mid)
    requires Visit(mid, deps, rank, names[i]) == (q, after)
    ensures VisitAll(layers, deps, rank, names[..i + 1]) ==
      if q.Err? then (Err(q.error), after) else (Ok(pools + [q.value]), after)
  {
    assert names[..i + 1][..i] == names[..i];
    assert names[..i + 1][i] == names[i];
  }

  /** Visit of a bare layer with inputs, once its inputs have been visited. */
  lemma VisitInputs(layers: Layers, deps: Deps, rank: Ranks, name: string)
    requires WellFormed(layers, deps, rank) && name in layers
    requires GetLayerPool(layers[name]).Ok? && !Truthy(GetLayerPool(layers[name]).value)
    requires |deps[name]| > 0
    ensures var (inputs, mid) := VisitAll(layers, deps, rank, deps[name]);
      inputs.Ok? ==>
        var picked := PickPoolOf(Zip(deps[name], inputs.value), mid);
        Visit(layers, deps, rank, name) ==
          if picked.Err? then (Err(picked.error), mid)
          else if Truthy(picked.value) then (picked, mid[name := TagLayer(mid[name], picked.value.value)])
          else (picked, mid)
  {
  }

  /** VisitInputs with the traversal of the inputs given by name. */
  lemma VisitPick(layers: Layers, deps: Deps, rank: Ranks, name: string, inputs: seq<Option<Pool>>, mid: Layers)
    requires WellFormed(layers, deps, rank) && name in layers
    requires GetLayerPool(layers[name]).Ok? && !Truthy(GetLayerPool(layers[name]).value)
    requires |deps[name]| > 0
    requires forall i :: 0 <= i < |deps[name]| ==> deps[name][i] in layers
    requires VisitAll(layers, deps, rank, deps[name]) == (Ok(inputs), mid)
    ensures |inputs| == |deps[name]| && DepsIn(Zip(deps[name], inputs), mid)
    ensures var picked := PickPoolOf(Zip(deps[name], inputs), mid);
      Visit(layers, deps, rank, name) ==
        if picked.Err? then (Err(picked.error), mid)
        else if Truthy(picked.value) then (picked, mid[name := TagLayer(mid[name], picked.value.value)])
        else (picked, mid)
  {
    VisitInputs(layers, deps, rank, name);
  }

  /** propagate_pool_optimization (propagate.py:132-143): copy the graph, then visit
      every leaf in graph order; the caller's graph is never touched. */
  method PropagatePoolOptimization(dsk: HighLevelGraph, ghost rank: Ranks)
    returns (r: Result<HighLevelGraph, Error>)
    requires dsk.Valid() && Ranked(dsk.dependencies, rank)
    ensures unchanged(dsk)
    ensures r.Err? <==> Optimize(dsk.layers, dsk.dependencies, rank, dsk.layerOrder).Err?
    ensures r.Ok? ==>
      fresh(r.value) && r.value.Valid() &&
      r.value.dependencies == dsk.dependencies && r.value.layerOrder == dsk.layerOrder &&
      Optimize(dsk.layers, dsk.dependencies, rank, dsk.layerOrder) == Ok(r.value.layers)
  {
    var g := dsk.Copy();
    var leaves := Leaves(g.layerOrder, g.dependencies);
    OptimizeUnfold(dsk.layers, dsk.dependencies, rank, dsk.layerOrder);
    var q := PropagateFromLeaves(leaves, g, rank);
    if q.Err? {
      return Err(q.error);
    }
    GraphShapeKeys(dsk.layers, g.layers, g.dependencies, g.layerOrder);
    return Ok(g);
  }

  /** The loop `for lyr in leaves: _propagate_pool_recursive(lyr, dsk)` of
      propagate.py:141-142: the leaves are visited in order, and the first exception
      ends the loop. */
  method PropagateFromLeaves(leaves: seq<string>, g: HighLevelGraph, ghost rank: Ranks)
    returns (r: Result<(), Error>)
    requires WellFormed(g.layers, g.dependencies, rank)
    requires forall i :: 0 <= i < |leaves| ==> leaves[i] in g.layers
    modifies g
    ensures g.dependencies == old(g.dependencies) && g.layerOrder == old(g.layerOrder)
    ensures r.Err? <==> VisitAll(old(g.layers), g.dependencies, rank, leaves).0.Err?
    ensures g.layers == VisitAll(old(g.layers), g.dependencies, rank, leaves).1
  {
    ghost var layers := g.layers;
    ghost var deps := g.dependencies;
    for i := 0 to |leaves|
      invariant g.dependencies == deps && g.layerOrder == old(g.layerOrder)
      invariant WellFormed(g.layers, deps, rank)
      invariant VisitAll(layers, deps, rank, leaves[..i]).0.Ok?
      invariant VisitAll(layers, deps, rank, leaves[..i]).1 == g.layers
    {
      ghost var mid := g.layers;
      ghost var pools := VisitAll(layers, deps, rank, leaves[..i]).0.value;
      var q := PropagatePoolRecursive(leaves[i], g, rank);
      VisitAllStep(layers, deps, rank, leaves, i, pools, mid, q, g.layers);
      if q.Err? {
        VisitAllErrStops(layers, deps, rank, leaves, i + 1);
        return Err(q.error);
      }
    }
    assert leaves[..|leaves|] == leaves;
    return Ok(());
  }

  /** Optimize is the traversal of the leaves. */
  lemma OptimizeUnfold(layers: Layers, deps: Deps, rank: Ranks, order: seq<string>)
    requires WellFormed(layers, deps, rank)
    requires forall i :: 0 <= i < |order| ==> order[i] in layers
    ensures var leaves := Leaves(order, deps);
      (forall i :: 0 <= i < |leaves| ==> leaves[i] in layers) &&
      var (r, after) := VisitAll(layers, deps, rank, leaves);
      Optimize(layers, deps, rank, order) == if r.Err? then Err(r.error) else Ok(after)
  {
    var leaves := Leaves(order, deps);
    forall i | 0 <= i < |leaves| ensures leaves[i] in layers {
      assert leaves[i] in leaves;
    }
  }
}
