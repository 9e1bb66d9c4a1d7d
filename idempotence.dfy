/** Running propagate_pool_optimization on its own output changes nothing.

    The argument: every layer map the pass passes through is `Consistent` with the
    input graph, meaning each layer is either as it was or is a bare layer tagged with
    the very pool the traversal of the input graph computes for it. On a consistent map
    every visit returns the same pool as on the input graph (VisitStable). A layer map
    that a visit leaves as it is stays untouched by that visit when more tags are added
    (VisitSettled), and a second visit of the same layer changes nothing (VisitRevisit);
    the pass as a whole is therefore idempotent (OptimizeIdempotent). */
module Idempotence {
  import opened Wrappers
  import opened Helpers
  import opened Picker
  import opened Propagate

  /** Two layer maps agree on everything pick_pool reads: key counts and the collection
      annotations the size estimate is made from. */
  predicate SameSizes(a: Layers, b: Layers) {
    a.Keys == b.Keys &&
    forall k :: k in a ==>
      a[k].keyCount == b[k].keyCount && a[k].collectionAnnotations == b[k].collectionAnnotations
  }

  lemma {:induction false} AccumulateSameSizes(pairs: seq<DepPool>, a: Layers, b: Layers)
    requires SameSizes(a, b) && DepsIn(pairs, a)
    ensures DepsIn(pairs, b) && Accumulate(pairs, a) == Accumulate(pairs, b)
  {
    if |pairs| > 0 {
      AccumulateSameSizes(pairs[..|pairs| - 1], a, b);
    }
  }

  /** pick_pool reads nothing that a pool tag changes. */
  lemma PickPoolSameSizes(pairs: seq<DepPool>, a: Layers, b: Layers)
    requires SameSizes(a, b) && DepsIn(pairs, a)
    ensures DepsIn(pairs, b) && PickPoolOf(pairs, a) == PickPoolOf(pairs, b)
  {
    AccumulateSameSizes(pairs, a, b);
  }

  /** `lyr` is bare layer `k` of `l0` tagged with the pool the traversal of `l0` finds
      for `k`. */
  predicate TaggedWithValue(l0: Layers, deps: Deps, rank: Ranks, k: string, lyr: Layer)
    requires WellFormed(l0, deps, rank) && k in l0
  {
    var v := Visit(l0, deps, rank, k).0;
    l0[k].annotations.None? && v.Ok? && Truthy(v.value) && lyr == TagLayer(l0[k], v.value.value)
  }

  predicate Consistent(l0: Layers, deps: Deps, rank: Ranks, l: Layers)
    requires WellFormed(l0, deps, rank)
  {
    l.Keys == l0.Keys &&
    forall k :: k in l0 ==> l[k] == l0[k] || TaggedWithValue(l0, deps, rank, k, l[k])
  }

  lemma ConsistentSizes(l0: Layers, deps: Deps, rank: Ranks, l: Layers)
    requires WellFormed(l0, deps, rank) && Consistent(l0, deps, rank, l)
    ensures SameSizes(l0, l) && WellFormed(l, deps, rank)
  {
  }

  lemma EvolvedSizes(a: Layers, b: Layers, deps: Deps)
    requires Evolved(a, b, deps)
    ensures SameSizes(a, b)
  {
  }

  /** Two successive evolutions that end where they started changed nothing. */
  lemma EvolvedAntisym(a: Layers, b: Layers, deps: Deps)
    requires Evolved(a, b, deps) && Evolved(b, a, deps)
    ensures b == a
  {
    forall k | k in a ensures b[k] == a[k] {
    }
  }

  /** On a map consistent with `l0`, a visit returns what it returns on `l0`, and leaves
      a map consistent with `l0`. */
  lemma {:induction false} VisitStable(l0: Layers, deps: Deps, rank: Ranks, l: Layers, k: string)
    requires WellFormed(l0, deps, rank) && k in l0 && Consistent(l0, deps, rank, l)
    ensures WellFormed(l, deps, rank)
    ensures Visit(l, deps, rank, k).0 == Visit(l0, deps, rank, k).0
    ensures Consistent(l0, deps, rank, Visit(l, deps, rank, k).1)
    decreases rank[k], 1, 0
  {
    VisitFacts(l0, deps, rank, k);
    if l[k] != l0[k] {
      var p := Visit(l0, deps, rank, k).0.value.value;
      TagLayerReadsBack(l0[k], p);
      VisitTagged(l, deps, rank, k, p);
    } else {
      var own := GetLayerPool(l0[k]);
      if own.Ok? && !Truthy(own.value) && |deps[k]| > 0 {
        RankBoundAtMost(rank, deps[k], rank[k]);
        VisitAllStable(l0, deps, rank, l, deps[k]);
        StableInputs(l0, deps, rank, l, k);
      }
    }
  }

  /** The step of VisitStable for an untagged layer with inputs, once its inputs are
      known to resolve as on `l0`. */
  lemma StableInputs(l0: Layers, deps: Deps, rank: Ranks, l: Layers, k: string)
    requires WellFormed(l0, deps, rank) && k in l0 && Consistent(l0, deps, rank, l) && l[k] == l0[k]
    requires GetLayerPool(l0[k]).Ok? && !Truthy(GetLayerPool(l0[k]).value) && |deps[k]| > 0
    requires WellFormed(l, deps, rank)
    requires VisitAll(l, deps, rank, deps[k]).0 == VisitAll(l0, deps, rank, deps[k]).0
    requires Consistent(l0, deps, rank, VisitAll(l, deps, rank, deps[k]).1)
    ensures Visit(l, deps, rank, k).0 == Visit(l0, deps, rank, k).0
    ensures Consistent(l0, deps, rank, Visit(l, deps, rank, k).1)
  {
    var ds := deps[k];
    RankBoundAtMost(rank, ds, rank[k]);
    VisitAllFacts(l, deps, rank, ds);
    VisitAllFacts(l0, deps, rank, ds);
    var (r, l1) := VisitAll(l, deps, rank, ds);
    var (r0, m0) := VisitAll(l0, deps, rank, ds);
    if r.Ok? {
      var pairs := Zip(ds, r.value);
      VisitPick(l, deps, rank, k, r.value, l1);
      VisitPick(l0, deps, rank, k, r.value, m0);
      ConsistentSizes(l0, deps, rank, l1);
      EvolvedSizes(l0, m0, deps);
      PickPoolSameSizes(pairs, l1, m0);
      assert l1[k] == l0[k];
      var picked := PickPoolOf(pairs, l1);
      if picked.Ok? && Truthy(picked.value) {
        ConsistentTag(l0, deps, rank, l1, k, picked.value.value);
      }
    }
  }

  /** Tagging a layer of `l0` with the pool the traversal of `l0` finds for it keeps a
      map consistent. */
  lemma ConsistentTag(l0: Layers, deps: Deps, rank: Ranks, l: Layers, k: string, p: Pool)
    requires WellFormed(l0, deps, rank) && k in l0 && Consistent(l0, deps, rank, l) && l[k] == l0[k]
    requires Visit(l0, deps, rank, k).0 == Ok(Some(p)) && p != ""
    ensures Consistent(l0, deps, rank, l[k := TagLayer(l[k], p)])
  {
    var t := l[k := TagLayer(l[k], p)];
    assert TagLayer(l0[k], p) == l0[k] || TaggedWithValue(l0, deps, rank, k, t[k]);
  }

  lemma {:induction false} VisitAllStable(l0: Layers, deps: Deps, rank: Ranks, l: Layers, names: seq<string>)
    requires WellFormed(l0, deps, rank) && Consistent(l0, deps, rank, l)
    requires forall i :: 0 <= i < |names| ==> names[i] in l0
    ensures WellFormed(l, deps, rank)
    ensures VisitAll(l, deps, rank, names).0 == VisitAll(l0, deps, rank, names).0
    ensures Consistent(l0, deps, rank, VisitAll(l, deps, rank, names).1)
    decreases RankBound(rank, names), 0, |names|
  {
    if |names| > 0 {
      var front := names[..|names| - 1];
      var last := names[|names| - 1];
      VisitAllStable(l0, deps, rank, l, front);
      VisitAllStable(l0, deps, rank, l0, front);
      var (fr, mid) := VisitAll(l, deps, rank, front);
      var (fr0, mid0) := VisitAll(l0, deps, rank, front);
      if fr.Ok? {
        VisitStable(l0, deps, rank, mid, last);
        VisitStable(l0, deps, rank, mid0, last);
      }
    }
  }

  /** A visit that leaves `l` as it is also leaves alone any consistent map with more
      tags than `l`. */
  lemma {:induction false} VisitSettled(l0: Layers, deps: Deps, rank: Ranks, l: Layers, m: Layers, k: string)
    requires WellFormed(l0, deps, rank) && k in l0
    requires Consistent(l0, deps, rank, l) && Consistent(l0, deps, rank, m) && Evolved(l, m, deps)
    requires WellFormed(l, deps, rank) && Visit(l, deps, rank, k).1 == l
    ensures WellFormed(m, deps, rank) && Visit(m, deps, rank, k).1 == m
    decreases rank[k], 1, 0
  {
    ConsistentSizes(l0, deps, rank, m);
    if m[k] != l[k] {
      var g := GetLayerPool(m[k]);
      assert |g.value.value| >= |PoolPrefix|;
      VisitTagged(m, deps, rank, k, g.value.value);
    } else {
      var own := GetLayerPool(l[k]);
      if own.Ok? && !Truthy(own.value) && |deps[k]| > 0 {
        var ds := deps[k];
        RankBoundAtMost(rank, ds, rank[k]);
        SettledInputsUnchanged(l, deps, rank, k);
        VisitAllSettled(l0, deps, rank, l, m, ds);
        VisitAllStable(l0, deps, rank, l, ds);
        VisitAllStable(l0, deps, rank, m, ds);
        EvolvedSizes(l, m, deps);
        SettledPick(l, m, deps, rank, k);
      }
    }
  }

  /** A visit that leaves `l` as it is has already left it so after visiting the inputs. */
  lemma SettledInputsUnchanged(l: Layers, deps: Deps, rank: Ranks, k: string)
    requires WellFormed(l, deps, rank) && k in l
    requires GetLayerPool(l[k]).Ok? && !Truthy(GetLayerPool(l[k]).value) && |deps[k]| > 0
    requires Visit(l, deps, rank, k).1 == l
    ensures forall i :: 0 <= i < |deps[k]| ==> deps[k][i] in l
    ensures VisitAll(l, deps, rank, deps[k]).1 == l
  {
    var ds := deps[k];
    RankBoundAtMost(rank, ds, rank[k]);
    VisitAllFacts(l, deps, rank, ds);
    var (r, l1) := VisitAll(l, deps, rank, ds);
    VisitInputs(l, deps, rank, k);
    assert l1 == l by {
      forall j | j in l ensures l1[j] == l[j] {
        if j != k {
          assert l1[j] == Visit(l, deps, rank, k).1[j];
        }
      }
    }
  }

  /** The last step of VisitSettled: with the inputs settled in both maps, the pick is
      the same and writes nothing new. */
  lemma SettledPick(l: Layers, m: Layers, deps: Deps, rank: Ranks, k: string)
    requires WellFormed(l, deps, rank) && k in l && SameSizes(l, m) && m[k] == l[k]
    requires GetLayerPool(l[k]).Ok? && !Truthy(GetLayerPool(l[k]).value) && |deps[k]| > 0
    requires Visit(l, deps, rank, k).1 == l
    requires VisitAll(l, deps, rank, deps[k]).1 == l
    requires WellFormed(m, deps, rank) && VisitAll(m, deps, rank, deps[k]) == (VisitAll(l, deps, rank, deps[k]).0, m)
    ensures Visit(m, deps, rank, k).1 == m
  {
    var ds := deps[k];
    RankBoundAtMost(rank, ds, rank[k]);
    var r := VisitAll(l, deps, rank, ds).0;
    if r.Ok? {
      VisitPick(l, deps, rank, k, r.value, l);
      VisitPick(m, deps, rank, k, r.value, m);
      PickPoolSameSizes(Zip(ds, r.value), l, m);
    } else {
      VisitInputs(m, deps, rank, k);
    }
  }

  lemma {:induction false} VisitAllSettled(l0: Layers, deps: Deps, rank: Ranks, l: Layers, m: Layers, names: seq<string>)
    requires WellFormed(l0, deps, rank)
    requires forall i :: 0 <= i < |names| ==> names[i] in l0
    requires Consistent(l0, deps, rank, l) && Consistent(l0, deps, rank, m) && Evolved(l, m, deps)
    requires WellFormed(l, deps, rank) && VisitAll(l, deps, rank, names).1 == l
    ensures WellFormed(m, deps, rank) && VisitAll(m, deps, rank, names).1 == m
    decreases RankBound(rank, names), 0, |names|
  {
    ConsistentSizes(l0, deps, rank, m);
    if |names| > 0 {
      var front := names[..|names| - 1];
      var last := names[|names| - 1];
      VisitAllFacts(l, deps, rank, front);
      var (fr, mid) := VisitAll(l, deps, rank, front);
      VisitAllStable(l0, deps, rank, l, front);
      VisitAllStable(l0, deps, rank, m, front);
      if fr.Ok? {
        VisitFacts(mid, deps, rank, last);
        EvolvedAntisym(l, mid, deps);
      }
      VisitAllSettled(l0, deps, rank, l, m, front);
      if fr.Ok? {
        VisitSettled(l0, deps, rank, l, m, last);
      }
    }
  }

  /** Visiting a layer a second time changes nothing. */
  lemma {:induction false} VisitRevisit(l0: Layers, deps: Deps, rank: Ranks, l: Layers, k: string)
    requires WellFormed(l0, deps, rank) && k in l0 && Consistent(l0, deps, rank, l)
    ensures WellFormed(l, deps, rank)
    ensures Visit(Visit(l, deps, rank, k).1, deps, rank, k).1 == Visit(l, deps, rank, k).1
    decreases rank[k], 1, 0
  {
    ConsistentSizes(l0, deps, rank, l);
    VisitFacts(l, deps, rank, k);
    var m := Visit(l, deps, rank, k).1;
    if m[k] != l[k] {
      var g := GetLayerPool(m[k]);
      assert |g.value.value| >= |PoolPrefix|;
      VisitTagged(m, deps, rank, k, g.value.value);
    } else {
      var own := GetLayerPool(l[k]);
      if own.Ok? && !Truthy(own.value) && |deps[k]| > 0 {
        RankBoundAtMost(rank, deps[k], rank[k]);
        VisitAllRevisit(l0, deps, rank, l, deps[k]);
        RevisitInputs(l0, deps, rank, l, k);
      }
    }
  }

  /** The second visit of a bare layer with inputs that the first visit left as it was:
      its inputs come out the same, and so does the pick. */
  lemma RevisitInputs(l0: Layers, deps: Deps, rank: Ranks, l: Layers, k: string)
    requires WellFormed(l0, deps, rank) && k in l0 && Consistent(l0, deps, rank, l)
    requires WellFormed(l, deps, rank)
    requires GetLayerPool(l[k]).Ok? && !Truthy(GetLayerPool(l[k]).value) && |deps[k]| > 0
    requires Visit(l, deps, rank, k).1[k] == l[k]
    requires var l1 := VisitAll(l, deps, rank, deps[k]).1;
      VisitAll(l1, deps, rank, deps[k]).1 == l1
    ensures Visit(Visit(l, deps, rank, k).1, deps, rank, k).1 == Visit(l, deps, rank, k).1
  {
    var ds := deps[k];
    RankBoundAtMost(rank, ds, rank[k]);
    VisitAllFacts(l, deps, rank, ds);
    VisitAllStable(l0, deps, rank, l, ds);
    var l1 := VisitAll(l, deps, rank, ds).1;
    ConsistentSizes(l0, deps, rank, l1);
    VisitAllStable(l0, deps, rank, l1, ds);
    RevisitPick(l, l1, deps, rank, k);
  }

  /** RevisitInputs once the inputs are known to resolve to the same results and the
      same map a second time. */
  lemma RevisitPick(l: Layers, l1: Layers, deps: Deps, rank: Ranks, k: string)
    requires WellFormed(l, deps, rank) && k in l && WellFormed(l1, deps, rank)
    requires GetLayerPool(l[k]).Ok? && !Truthy(GetLayerPool(l[k]).value) && |deps[k]| > 0
    requires Visit(l, deps, rank, k).1[k] == l[k] && l1[k] == l[k]
    requires VisitAll(l, deps, rank, deps[k]).1 == l1
    requires VisitAll(l1, deps, rank, deps[k]) == VisitAll(l, deps, rank, deps[k])
    ensures Visit(Visit(l, deps, rank, k).1, deps, rank, k).1 == Visit(l, deps, rank, k).1
  {
    var ds := deps[k];
    RankBoundAtMost(rank, ds, rank[k]);
    var r := VisitAll(l, deps, rank, ds).0;
    VisitInputs(l, deps, rank, k);
    VisitInputs(l1, deps, rank, k);
    if r.Ok? {
      VisitPick(l, deps, rank, k, r.value, l1);
      VisitPick(l1, deps, rank, k, r.value, l1);
      assert Visit(l, deps, rank, k).1 == l1;
    }
  }

  lemma {:induction false} VisitAllRevisit(l0: Layers, deps: Deps, rank: Ranks, l: Layers, names: seq<string>)
    requires WellFormed(l0, deps, rank) && Consistent(l0, deps, rank, l)
    requires forall i :: 0 <= i < |names| ==> names[i] in l0
    ensures WellFormed(l, deps, rank)
    ensures VisitAll(VisitAll(l, deps, rank, names).1, deps, rank, names).1 == VisitAll(l, deps, rank, names).1
    decreases RankBound(rank, names), 0, |names|
  {
    ConsistentSizes(l0, deps, rank, l);
    if |names| > 0 {
      var front := names[..|names| - 1];
      var last := names[|names| - 1];
      VisitAllRevisit(l0, deps, rank, l, front);
      VisitAllStable(l0, deps, rank, l, front);
      var (fr, mid) := VisitAll(l, deps, rank, front);
      ConsistentSizes(l0, deps, rank, mid);
      VisitAllStable(l0, deps, rank, mid, front);
      if fr.Ok? {
        var m := Visit(mid, deps, rank, last).1;
        VisitStable(l0, deps, rank, mid, last);
        VisitFacts(mid, deps, rank, last);
        VisitAllSettled(l0, deps, rank, mid, m, front);
        VisitAllStable(l0, deps, rank, m, front);
        VisitRevisit(l0, deps, rank, mid, last);
      }
      RevisitSnoc(l, deps, rank, names);
    }
  }

  /** VisitAllRevisit for `names`, from the same facts about its front and its last
      name. */
  lemma RevisitSnoc(l: Layers, deps: Deps, rank: Ranks, names: seq<string>)
    requires WellFormed(l, deps, rank) && |names| > 0
    requires forall i :: 0 <= i < |names| ==> names[i] in l
    requires var (fr, mid) := VisitAll(l, deps, rank, names[..|names| - 1]);
      WellFormed(mid, deps, rank) &&
      VisitAll(mid, deps, rank, names[..|names| - 1]) == (fr, mid) &&
      (fr.Ok? ==>
        var m := Visit(mid, deps, rank, names[|names| - 1]).1;
        WellFormed(m, deps, rank) &&
        VisitAll(m, deps, rank, names[..|names| - 1]) == (fr, m) &&
        Visit(m, deps, rank, names[|names| - 1]).1 == m)
    ensures VisitAll(VisitAll(l, deps, rank, names).1, deps, rank, names).1 == VisitAll(l, deps, rank, names).1
  {
  }

  /** Every layer the pass changes was bare and now carries the pool that the traversal
      of the input graph finds for it (propagate.py:127-128). */
  lemma OptimizeTagsAsVisited(layers: Layers, deps: Deps, rank: Ranks, order: seq<string>)
    requires WellFormed(layers, deps, rank)
    requires forall i :: 0 <= i < |order| ==> order[i] in layers
    ensures var r := Optimize(layers, deps, rank, order);
      r.Ok? ==>
        r.value.Keys == layers.Keys &&
        forall k :: k in layers && r.value[k] != layers[k] ==>
          layers[k].annotations.None? &&
          Visit(layers, deps, rank, k).0.Ok? && Truthy(Visit(layers, deps, rank, k).0.value) &&
          r.value[k] == TagLayer(layers[k], Visit(layers, deps, rank, k).0.value.value)
  {
    OptimizeUnfold(layers, deps, rank, order);
    VisitAllStable(layers, deps, rank, layers, Leaves(order, deps));
  }

  /** After the comprehension over `names` succeeds, a bare layer `k` among them whose
      traversal finds pool `p` carries `p`. */
  lemma {:induction false} VisitAllTags(l0: Layers, deps: Deps, rank: Ranks, names: seq<string>, k: string, p: Pool)
    requires WellFormed(l0, deps, rank)
    requires forall i :: 0 <= i < |names| ==> names[i] in l0
    requires k in names && l0[k].annotations.None? && Visit(l0, deps, rank, k).0 == Ok(Some(p))
    ensures VisitAll(l0, deps, rank, names).0.Ok? ==> VisitAll(l0, deps, rank, names).1[k] == TagLayer(l0[k], p)
    decreases |names|
  {
    var front := names[..|names| - 1];
    var last := names[|names| - 1];
    assert names == front + [last];
    VisitAllStable(l0, deps, rank, l0, front);
    var (fr, mid) := VisitAll(l0, deps, rank, front);
    if fr.Ok? {
      ConsistentSizes(l0, deps, rank, mid);
      if k in front {
        VisitAllTags(l0, deps, rank, front, k, p);
        VisitKeepsAnnotated(mid, deps, rank, last, k);
      } else {
        assert k == last;
        VisitStable(l0, deps, rank, mid, last);
        if mid[k] == l0[k] {
          VisitWritesTag(mid, deps, rank, k, p);
        } else {
          VisitKeepsAnnotated(mid, deps, rank, last, k);
        }
      }
    }
  }

  /** A bare leaf whose traversal finds pool `p` ends tagged with `p` (propagate.py:127-128,
      140-142). */
  lemma OptimizeTagsLeaves(layers: Layers, deps: Deps, rank: Ranks, order: seq<string>, k: string, p: Pool)
    requires WellFormed(layers, deps, rank)
    requires forall i :: 0 <= i < |order| ==> order[i] in layers
    requires k in order && !HasDependents(deps, k) && layers[k].annotations.None?
    requires Visit(layers, deps, rank, k).0 == Ok(Some(p))
    ensures var r := Optimize(layers, deps, rank, order);
      r.Ok? ==> r.value[k] == TagLayer(layers[k], p)
  {
    OptimizeUnfold(layers, deps, rank, order);
    LeavesExactly(order, deps);
    VisitAllTags(layers, deps, rank, Leaves(order, deps), k, p);
  }

  /** The pass is idempotent: on the graph it produced it succeeds again and produces
      the same graph. */
  lemma OptimizeIdempotent(layers: Layers, deps: Deps, rank: Ranks, order: seq<string>)
    requires WellFormed(layers, deps, rank)
    requires forall i :: 0 <= i < |order| ==> order[i] in layers
    ensures var r := Optimize(layers, deps, rank, order);
      r.Ok? ==>
        WellFormed(r.value, deps, rank) &&
        (forall i :: 0 <= i < |order| ==> order[i] in r.value) &&
        Optimize(r.value, deps, rank, order) == r
  {
    var leaves := Leaves(order, deps);
    OptimizeUnfold(layers, deps, rank, order);
    VisitAllStable(layers, deps, rank, layers, leaves);
    var (res, out) := VisitAll(layers, deps, rank, leaves);
    if res.Ok? {
      ConsistentSizes(layers, deps, rank, out);
      VisitAllRevisit(layers, deps, rank, layers, leaves);
      VisitAllStable(layers, deps, rank, out, leaves);
      OptimizeUnfold(out, deps, rank, order);
    }
  }
}
