/** Reading a layer's worker-pool tag and estimating the bytes a layer produces
    (dask_worker_pools/helpers.py). */
module Helpers {
  import opened Wrappers

  /** A pool is the resource key that names it, e.g. "pool-gpu". */
  type Pool = string

  const PoolPrefix: string := "pool-"

  /** The exceptions the core raises; Python raises `ValueError` for both. */
  datatype Error =
    | MultiplePools(pools: set<Pool>)  // a layer carries two or more pool keys
    | NothingToUnpack                  // pick_pool ranks an empty byte counter

  /** A numpy dtype, reduced to what the size estimate reads. */
  datatype Dtype = Dtype(itemsize: nat, kind: char)

  /** The `collection_annotations` dict of a layer. `None` means the key is absent;
      a dimension `None` is a NaN (unknown) dimension; `otherKeys` are the names of
      any further keys, which matter only for the truthiness of the dict. The keys
      "shape", "dtype", "npartitions" and "series_dtypes" are held by the fields, so
      `otherKeys` stands for keys other than those four. */
  datatype CollectionAnnotations = CollectionAnnotations(
    shape: Option<seq<Option<nat>>>,
    dtype: Option<Dtype>,
    npartitions: Option<nat>,
    seriesDtypes: Option<seq<Dtype>>,
    otherKeys: set<string>)

  /** The `annotations` dict of a layer: its optional "resources" entry and the names
      of its other entries. The "resources" entry is held by its own field, so
      `otherKeys` stands for keys other than "resources". */
  datatype Annotations = Annotations(resources: Option<map<string, int>>, otherKeys: set<string>)

  /** A layer of the high-level graph: `len(layer)`, `layer.annotations` and
      `layer.collection_annotations`. */
  datatype Layer = Layer(
    keyCount: nat,
    annotations: Option<Annotations>,
    collectionAnnotations: Option<CollectionAnnotations>)

  /** Python truthiness of the annotations: neither None nor an empty dict. */
  predicate AnnotationsTruthy(a: Option<Annotations>) {
    a.Some? && (a.value.resources.Some? || a.value.otherKeys != {})
  }

  /** Python truthiness of the collection annotations. */
  predicate CollectionTruthy(ca: Option<CollectionAnnotations>) {
    ca.Some? &&
    (ca.value.shape.Some? || ca.value.dtype.Some? || ca.value.npartitions.Some? ||
     ca.value.seriesDtypes.Some? || ca.value.otherKeys != {})
  }

  // ---------------------------------------------------------------------------
  // Pool tags
  // ---------------------------------------------------------------------------

  /** `str.lower()` on one character, for the ASCII letters. */
  function LowerChar(c: char): char {
    if 'A' <= c <= 'Z' then (c as int + 32) as char else c
  }

  function Lower(s: string): (r: string)
    ensures |r| == |s|
    ensures forall i :: 0 <= i < |s| ==> r[i] == LowerChar(s[i])
  {
    seq(|s|, i requires 0 <= i < |s| => LowerChar(s[i]))
  }

  /** `r.lower().startswith(POOL_PREFIX)`. */
  predicate IsPoolKey(k: string) {
    |k| >= |PoolPrefix| && Lower(k)[..|PoolPrefix|] == PoolPrefix
  }

  /** The pool keys among a resources dict, spelled as they are stored. */
  function PoolKeys(resources: map<string, int>): set<Pool> {
    set k | k in resources && IsPoolKey(k)
  }

  /** Every pool key the layer carries: none when its annotations are falsy or have no
      "resources" entry. */
  function LayerPoolKeys(lyr: Layer): set<Pool> {
    if AnnotationsTruthy(lyr.annotations) && lyr.annotations.value.resources.Some?
    then PoolKeys(lyr.annotations.value.resources.value)
    else {}
  }

  lemma SingletonUnique(s: set<Pool>)
    requires |s| == 1
    ensures forall a, b :: a in s && b in s ==> a == b
  {
    forall a, b | a in s && b in s ensures a == b {
      assert |s - {a}| == 0;
      assert s - {a} == {};
      assert b !in s - {a};
    }
  }

  /** get_layer_pool: the layer's one pool key, `None` when it has none, and an error
      when it has more than one. */
  function GetLayerPool(lyr: Layer): (r: Result<Option<Pool>, Error>)
    ensures r.Err? <==> |LayerPoolKeys(lyr)| > 1
    ensures r == Ok(None) <==> LayerPoolKeys(lyr) == {}
    ensures r.Ok? && r.value.Some? ==> LayerPoolKeys(lyr) == {r.value.value}
    ensures r.Ok? && r.value.Some? ==> IsPoolKey(r.value.value)
  {
    if !AnnotationsTruthy(lyr.annotations) then Ok(None)
    else if lyr.annotations.value.resources.None? then Ok(None)  // KeyError on "resources"
    else
      var pools := PoolKeys(lyr.annotations.value.resources.value);
      if |pools| == 0 then Ok(None)
      else if |pools| > 1 then Err(MultiplePools(pools))
      else
        SingletonUnique(pools);
        var p :| p in pools;
        assert pools == {p} by {
          assert forall q :: q in pools ==> q == p;
        }
        Ok(Some(p))
  }

  /** The key `pool(name)` writes, POOL_PREFIX + name, is read back as a pool key
      whatever the name (interface.py:15). */
  lemma PrefixedNameIsPoolKey(name: string)
    ensures IsPoolKey(PoolPrefix + name)
  {
    var k := PoolPrefix + name;
    assert Lower(k)[..|PoolPrefix|] == PoolPrefix by {
      forall i | 0 <= i < |PoolPrefix| ensures Lower(k)[i] == PoolPrefix[i] {
        assert k[i] == PoolPrefix[i];
      }
    }
  }

  /** The prefix is matched case-insensitively: "POOL-x" is a pool key too. */
  lemma UpperCasePrefixIsPoolKey(name: string)
    ensures IsPoolKey("POOL-" + name)
  {
    var k := "POOL-" + name;
    assert Lower(k)[..|PoolPrefix|] == PoolPrefix by {
      forall i | 0 <= i < |PoolPrefix| ensures Lower(k)[i] == PoolPrefix[i] {
        assert k[i] == "POOL-"[i];
      }
    }
  }

  /** Two resource keys that differ only in the case of the prefix name two pools, and
      reading the tag fails rather than picking one of them. */
  lemma CaseVariantsAreAmbiguous(name: string, others: set<string>, v: int, w: int)
    ensures GetLayerPool(Layer(0, Some(Annotations(Some(map["pool-" + name := v, "POOL-" + name := w]), others)), None)).Err?
  {
    var res := map["pool-" + name := v, "POOL-" + name := w];
    PrefixedNameIsPoolKey(name);
    UpperCasePrefixIsPoolKey(name);
    assert ("pool-" + name)[0] != ("POOL-" + name)[0];
    assert {"pool-" + name, "POOL-" + name} <= PoolKeys(res);
    assert |{"pool-" + name, "POOL-" + name}| == 2;
  }

  /** Resource entries whose key is not a pool key never change the tag that is read. */
  lemma NonPoolKeysIgnored(lyr: Layer, k: string, v: int)
    requires lyr.annotations.Some? && lyr.annotations.value.resources.Some?
    requires !IsPoolKey(k)
    ensures var a := lyr.annotations.value;
            GetLayerPool(lyr.(annotations := Some(a.(resources := Some(a.resources.value[k := v]))))) == GetLayerPool(lyr)
  {
    var res := lyr.annotations.value.resources.value;
    assert PoolKeys(res[k := v]) == PoolKeys(res);
  }

  // ---------------------------------------------------------------------------
  // Size estimation
  // ---------------------------------------------------------------------------

  /** `functools.reduce(operator.mul, shape, 1)`, with NaN (`None`) absorbing. */
  function ShapeSize(shape: seq<Option<nat>>): (r: Option<nat>)
    ensures r.None? <==> exists i :: 0 <= i < |shape| && shape[i].None?
    ensures r == Some(0) <==> r.Some? && exists i :: 0 <= i < |shape| && shape[i] == Some(0)
  {
    if |shape| == 0 then Some(1)
    else
      var front := ShapeSize(shape[..|shape| - 1]);
      var last := shape[|shape| - 1];
      assert forall i :: 0 <= i < |shape| - 1 ==> shape[..|shape| - 1][i] == shape[i];
      if front.None? || last.None? then None
      else Some(front.value * last.value)
  }

  /** The element count multiplies over a split of the dimensions. */
  lemma {:induction false} ShapeSizeAppend(a: seq<Option<nat>>, b: seq<Option<nat>>)
    ensures ShapeSize(a + b) ==
      if ShapeSize(a).Some? && ShapeSize(b).Some? then Some(ShapeSize(a).value * ShapeSize(b).value) else None
  {
    if |b| == 0 {
      assert a + b == a;
    } else {
      var front := b[..|b| - 1];
      assert (a + b)[..|a + b| - 1] == a + front;
      assert (a + b)[|a + b| - 1] == b[|b| - 1];
      ShapeSizeAppend(a, front);
      if ShapeSize(a).Some? && ShapeSize(front).Some? && b[|b| - 1].Some? {
        var x, y, z := ShapeSize(a).value, ShapeSize(front).value, b[|b| - 1].value;
        assert x * y * z == x * (y * z);
      }
    }
  }

  /** A single known dimension counts as itself. */
  lemma ShapeSizeOne(d: nat)
    ensures ShapeSize([Some(d)]) == Some(d)
  {
    assert [Some(d)][..0] == [];
  }

  /** layer_bytes_array: the number of elements times the item size; `None` when the
      shape or the dtype is absent or a dimension is NaN. */
  function LayerBytesArray(ca: CollectionAnnotations): (r: Option<nat>)
    ensures r.None? <==>
      ca.shape.None? || ca.dtype.None? || exists i :: 0 <= i < |ca.shape.value| && ca.shape.value[i].None?
    ensures r == Some(0) <==>
      r.Some? && (ca.dtype.value.itemsize == 0 || exists i :: 0 <= i < |ca.shape.value| && ca.shape.value[i] == Some(0))
    ensures ca.shape == Some([]) && ca.dtype.Some? ==> r == Some(ca.dtype.value.itemsize)
    ensures r.Some? ==> r.value == ShapeSize(ca.shape.value).value * ca.dtype.value.itemsize
  {
    if ca.shape.None? || ca.dtype.None? then None  // KeyError
    else
      match ShapeSize(ca.shape.value)
      case None => None
      case Some(size) => Some(size * ca.dtype.value.itemsize)
  }

  /** The width one column contributes: its item size, or 1024 when its kind is "o". */
  function ColumnWidth(dt: Dtype): nat {
    if dt.kind != 'o' then dt.itemsize else 1024
  }

  /** The sum of the column widths over the values of `series_dtypes`. */
  function RowWidth(dtypes: seq<Dtype>): nat {
    if |dtypes| == 0 then 0 else ColumnWidth(dtypes[0]) + RowWidth(dtypes[1..])
  }

  /** layer_bytes_dataframe: partitions times the width of one row; `None` when either
      entry is absent. */
  function LayerBytesDataframe(ca: CollectionAnnotations): (r: Option<nat>)
    ensures r.None? <==> ca.npartitions.None? || ca.seriesDtypes.None?
    ensures r.Some? ==> r.value == RowWidth(ca.seriesDtypes.value) * ca.npartitions.value
  {
    if ca.npartitions.None? || ca.seriesDtypes.None? then None  // KeyError
    else Some(RowWidth(ca.seriesDtypes.value) * ca.npartitions.value)
  }

  /** The row width adds up over a split of the columns. */
  lemma {:induction false} RowWidthAppend(a: seq<Dtype>, b: seq<Dtype>)
    ensures RowWidth(a + b) == RowWidth(a) + RowWidth(b)
  {
    if |a| > 0 {
      assert (a + b)[1..] == a[1..] + b;
      RowWidthAppend(a[1..], b);
    } else {
      assert a + b == b;
    }
  }

  /** The row width does not depend on the order of the columns, so the iteration order
      of the `series_dtypes` dict does not matter. */
  lemma {:induction false} RowWidthPermutation(a: seq<Dtype>, b: seq<Dtype>)
    requires multiset(a) == multiset(b)
    ensures RowWidth(a) == RowWidth(b)
    decreases |a|
  {
    if |a| > 0 {
      var x := a[0];
      assert x in multiset(b);
      var j :| 0 <= j < |b| && b[j] == x;
      var rest := b[..j] + b[j + 1..];
      RemoveColumn(b, j);
      assert a == [x] + a[1..];
      assert multiset(a[1..]) == multiset(a) - multiset{x};
      RowWidthPermutation(a[1..], rest);
    } else {
      assert |b| == |multiset(b)| == 0;
    }
  }

  /** Taking column `j` out of a row removes its width and one copy of it. */
  lemma RemoveColumn(b: seq<Dtype>, j: nat)
    requires j < |b|
    ensures RowWidth(b) == ColumnWidth(b[j]) + RowWidth(b[..j] + b[j + 1..])
    ensures multiset(b[..j] + b[j + 1..]) == multiset(b) - multiset{b[j]}
  {
    var pre, post := b[..j], b[j + 1..];
    SplitAt(b, j);
    RowWidthAppend(pre, [b[j]] + post);
    RowWidthAppend(pre, post);
    RowWidthCons(b[j], post);
  }

  lemma SplitAt(b: seq<Dtype>, j: nat)
    requires j < |b|
    ensures b == b[..j] + ([b[j]] + b[j + 1..])
    ensures multiset(b[..j] + b[j + 1..]) == multiset(b) - multiset{b[j]}
  {
    assert b == b[..j] + ([b[j]] + b[j + 1..]);
    assert multiset(b) == multiset(b[..j]) + multiset([b[j]] + b[j + 1..]);
  }

  lemma RowWidthCons(x: Dtype, t: seq<Dtype>)
    ensures RowWidth([x] + t) == ColumnWidth(x) + RowWidth(t)
  {
    assert ([x] + t)[1..] == t;
  }

  /** layer_bytes: the array estimate when it is truthy (neither None nor 0), else the
      dataframe estimate; `None` for falsy collection annotations. */
  function LayerBytes(lyr: Layer): (r: Option<nat>)
    ensures r.Some? ==>
      CollectionTruthy(lyr.collectionAnnotations) &&
      var ca := lyr.collectionAnnotations.value;
      r == LayerBytesArray(ca) || r == LayerBytesDataframe(ca)
  {
    var ca := lyr.collectionAnnotations;
    if !CollectionTruthy(ca) then None
    else
      var arr := LayerBytesArray(ca.value);
      if arr.Some? && arr.value != 0 then arr else LayerBytesDataframe(ca.value)
  }

  /** The size is unknown exactly when the collection annotations are falsy, or when the
      array rule finds nothing usable (a key is missing, a dimension is NaN, or the
      array has no bytes) and the dataframe rule lacks one of its keys. This is the case
      that sets `unknown_sizes` in pick_pool. */
  lemma LayerBytesUnknown(lyr: Layer)
    ensures LayerBytes(lyr).None? <==>
      !CollectionTruthy(lyr.collectionAnnotations) ||
      var ca := lyr.collectionAnnotations.value;
      (ca.shape.None? || ca.dtype.None? ||
       (exists i :: 0 <= i < |ca.shape.value| && ca.shape.value[i].None?) ||
       ca.dtype.value.itemsize == 0 ||
       (exists i :: 0 <= i < |ca.shape.value| && ca.shape.value[i] == Some(0))) &&
      (ca.npartitions.None? || ca.seriesDtypes.None?)
  {
  }

  /** An array layer whose shape is fully known and whose item size is not
      zero is estimated by the array rule, whatever its dataframe keys say. */
  lemma LayerBytesPrefersArray(lyr: Layer)
    requires CollectionTruthy(lyr.collectionAnnotations)
    requires var ca := lyr.collectionAnnotations.value;
      ca.shape.Some? && ca.dtype.Some? && ca.dtype.value.itemsize != 0 &&
      forall i :: 0 <= i < |ca.shape.value| ==> ca.shape.value[i].Some? && ca.shape.value[i] != Some(0)
    ensures LayerBytes(lyr).Some? && LayerBytes(lyr) == LayerBytesArray(lyr.collectionAnnotations.value)
  {
  }

  /** An array with a zero dimension or a zero item size is estimated by the dataframe
      rule instead, because `0 or x` is `x`. */
  lemma ZeroByteArrayFallsThrough(lyr: Layer)
    requires lyr.collectionAnnotations.Some?
    requires LayerBytesArray(lyr.collectionAnnotations.value) == Some(0)
    ensures LayerBytes(lyr) == LayerBytesDataframe(lyr.collectionAnnotations.value)
  {
  }

  /** The falsiness test of layer_bytes changes nothing: an empty collection-annotations
      dict also yields `None` from both rules. */
  lemma FalsyCollectionAnnotationsUnknown(ca: CollectionAnnotations)
    requires !CollectionTruthy(Some(ca))
    ensures LayerBytesArray(ca).None? && LayerBytesDataframe(ca).None?
  {
  }
}
