# dask-worker-pools: pool propagation, modelled in Dafny

dask-worker-pools lets a user tag some layers of a dask high-level graph with a
worker pool. A tag is a resource key such as `pool-gpu` in the layer's annotations.
An optimization pass then gives untagged downstream layers the pool that already
holds most of their input data. This project models that pass and proves what it does.

- `wrappers.dfy` (`Wrappers`): `Option` and `Result`. An `Err` stands for the
  `ValueError` the Python code raises.
- `helpers.dfy` (`Helpers`): layers as values. This module covers:
  - reading a layer's pool tag (`get_layer_pool`);
  - estimating a layer's size in bytes from its collection annotations
    (`layer_bytes_array`, `layer_bytes_dataframe`, `layer_bytes`).
- `counters.dfy` (`Counters`): the part of `collections.Counter` that the picker uses.
  Keys keep insertion order, and `most_common()` is a stable descending sort, so items
  with equal counts stay in insertion order.
- `picker.dfy` (`Picker`): `pick_pool` as functions.
  - The totals its loop accumulates form a fold (`Accumulate`).
  - The ranking and the threshold decision are a separate function (`Rank`).
- `propagate.dfy` (`Propagate`):
  - The traversal as functions. `Visit` and `VisitAll` thread the layer map through
    the recursion exactly as the Python code mutates it.
  - A `HighLevelGraph` class with mutable `layers`, `dependencies` and `layerOrder`
    fields.
  - The four functions of `propagate.py` as module-level methods that take the graph
    as a parameter, as the Python functions do. Each is proved to end in the state the
    functions compute.
- `idempotence.dfy` (`Idempotence`): a proof that running the pass twice gives the
  same graph as running it once.

The graph must be acyclic. This is stated as a ghost `rank` map under which every
dependency ranks below the layer that reads it. Termination of the traversal is shown
by this rank.

A graph object is well-formed (`HighLevelGraph.Valid`) when every layer has a dependency
entry, every dependency names a layer, and the layer order lists every layer exactly
once, as the keys of a dict do.

Behaviour of the code that the model keeps on purpose:

- **Dead branch in the picker.** `propagate.py:53-55` assigns the key-count ranking
  when a size was unknown, then overwrites it with the byte ranking unconditionally.
  So the picker always ranks by bytes. When the first input that has a pool has an
  unknown size, no byte total is recorded, and the unpacking at line 57 raises. The
  model returns `Err(NothingToUnpack)` in that case (`Picker.PickPoolFailsIff`).
- **Size of an object column.** A dataframe column is counted as 1024 bytes only when
  its dtype's `kind` is the character `'o'` (`helpers.py:69`). numpy reports the
  object kind as `'O'`, so for numpy dtypes the 1024 rule does not apply and the
  item size is used. The model follows the code: the kind is a character, compared
  with `'o'`.
- **Tags on annotated layers are lost.** `set_pool` stores a tag only on a layer whose
  annotations were `None`. For any other layer it edits a detached copy of the
  annotations (`propagate.py:86-95`). The layer goes back into the map unchanged
  (`Propagate.TagLayer`, `Propagate.VisitKeepsAnnotated`).
- **No memo table.** `_propagate_pool_recursive` (`propagate.py:98-129`) keeps no
  memo table, so a layer reached along two paths is visited twice. The second visit is
  cut short only if the first one wrote a tag. Revisits never change the outcome
  (`Idempotence.VisitStable`, `Idempotence.VisitRevisit`).
- **The outcome depends on dependency order.** `dsk.dependencies[k]` is a set, so the
  order of a layer's inputs is Python's set iteration order, and for strings that
  varies between runs with hash randomization. Two decisions read this order: whether
  line 57 raises depends only on the first input that has a pool
  (`Picker.PickPoolFailsIff`), and among pools with equal byte totals the winner is the
  one whose first input comes first (`Picker.PickPoolDecision`, `Counters.AddKeySeq`,
  `Counters.MostCommonHead`). The same graph can therefore raise in one run and not in
  another, or pick a different pool between tied candidates. The model takes the
  order as given.
- **One pool is never inherited.** When all inputs share one pool, the threshold
  `0 < 0` fails and the layer stays untagged (`Picker.PickPoolSinglePool`). The
  scenarios at `dask_worker_pools/tests/test_propagate.py:23` and `:48` expect such a layer to inherit
  the pool. That contradicts `propagate.py:57-75`, so it is not stated here.
- **Exact threshold.** The float test `transfer < total * ((n - 1) / n)` at
  `propagate.py:62` is taken exactly, as `transfer * n < total * (n - 1)`. That is
  the same as `n * biggest > total` (`Picker.ThresholdArith`).
- **The empty-input check.** The check `if not deps_pools` at `propagate.py:27` never
  fires when the argument is the `zip` object built at line 126, because a `zip` is
  always truthy. This makes no difference: an empty input yields an empty key counter,
  and the picker returns `None` at line 50 either way.

## Model

| member | source | states |
|---|---|---|
| `Helpers.IsPoolKey` | dask_worker_pools/helpers.py:39 | the test `r.lower().startswith(POOL_PREFIX)`, with `PoolPrefix` the constant `"pool-"` of helpers.py:12; its contract is carried by `PrefixedNameIsPoolKey`, `UpperCasePrefixIsPoolKey` and `CaseVariantsAreAmbiguous` |
| `Helpers.GetLayerPool` | dask_worker_pools/helpers.py:30-44 | errs exactly when the layer has more than one pool key; returns None exactly when it has none; otherwise returns the single pool key, spelled as stored |
| `Helpers.PrefixedNameIsPoolKey` | dask_worker_pools/helpers.py:39 | every `"pool-" + name` is recognised as a pool key, for any name |
| `Helpers.UpperCasePrefixIsPoolKey` | dask_worker_pools/helpers.py:39 | the prefix is matched case-insensitively: `"POOL-" + name` is a pool key |
| `Helpers.CaseVariantsAreAmbiguous` | dask_worker_pools/helpers.py:39-43 | keys that differ only in the case of the prefix count as two pools, and reading the tag fails |
| `Helpers.NonPoolKeysIgnored` | dask_worker_pools/helpers.py:39-44 | adding or changing a resource entry whose key is not a pool key leaves the tag that is read unchanged |
| `Helpers.AnnotationsTruthy` | dask_worker_pools/helpers.py:32 | the truthiness test `not lyr.annotations`: the annotations are None or an empty dict exactly when they have neither a "resources" entry nor any other key |
| `Helpers.CollectionTruthy` | dask_worker_pools/helpers.py:76 | the truthiness test `not ca`: the collection annotations are None or an empty dict exactly when none of the four read keys and no other key is present |
| `Helpers.Lower` | dask_worker_pools/helpers.py:39 | `str.lower()`: same length, each ASCII capital mapped to its small letter and every other character kept |
| `Helpers.PoolKeys` | dask_worker_pools/helpers.py:39 | the list comprehension over the resources dict: exactly its keys that pass `IsPoolKey`, spelled as stored |
| `Helpers.LayerPoolKeys` | dask_worker_pools/helpers.py:32-39 | the pool keys a layer carries: none on falsy annotations (line 32) or on the `KeyError` for a missing "resources" entry (lines 34-37), otherwise `PoolKeys` of the resources; `GetLayerPool` is specified against it |
| `Helpers.ShapeSize` | dask_worker_pools/helpers.py:54-56 | the element count is unknown exactly when some dimension is NaN, and zero exactly when some dimension is zero; that it is the product of the dimensions is stated by `ShapeSizeAppend` and `ShapeSizeOne` |
| `Helpers.ShapeSizeAppend` | dask_worker_pools/helpers.py:54 | `reduce(mul, a + b, 1)` is the product of the counts of `a` and of `b`, and unknown when either is unknown |
| `Helpers.ShapeSizeOne` | dask_worker_pools/helpers.py:54 | a single known dimension counts as itself; with `ShapeSizeAppend` and the empty shape's count 1, this pins the count to the product of the dimensions |
| `Helpers.LayerBytesArray` | dask_worker_pools/helpers.py:47-57 | None exactly when the shape or the dtype is missing or a dimension is NaN; zero exactly when the item size or a dimension is zero; an empty shape gives the item size; a known estimate is the element count times the item size |
| `Helpers.LayerBytesDataframe` | dask_worker_pools/helpers.py:60-71 | None exactly when npartitions or series_dtypes is missing; otherwise npartitions times the summed column widths |
| `Helpers.ColumnWidth` | dask_worker_pools/helpers.py:69 | the width of one column: its item size, or 1024 when its kind is `'o'`; summed by `RowWidth` |
| `Helpers.RowWidth` | dask_worker_pools/helpers.py:68-70 | the sum of the column widths; its contract is carried by `RowWidthAppend` and `RowWidthPermutation` |
| `Helpers.RowWidthAppend` | dask_worker_pools/helpers.py:68-70 | the summed column width adds up over any split of the columns |
| `Helpers.RowWidthPermutation` | dask_worker_pools/helpers.py:68-70 | the summed column width does not depend on the order of the dict's values |
| `Helpers.LayerBytes` | dask_worker_pools/helpers.py:74-78 | a known size is always the array estimate or the dataframe estimate, and only for truthy collection annotations; when the size is unknown is stated by `LayerBytesUnknown` |
| `Helpers.LayerBytesUnknown` | dask_worker_pools/helpers.py:47-78 | the size is unknown exactly when the collection annotations are falsy, or when the array rule has a missing key, a NaN dimension, a zero dimension or a zero item size and the dataframe rule has a missing key |
| `Helpers.LayerBytesPrefersArray` | dask_worker_pools/helpers.py:78 | an array whose shape is fully known with no zero dimension and whose item size is not zero is estimated by the array rule, whatever the dataframe keys say |
| `Helpers.ZeroByteArrayFallsThrough` | dask_worker_pools/helpers.py:78 | a zero-byte array estimate falls through to the dataframe rule |
| `Helpers.FalsyCollectionAnnotationsUnknown` | dask_worker_pools/helpers.py:75-78 | empty collection annotations give None from both rules too |
| `Counters.Add` | dask_worker_pools/propagate.py:40 | `c[k] += n`, used at lines 40 and 48; its length grows by one exactly for a new key; the rest of its contract is carried by `AddKeySeq`, `AddKeySet`, `AddDistinct` and `AddCounts` |
| `Counters.AddKeySeq` | dask_worker_pools/propagate.py:40 | `c[k] += n` keeps the insertion order of keys, and a new key goes last |
| `Counters.AddKeySet` | dask_worker_pools/propagate.py:40 | after `c[k] += n` the keys are the old keys plus `k` |
| `Counters.AddDistinct` | dask_worker_pools/propagate.py:40 | `c[k] += n` never duplicates a key |
| `Counters.AddCounts` | dask_worker_pools/propagate.py:40 | `c[k] += n` raises the count of `k` and the total by `n`, and leaves every other count alone |
| `Counters.Get` | dask_worker_pools/propagate.py:40 | `c[k]` on a Counter, read at lines 40 and 48: the count of `k`, zero when `k` is missing; `AddCounts`, `AccumulateKeyCounts` and `AccumulateBytes` are stated through it |
| `Counters.Total` | dask_worker_pools/propagate.py:58-60 | `sum(...)` of the counts; its contract is carried by `TotalSplit`, `TotalBounds`, `TotalUniform`, `AddCounts` and `MostCommonTotal` |
| `Counters.MostCommon` | dask_worker_pools/propagate.py:54-55 | `most_common()` as a stable sort by descending count; its contract is carried by `MostCommonFacts` and `MostCommonHead` |
| `Counters.ArgMaxFirst` | dask_worker_pools/propagate.py:55-57 | an independent definition of the top of the ranking: the first item, in insertion order, with a largest count |
| `Counters.MostCommonFacts` | dask_worker_pools/propagate.py:55 | most_common() is a permutation of the items, sorted by descending count, with the same total |
| `Counters.MostCommonHead` | dask_worker_pools/propagate.py:55-57 | the head of most_common() is the first item, in insertion order, with a largest count (ties keep insertion order) |
| `Picker.Truthy` | dask_worker_pools/propagate.py:36 | the truthiness of a pool, as tested by `if not pool` at line 36 and `if new_pool` at line 127: neither None nor the empty string |
| `Picker.Step` | dask_worker_pools/propagate.py:36-48 | one iteration of the loop; the facts about the loop are stated of `Accumulate` |
| `Picker.Accumulate` | dask_worker_pools/propagate.py:30-48 | the three loop variables after the loop; its contract is carried by `AccumulateKeyCounts`, `AccumulateKnownIff`, `AccumulateBytes`, `AccumulateBytesUntilUnknown`, `AccumulateShape`, `PoolCount`, `AccumulateIgnoresUnpooled`, `UnknownSticky` and `BytesStayNonEmpty`, and `Propagate.PickPool` is proved to compute it |
| `Picker.Rank` | dask_worker_pools/propagate.py:50-75 | the ranking and the threshold decision; its contract is carried by `RankThreshold`, `RankSinglePool`, `RankBalanced` and `RankIgnoresKeyCounts` |
| `Picker.PickPoolOf` | dask_worker_pools/propagate.py:12-75 | pick_pool as a whole; its contract is carried by `PickPoolFailsIff`, `PickPoolFromInputs`, `PickPoolNoPools`, `PickPoolDecision`, `PickPoolSinglePool` and `TwoInputs` |
| `Picker.KeySum` | dask_worker_pools/propagate.py:35-40 | an independent reference sum: the key counts (`len(lyr)`) of the inputs whose pool is `p` |
| `Picker.SizesKnown` | dask_worker_pools/propagate.py:43-46 | every input with a truthy pool has a known size |
| `Picker.ByteSum` | dask_worker_pools/propagate.py:35-48 | an independent reference sum: the sizes of the inputs whose pool is `p`, when every pooled size is known |
| `Picker.AccumulateKeyCounts` | dask_worker_pools/propagate.py:35-40 | `pool_key_counts[p]` after the loop is the summed key count of the inputs in pool `p` |
| `Picker.AccumulateKnownIff` | dask_worker_pools/propagate.py:43-46 | `unknown_sizes` stays False exactly when every pooled input has a known size |
| `Picker.AccumulateBytes` | dask_worker_pools/propagate.py:43-48 | with every pooled size known, `pool_bytes[p]` after the loop is the summed size of the inputs in pool `p` |
| `Picker.AccumulateBytesUntilUnknown` | dask_worker_pools/propagate.py:43-48 | in general, `pool_bytes[p]` is the summed size of the inputs in pool `p` that come before the first pooled input with an unknown size |
| `Picker.AccumulateShape` | dask_worker_pools/propagate.py:35-48 | both counters have distinct keys; the key-count counter holds exactly the distinct truthy pools of the inputs; every pool with a byte total has a key count |
| `Picker.PoolCount` | dask_worker_pools/propagate.py:61 | n_pools is the number of distinct truthy input pools |
| `Picker.AccumulateIgnoresUnpooled` | dask_worker_pools/propagate.py:35-37 | inputs without a truthy pool contribute nothing: the totals are those of the pooled inputs alone |
| `Picker.UnknownSticky` | dask_worker_pools/propagate.py:43-48 | after the first unknown size, the flag stays set and no later input adds to the byte totals |
| `Picker.BytesStayNonEmpty` | dask_worker_pools/propagate.py:43-48 | once some pool has a byte total, the byte counter stays non-empty |
| `Picker.PickPoolFailsIff` | dask_worker_pools/propagate.py:40-57 | pick_pool raises exactly when the first input with a truthy pool has an unknown size |
| `Picker.RankThreshold` | dask_worker_pools/propagate.py:53-75 | the ranking returns the first pool with a largest byte total exactly when n times that total exceeds the sum of all byte totals, and None otherwise |
| `Picker.ThresholdArith` | dask_worker_pools/propagate.py:58-62 | `transfer * n < total * (n - 1)` is equivalent to `n * biggest > total` |
| `Picker.RankSinglePool` | dask_worker_pools/propagate.py:58-75 | the ranking never returns a pool when there is one candidate pool |
| `Picker.RankBalanced` | dask_worker_pools/propagate.py:55-75 | equal byte totals for every candidate pool give None |
| `Picker.RankIgnoresKeyCounts` | dask_worker_pools/propagate.py:53-55 | the key counts and the unknown-size flag affect the ranking only through the number of pools |
| `Picker.PickPoolFromInputs` | dask_worker_pools/propagate.py:55-57 | a chosen pool is always one of the inputs' truthy pools |
| `Picker.PickPoolNoPools` | dask_worker_pools/propagate.py:27-51 | no inputs, or no input with a truthy pool, gives None |
| `Picker.PickPoolDecision` | dask_worker_pools/propagate.py:50-75 | with byte totals recorded, pick_pool returns the first pool with a largest byte total exactly when the number of distinct pools times that total exceeds the sum of the totals |
| `Picker.PickPoolSinglePool` | dask_worker_pools/propagate.py:58-75 | when all inputs share one pool, pick_pool never returns a pool |
| `Picker.TwoInputs` | dask_worker_pools/propagate.py:67-75 | with two inputs in different pools and known sizes, the larger wins even by one byte, and equal sizes give None |
| `Propagate.TagLayer` | dask_worker_pools/propagate.py:78-95 | set_pool keeps the key count and the collection annotations; a bare layer gets exactly `{"resources": {pool: 1}}`; an annotated layer is unchanged |
| `Propagate.TagLayerReadsBack` | dask_worker_pools/propagate.py:84-95 | a tag written onto a bare layer is read back by get_layer_pool |
| `Propagate.Zip` | dask_worker_pools/propagate.py:126 | `zip(deps, input_pools)` on lists of equal length: the i-th pair is the i-th dependency with its resolved pool |
| `Propagate.Visit` | dask_worker_pools/propagate.py:115-129 | a traversal never adds or removes layers |
| `Propagate.VisitAll` | dask_worker_pools/propagate.py:125 | the list comprehension keeps the layer names and, when it succeeds, yields one pool per dependency |
| `Propagate.HasDependents` | dask_worker_pools/propagate.py:139-140 | `dependents.get(k)` is truthy exactly when some layer lists `k` among its dependencies; used by `LeavesExactly` |
| `Propagate.Leaves` | dask_worker_pools/propagate.py:139-140 | every leaf is a layer of the graph order; which layers are leaves is stated by `LeavesExactly` and `LeavesDistinct` |
| `Propagate.LeavesExactly` | dask_worker_pools/propagate.py:139-140 | the traversal starts from exactly the layers that no layer depends on |
| `Propagate.LeavesDistinct` | dask_worker_pools/propagate.py:140 | each leaf is listed once when each layer is listed once |
| `Propagate.VisitFacts` | dask_worker_pools/propagate.py:115-129 | a visit only tags bare layers that have inputs; it leaves layers ranked above the visited one untouched; it returns a pool key or None |
| `Propagate.VisitAllFacts` | dask_worker_pools/propagate.py:125 | the same facts for the traversal of a list of dependencies |
| `Propagate.VisitAllErrStops` | dask_worker_pools/propagate.py:125 | the first exception ends the list comprehension, with the layers it left |
| `Propagate.VisitTagged` | dask_worker_pools/propagate.py:115-118 | a tagged layer returns its own pool, and nothing below it is visited |
| `Propagate.VisitRoot` | dask_worker_pools/propagate.py:120-123 | an untagged root returns None and changes nothing |
| `Propagate.VisitWritesTag` | dask_worker_pools/propagate.py:126-129 | the pool a visit returns for a bare layer is the tag it leaves on that layer |
| `Propagate.VisitKeepsAnnotated` | dask_worker_pools/propagate.py:86-95 | a layer with annotations comes out of a visit unchanged |
| `Propagate.VisitNoTags` | dask_worker_pools/propagate.py:115-129 | in a graph without pool tags every visit returns None and changes nothing |
| `Propagate.VisitAllNoTags` | dask_worker_pools/propagate.py:125 | in a graph without pool tags every input resolves to None |
| `Propagate.Optimize` | dask_worker_pools/propagate.py:138-143 | the layers the pass leaves; its contract is carried by `Idempotence.OptimizeTagsAsVisited` and `Idempotence.OptimizeTagsLeaves` (what it writes), `OptimizeChanges`, `OptimizeNoTags` and `Idempotence.OptimizeIdempotent`, and `PropagatePoolOptimization` is proved to compute it |
| `Propagate.OptimizeChanges` | dask_worker_pools/propagate.py:138-143 | the pass keeps the layer names, every tagged or annotated layer and every root; any other change is a pool key written on a bare layer with inputs |
| `Propagate.OptimizeNoTags` | dask_worker_pools/propagate.py:138-143 | a graph without pool tags comes out unchanged |
| `Propagate.HighLevelGraph.Copy` | dask_worker_pools/propagate.py:138 | `dsk.copy()` gives a new graph object with the same layers, dependencies and order |
| `Propagate.PickPool` | dask_worker_pools/propagate.py:12-75 | the loop over the inputs, followed by the ranking, returns exactly the picker's result |
| `Propagate.SetPool` | dask_worker_pools/propagate.py:78-95 | after set_pool, only the entry of `lyr_name` has changed, and it is the tagged copy; dependencies and order are unchanged, and a well-formed graph stays well-formed |
| `Propagate.PropagatePoolRecursive` | dask_worker_pools/propagate.py:98-129 | the recursive method returns the result of the traversal and leaves the layer map the traversal computes; a well-formed graph stays well-formed |
| `Propagate.PropagatePoolOptimization` | dask_worker_pools/propagate.py:132-143 | the caller's graph is unchanged; on success, the result is a new, well-formed graph with the same dependencies and order whose layers are the pass's result; it fails exactly when the pass raises one of the two modelled `ValueError`s |
| `Propagate.PropagateFromLeaves` | dask_worker_pools/propagate.py:141-142 | the loop over the leaves ends in the layer map the traversal of the leaves computes, and fails exactly when that traversal raises |
| `Idempotence.PickPoolSameSizes` | dask_worker_pools/propagate.py:39-44 | pick_pool reads only key counts and collection annotations, so tags do not affect it |
| `Idempotence.VisitStable` | dask_worker_pools/propagate.py:115-129 | on any graph part-way through the pass, a visit returns what it returns on the input graph |
| `Idempotence.VisitSettled` | dask_worker_pools/propagate.py:115-129 | a visit that changes nothing still changes nothing once more tags the pass would write are present |
| `Idempotence.VisitRevisit` | dask_worker_pools/propagate.py:115-129 | visiting a layer a second time changes nothing |
| `Idempotence.OptimizeTagsAsVisited` | dask_worker_pools/propagate.py:127-128 | every layer the pass changes was bare, and now carries the pool the traversal of the input graph finds for that layer |
| `Idempotence.OptimizeTagsLeaves` | dask_worker_pools/propagate.py:140-142 | a bare leaf whose traversal finds pool `p` ends tagged with `p` when the pass succeeds |
| `Idempotence.OptimizeIdempotent` | dask_worker_pools/propagate.py:132-143 | running the pass on its own output succeeds and returns the same graph |

## Left out

- dask_worker_pools/interface.py: `pool`, `propagate_pools`, `propagate_pools_in_collection` and `visualize_pools` wrap `dask.annotate`, `dask.config.set` and graphviz. They are not part of this model.
- `get_pool` (dask_worker_pools/helpers.py:15-27) works through the dask collection protocol and `isinstance` checks on foreign types, so it is not modelled.
- `color_of` and `palette` (dask_worker_pools/helpers.py:81-108) do md5 hashing for visualisation only, so they are not modelled.
- dask's `HighLevelGraph` internals are abstract inputs:
  - `.dependents` is modelled as "some layer lists this one as a dependency";
  - `len(layer)` is the `keyCount` field;
  - `.copy()` is `Propagate.HighLevelGraph.Copy`.
- numpy dtypes are reduced to `itemsize` and the `kind` character. `series_dtypes` is the sequence of its values; that their order does not matter is `Helpers.RowWidthPermutation`.
- Floating point is not modelled:
  - the threshold at dask_worker_pools/propagate.py:62 is compared exactly, so rounding on huge totals is not captured;
  - a NaN dimension is `None`;
  - shapes hold natural numbers.
- `str.lower()` is modelled for ASCII letters only. Other Unicode case mappings are not.
- Python set iteration order of `dsk.dependencies[...]`: dependencies are a sequence in any order. A sequence may also repeat a name, which a set cannot; such graphs are admitted, and every fact proved here holds for them too.
- Object identity is not modelled. Layers are values, so `copy.copy` and the detached `dict(...)` in `set_pool` show up only through their effect on the stored layer.
- Annotation entries other than "resources" are kept only by name, since only their presence (truthiness) is read.
- Exceptions other than the two `ValueError`s, such as a `KeyError` on a layer name that is missing, are excluded by preconditions: every dependency names a layer of the graph.
- Cycles: the code assumes a DAG, and the model requires a rank that proves it.
- Python's recursion limit: on a dependency chain deeper than the interpreter's stack allows (about 1000 frames by default), `_propagate_pool_recursive` raises `RecursionError`; the model recurses without bound, so `Propagate.Optimize` and `Propagate.PropagatePoolOptimization` succeed where the code would raise.
- dask_worker_pools/utils_test.py and the tests need a dask runtime. They are used only as scenarios.
