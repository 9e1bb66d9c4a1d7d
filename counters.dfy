/** The part of Python's `collections.Counter` that pick_pool relies on: `c[k] += n`
    keeps keys in order of first insertion, and `most_common()` is `sorted(items,
    key=count, reverse=True)`, a stable sort, so equal counts keep insertion order. */
module Counters {

  /** The items of a counter, in insertion order. */
  type Counter = seq<(string, nat)>

  predicate Distinct(c: Counter) {
    forall i, j :: 0 <= i < j < |c| ==> c[i].0 != c[j].0
  }

  function Keys(c: Counter): set<string> {
    set i | 0 <= i < |c| :: c[i].0
  }

  /** The keys in insertion order. */
  function KeySeq(c: Counter): (r: seq<string>)
    ensures |r| == |c| && forall i :: 0 <= i < |c| ==> r[i] == c[i].0
  {
    seq(|c|, i requires 0 <= i < |c| => c[i].0)
  }

  /** `c[k]`: the count of `k`, zero when it is missing. */
  function Get(c: Counter, k: string): nat {
    if |c| == 0 then 0 else if c[0].0 == k then c[0].1 else Get(c[1..], k)
  }

  /** The sum of the counts. */
  function Total(c: Counter): nat {
    if |c| == 0 then 0 else c[0].1 + Total(c[1..])
  }

  /** `c[k] += n`: a present key keeps its place, a new key goes to the end. */
  function Add(c: Counter, k: string, n: nat): (r: Counter)
    ensures |r| == if k in Keys(c) then |c| else |c| + 1
  {
    if |c| == 0 then [(k, n)]
    else if c[0].0 == k then [(k, c[0].1 + n)] + c[1..]
    else
      KeysCons(c);
      [c[0]] + Add(c[1..], k, n)
  }

  lemma KeysCons(c: Counter)
    requires |c| > 0
    ensures Keys(c) == {c[0].0} + Keys(c[1..])
  {
    forall x | x in Keys(c) ensures x in {c[0].0} + Keys(c[1..]) {
      var i :| 0 <= i < |c| && c[i].0 == x;
      if i > 0 { assert c[1..][i - 1].0 == x; }
    }
    forall x | x in Keys(c[1..]) ensures x in Keys(c) {
      var i :| 0 <= i < |c[1..]| && c[1..][i].0 == x;
      assert c[i + 1].0 == x;
    }
  }

  /** Adding to a counter keeps the insertion order of its keys and appends a new key at
      the end. */
  lemma {:induction false} AddKeySeq(c: Counter, k: string, n: nat)
    ensures KeySeq(Add(c, k, n)) == if k in Keys(c) then KeySeq(c) else KeySeq(c) + [k]
  {
    var r := Add(c, k, n);
    if |c| > 0 {
      KeysCons(c);
      if c[0].0 == k {
        assert KeySeq(r) == KeySeq(c);
      } else {
        var rest := Add(c[1..], k, n);
        AddKeySeq(c[1..], k, n);
        assert r == [c[0]] + rest;
        KeySeqCons(c[0], c[1..]);
        KeySeqCons(c[0], rest);
        assert c == [c[0]] + c[1..];
        assert (k in Keys(c)) == (k in Keys(c[1..]));
        if k !in Keys(c[1..]) {
          assert [c[0].0] + (KeySeq(c[1..]) + [k]) == ([c[0].0] + KeySeq(c[1..])) + [k];
        }
      }
    }
  }

  lemma KeySeqCons(x: (string, nat), c: Counter)
    ensures KeySeq([x] + c) == [x.0] + KeySeq(c)
  {
    var r, t := KeySeq([x] + c), [x.0] + KeySeq(c);
    forall i | 0 <= i < |r| ensures r[i] == t[i] {
      if i > 0 {
        assert ([x] + c)[i] == c[i - 1];
      }
    }
  }

  lemma {:induction false} AddKeySet(c: Counter, k: string, n: nat)
    ensures Keys(Add(c, k, n)) == Keys(c) + {k}
  {
    var r := Add(c, k, n);
    KeysCons(r);
    if |c| > 0 {
      KeysCons(c);
      if c[0].0 == k {
        assert r[1..] == c[1..];
      } else {
        AddKeySet(c[1..], k, n);
        assert r[1..] == Add(c[1..], k, n);
      }
    }
  }

  lemma {:induction false} AddDistinct(c: Counter, k: string, n: nat)
    requires Distinct(c)
    ensures Distinct(Add(c, k, n))
  {
    var r := Add(c, k, n);
    if |c| > 0 && c[0].0 != k {
      var rest := Add(c[1..], k, n);
      AddDistinct(c[1..], k, n);
      AddKeySet(c[1..], k, n);
      KeysCons(c);
      assert r == [c[0]] + rest;
      forall j | 0 <= j < |rest| ensures rest[j].0 != c[0].0 {
        assert rest[j].0 in Keys(rest);
        assert forall i :: 0 <= i < |c[1..]| ==> c[1..][i].0 != c[0].0;
      }
    }
  }

  /** Adding `n` under `k` raises `k`'s count and the total by `n` and leaves every other
      count alone. */
  lemma {:induction false} AddCounts(c: Counter, k: string, n: nat)
    ensures Get(Add(c, k, n), k) == Get(c, k) + n
    ensures forall j :: j != k ==> Get(Add(c, k, n), j) == Get(c, j)
    ensures Total(Add(c, k, n)) == Total(c) + n
  {
    if |c| > 0 && c[0].0 != k {
      AddCounts(c[1..], k, n);
      var r := Add(c, k, n);
      assert r[1..] == Add(c[1..], k, n);
    }
  }

  /** Places `x` after every item whose count is larger and before every item whose
      count is not: `x` comes first among its equals. */
  function Insert(x: (string, nat), s: Counter): Counter {
    if |s| == 0 || s[0].1 <= x.1 then [x] + s else [s[0]] + Insert(x, s[1..])
  }

  /** `c.most_common()`, as insertion sort from the back. */
  function MostCommon(c: Counter): Counter {
    if |c| == 0 then [] else Insert(c[0], MostCommon(c[1..]))
  }

  predicate SortedDescending(s: Counter) {
    forall i, j :: 0 <= i < j < |s| ==> s[i].1 >= s[j].1
  }

  /** The position of the first item with a largest count: an independent description of
      what heads the ranking. */
  function ArgMaxFirst(c: Counter): (m: nat)
    requires |c| > 0
    ensures m < |c|
    ensures forall j :: 0 <= j < |c| ==> c[j].1 <= c[m].1
    ensures forall j :: 0 <= j < m ==> c[j].1 < c[m].1
  {
    if |c| == 1 then 0
    else
      var i := ArgMaxFirst(c[1..]);
      if c[0].1 >= c[1 + i].1 then 0 else 1 + i
  }

  lemma {:induction false} InsertFacts(x: (string, nat), s: Counter)
    ensures |Insert(x, s)| == |s| + 1
    ensures multiset(Insert(x, s)) == multiset(s) + multiset{x}
    ensures Total(Insert(x, s)) == Total(s) + x.1
    ensures Insert(x, s)[0] == if |s| == 0 || s[0].1 <= x.1 then x else s[0]
  {
    if |s| > 0 && s[0].1 > x.1 {
      InsertFacts(x, s[1..]);
      var t := Insert(x, s[1..]);
      var r := Insert(x, s);
      assert r == [s[0]] + t;
      assert r[1..] == t;
      assert s == [s[0]] + s[1..];
    } else {
      assert ([x] + s)[1..] == s;
    }
  }

  /** No count of `s` exceeds `b`. */
  predicate AtMost(s: Counter, b: nat) {
    forall i :: 0 <= i < |s| ==> s[i].1 <= b
  }

  lemma {:induction false} InsertAtMost(x: (string, nat), s: Counter, b: nat)
    requires AtMost(s, b) && x.1 <= b
    ensures |Insert(x, s)| == |s| + 1 && AtMost(Insert(x, s), b)
  {
    if |s| > 0 && s[0].1 > x.1 {
      InsertAtMost(x, s[1..], b);
      var t := Insert(x, s[1..]);
      assert Insert(x, s) == [s[0]] + t;
    }
  }

  lemma {:induction false} InsertSorted(x: (string, nat), s: Counter)
    requires SortedDescending(s)
    ensures SortedDescending(Insert(x, s))
  {
    if |s| > 0 && s[0].1 > x.1 {
      var t := Insert(x, s[1..]);
      assert SortedDescending(s[1..]) by {
        forall i, j | 0 <= i < j < |s[1..]| ensures s[1..][i].1 >= s[1..][j].1 {
          assert s[1..][i] == s[i + 1] && s[1..][j] == s[j + 1];
        }
      }
      InsertSorted(x, s[1..]);
      assert AtMost(s[1..], s[0].1) by {
        forall i | 0 <= i < |s[1..]| ensures s[1..][i].1 <= s[0].1 {
          assert s[1..][i] == s[i + 1];
        }
      }
      InsertAtMost(x, s[1..], s[0].1);
      var r := Insert(x, s);
      assert r == [s[0]] + t;
      forall i, j | 0 <= i < j < |r| ensures r[i].1 >= r[j].1 {
        assert r[j] == t[j - 1];
        if i > 0 {
          assert r[i] == t[i - 1];
        }
      }
    }
  }

  /** most_common() is a permutation of the items, sorted by descending count, with the
      same total. */
  lemma {:induction false} MostCommonFacts(c: Counter)
    ensures multiset(MostCommon(c)) == multiset(c)
    ensures |MostCommon(c)| == |c|
    ensures SortedDescending(MostCommon(c))
    ensures Total(MostCommon(c)) == Total(c)
  {
    MostCommonPermutes(c);
    MostCommonSorted(c);
    MostCommonTotal(c);
  }

  lemma {:induction false} MostCommonPermutes(c: Counter)
    ensures multiset(MostCommon(c)) == multiset(c) && |MostCommon(c)| == |c|
  {
    if |c| > 0 {
      MostCommonPermutes(c[1..]);
      InsertFacts(c[0], MostCommon(c[1..]));
      assert c == [c[0]] + c[1..];
    }
  }

  lemma {:induction false} MostCommonSorted(c: Counter)
    ensures SortedDescending(MostCommon(c))
  {
    if |c| > 0 {
      MostCommonSorted(c[1..]);
      InsertSorted(c[0], MostCommon(c[1..]));
    }
  }

  lemma {:induction false} MostCommonTotal(c: Counter)
    ensures Total(MostCommon(c)) == Total(c)
  {
    if |c| > 0 {
      MostCommonTotal(c[1..]);
      InsertFacts(c[0], MostCommon(c[1..]));
    }
  }

  /** The head of most_common() is the first item, in insertion order, with a largest count. */
  lemma {:induction false} MostCommonHead(c: Counter)
    requires |c| > 0
    ensures |MostCommon(c)| == |c| && MostCommon(c)[0] == c[ArgMaxFirst(c)]
  {
    MostCommonFacts(c);
    InsertFacts(c[0], MostCommon(c[1..]));
    if |c| > 1 {
      MostCommonHead(c[1..]);
    }
  }

  /** The counts of a ranking split into the head's and the rest's. */
  lemma TotalSplit(s: Counter)
    requires |s| > 0
    ensures Total(s) == s[0].1 + Total(s[1..])
  {
  }

  /** The total is at least any single count. */
  lemma {:induction false} TotalBounds(c: Counter, i: nat)
    requires i < |c|
    ensures c[i].1 <= Total(c)
  {
    if i > 0 {
      TotalBounds(c[1..], i - 1);
    }
  }

  /** A counter whose counts are all `v` totals `|c| * v`. */
  lemma {:induction false} TotalUniform(c: Counter, v: nat)
    requires forall i :: 0 <= i < |c| ==> c[i].1 == v
    ensures Total(c) == |c| * v
  {
    if |c| > 0 {
      TotalUniform(c[1..], v);
    }
  }

  /** With distinct keys, the number of items is the number of keys. */
  lemma {:induction false} DistinctSize(c: Counter)
    requires Distinct(c)
    ensures |Keys(c)| == |c|
  {
    if |c| > 0 {
      DistinctSize(c[1..]);
      KeysCons(c);
      assert c[0].0 !in Keys(c[1..]) by {
        forall i | 0 <= i < |c[1..]| ensures c[1..][i].0 != c[0].0 {
          assert c[1..][i] == c[i + 1];
        }
      }
    }
  }
}
