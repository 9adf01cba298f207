/**
 * Stable sorting by a score key, and top-k selection built on it.
 *
 * Python's `sorted(xs, key=f, reverse=True)` is stable: elements with equal
 * keys keep their relative order. `SortDesc` is that sort. The source's other
 * orderings are instances of it: ascending order on an integer key is
 * descending order on its negation, and `torch.topk` is the first `k` entries
 * of the index range sorted by score.
 */
module Sorting {
  import opened Scores

  /** Keys never increase from left to right. */
  ghost predicate NonIncreasing<T>(s: seq<T>, key: T -> ExtInt) {
    forall i, j :: 0 <= i < j < |s| ==> Le(key(s[j]), key(s[i]))
  }

  /** No element occurs twice. */
  ghost predicate Distinct<T>(s: seq<T>) {
    forall i, j :: 0 <= i < j < |s| ==> s[i] != s[j]
  }

  /** The elements of `s` whose key is `k`, in their order in `s`. */
  function WithKey<T>(s: seq<T>, key: T -> ExtInt, k: ExtInt): seq<T> {
    if s == [] then [] else (if key(s[0]) == k then [s[0]] else []) + WithKey(s[1..], key, k)
  }

  /** Puts `x` after every element of `s` whose key is at least `key(x)`. */
  function Insert<T>(x: T, s: seq<T>, key: T -> ExtInt): (r: seq<T>)
    ensures |r| == |s| + 1
    ensures multiset(r) == multiset(s) + multiset{x}
  {
    if s == [] then [x]
    else if Lt(key(s[0]), key(x)) then [x] + s
    else
      assert s == [s[0]] + s[1..];
      [s[0]] + Insert(x, s[1..], key)
  }

  /** Stable sort by non-increasing key: an insertion sort over the input from left to right. */
  function SortDesc<T>(s: seq<T>, key: T -> ExtInt): (r: seq<T>)
    ensures |r| == |s|
    ensures multiset(r) == multiset(s)
    ensures NonIncreasing(r, key)
  {
    if s == [] then []
    else
      var sorted := SortDesc(s[..|s| - 1], key);
      InsertKeepsOrder(s[|s| - 1], sorted, key);
      SplitLast(s);
      Insert(s[|s| - 1], sorted, key)
  }

  lemma {:induction false} InsertKeepsOrder<T>(x: T, s: seq<T>, key: T -> ExtInt)
    requires NonIncreasing(s, key)
    ensures NonIncreasing(Insert(x, s, key), key)
  {
    if s != [] && !Lt(key(s[0]), key(x)) {
      InsertKeepsOrder(x, s[1..], key);
      var t := Insert(x, s[1..], key);
      assert multiset(t) == multiset(s[1..]) + multiset{x};
      forall j | 0 <= j < |t| ensures Le(key(t[j]), key(s[0])) {
        assert t[j] in multiset(t);
        if t[j] != x {
          assert t[j] in multiset(s[1..]);
          var m :| 0 <= m < |s[1..]| && s[1..][m] == t[j];
          assert s[1 + m] == t[j];
        }
      }
    }
  }

  /** Appending distributes over selecting by key. */
  lemma {:induction false} WithKeyAppend<T>(a: seq<T>, b: seq<T>, key: T -> ExtInt, k: ExtInt)
    ensures WithKey(a + b, key, k) == WithKey(a, key, k) + WithKey(b, key, k)
  {
    if a != [] {
      var head := if key(a[0]) == k then [a[0]] else [];
      assert (a + b)[0] == a[0];
      assert (a + b)[1..] == a[1..] + b;
      assert WithKey(a + b, key, k) == head + WithKey(a[1..] + b, key, k);
      WithKeyAppend(a[1..], b, key, k);
      assert WithKey(a, key, k) == head + WithKey(a[1..], key, k);
      AppendAssoc(head, WithKey(a[1..], key, k), WithKey(b, key, k));
    } else {
      assert a + b == b;
    }
  }

  /** In a sorted sequence that starts below `k`, nothing has key `k`. */
  lemma {:induction false} NoneWithKey<T>(s: seq<T>, key: T -> ExtInt, k: ExtInt)
    requires NonIncreasing(s, key)
    requires s != [] && Lt(key(s[0]), k)
    ensures WithKey(s, key, k) == []
  {
    if |s| > 1 {
      assert Le(key(s[1]), key(s[0]));
      NoneWithKey(s[1..], key, k);
    }
  }

  /** Inserting `x` puts it after every element that has the same key. */
  lemma {:induction false} InsertWithKey<T>(x: T, s: seq<T>, key: T -> ExtInt, k: ExtInt)
    requires NonIncreasing(s, key)
    ensures WithKey(Insert(x, s, key), key, k) == WithKey(s, key, k) + (if key(x) == k then [x] else [])
  {
    var tail := if key(x) == k then [x] else [];
    if s == [] {
      assert Insert(x, s, key) == [x];
      WithKeySingle(x, key, k);
      assert WithKey(s, key, k) == [];
      assert tail == [] + tail;
    } else if Lt(key(s[0]), key(x)) {
      assert Insert(x, s, key) == [x] + s;
      InsertInFront(x, s, key, k);
    } else {
      InsertWithKey(x, s[1..], key, k);
      InsertBehind(x, s, key, k);
    }
  }

  /** The step of `InsertWithKey` where `x` goes behind the first element. */
  lemma {:induction false} InsertBehind<T>(x: T, s: seq<T>, key: T -> ExtInt, k: ExtInt)
    requires s != [] && !Lt(key(s[0]), key(x))
    requires WithKey(Insert(x, s[1..], key), key, k) == WithKey(s[1..], key, k) + (if key(x) == k then [x] else [])
    ensures WithKey(Insert(x, s, key), key, k) == WithKey(s, key, k) + (if key(x) == k then [x] else [])
  {
    var tail := if key(x) == k then [x] else [];
    var rest := Insert(x, s[1..], key);
    assert Insert(x, s, key) == [s[0]] + rest;
    var head := if key(s[0]) == k then [s[0]] else [];
    WithKeyCons(s[0], rest, key, k);
    assert WithKey(s, key, k) == head + WithKey(s[1..], key, k);
    AppendAssoc(head, WithKey(s[1..], key, k), tail);
  }

  lemma {:induction false} AppendAssoc<T>(a: seq<T>, b: seq<T>, c: seq<T>)
    ensures a + (b + c) == (a + b) + c
  {
  }

  /** `x` goes in front of a sorted sequence whose keys are all below its own. */
  lemma {:induction false} InsertInFront<T>(x: T, s: seq<T>, key: T -> ExtInt, k: ExtInt)
    requires NonIncreasing(s, key)
    requires s != [] && Lt(key(s[0]), key(x))
    ensures WithKey([x] + s, key, k) == WithKey(s, key, k) + (if key(x) == k then [x] else [])
  {
    WithKeyCons(x, s, key, k);
    if key(x) == k {
      NoneWithKey(s, key, k);
      assert [x] + [] == [] + [x];
    } else {
      assert [] + WithKey(s, key, k) == WithKey(s, key, k) + [];
    }
  }

  lemma {:induction false} WithKeyCons<T>(x: T, s: seq<T>, key: T -> ExtInt, k: ExtInt)
    ensures WithKey([x] + s, key, k) == (if key(x) == k then [x] else []) + WithKey(s, key, k)
  {
    assert ([x] + s)[0] == x && ([x] + s)[1..] == s;
  }

  /**
   * Stability: for every key value, the elements with that key come out of
   * the sort in the order they went in.
   */
  lemma {:induction false} SortDescStable<T>(s: seq<T>, key: T -> ExtInt, k: ExtInt)
    ensures WithKey(SortDesc(s, key), key, k) == WithKey(s, key, k)
  {
    if s != [] {
      var init, last := s[..|s| - 1], s[|s| - 1];
      var sortedInit := SortDesc(init, key);
      assert SortDesc(s, key) == Insert(last, sortedInit, key);
      SortDescStable(init, key, k);
      InsertWithKey(last, sortedInit, key, k);
      SplitLast(s);
      WithKeyAppend(init, [last], key, k);
      WithKeySingle(last, key, k);
    }
  }

  /** A non-empty sequence is its front followed by its last element. */
  lemma {:induction false} SplitLast<T>(s: seq<T>)
    requires s != []
    ensures s == s[..|s| - 1] + [s[|s| - 1]]
  {
  }

  lemma {:induction false} WithKeySingle<T>(x: T, key: T -> ExtInt, k: ExtInt)
    ensures WithKey([x], key, k) == if key(x) == k then [x] else []
  {
    assert [x][1..] == [];
  }

  /** Positions whose elements are equal occur at most once in a sequence with no repeated element. */
  lemma {:induction false} DistinctFromCounts<T>(s: seq<T>)
    requires forall x :: multiset(s)[x] <= 1
    ensures Distinct(s)
  {
    forall i, j | 0 <= i < j < |s| ensures s[i] != s[j] {
      assert s == s[..j] + s[j..];
      assert s[i] == s[..j][i];
      assert s[j] == s[j..][0];
      assert multiset(s)[s[j]] == multiset(s[..j])[s[j]] + multiset(s[j..])[s[j]];
      assert multiset(s[j..])[s[j]] >= 1;
    }
  }

  /** The indices `0 .. n-1` in order. */
  function Range(n: nat): (r: seq<nat>)
    ensures |r| == n
    ensures forall i :: 0 <= i < n ==> r[i] == i
  {
    seq(n, i => i)
  }

  lemma {:induction false} RangeCounts(n: nat)
    ensures forall x: nat :: multiset(Range(n))[x] == if x < n then 1 else 0
  {
    if n > 0 {
      RangeCounts(n - 1);
      assert Range(n) == Range(n - 1) + [n - 1];
      forall x: nat ensures multiset(Range(n))[x] == if x < n then 1 else 0 {
        assert multiset(Range(n))[x] == multiset(Range(n - 1))[x] + multiset([n - 1])[x];
        assert multiset([n - 1])[x] == if x == n - 1 then 1 else 0;
      }
    } else {
      assert Range(n) == [];
      forall x: nat ensures multiset(Range(n))[x] == 0 {
        assert multiset(Range(n)) == multiset{};
      }
    }
  }

  /** The score at position `i`, or `NegInf` outside the sequence. */
  function At(scores: seq<ExtInt>, i: nat): ExtInt {
    if i < |scores| then scores[i] else NegInf
  }

  /** Every position of `scores`, best score first; ties keep the lower position first. */
  function Ranked(scores: seq<ExtInt>): (all: seq<nat>)
    ensures |all| == |scores|
    ensures forall i, j :: 0 <= i < j < |all| ==> Le(At(scores, all[j]), At(scores, all[i]))
  {
    SortDesc<nat>(Range(|scores|), (i: nat) => At(scores, i))
  }

  /** `Ranked` lists each position of `scores` exactly once. */
  lemma {:induction false} RankedIsPermutation(scores: seq<ExtInt>)
    ensures forall j :: 0 <= j < |scores| ==> Ranked(scores)[j] < |scores|
    ensures Distinct(Ranked(scores))
    ensures forall c :: 0 <= c < |scores| ==> c in Ranked(scores)
  {
    var all := Ranked(scores);
    RangeCounts(|scores|);
    assert multiset(all) == multiset(Range(|scores|));
    DistinctFromCounts(all);
    forall j | 0 <= j < |all| ensures all[j] < |scores| {
      assert all[j] in multiset(all);
    }
    forall c | 0 <= c < |scores| ensures c in all {
      assert c in multiset(Range(|scores|));
    }
  }

  /** `xs.index_select(0, idx)`: the entries of `xs` at the positions `idx`, in that order. */
  function Gather<T>(xs: seq<T>, idx: seq<nat>): (r: seq<T>)
    requires forall m :: 0 <= m < |idx| ==> idx[m] < |xs|
    ensures |r| == |idx|
    ensures forall m :: 0 <= m < |idx| ==> r[m] == xs[idx[m]]
  {
    seq(|idx|, m requires 0 <= m < |idx| => xs[idx[m]])
  }

  /**
   * `torch.sort` in ascending order, as the permutation it returns: every
   * position of `keys`, smallest key first (`AscendingSorted`).
   */
  function Ascending(keys: seq<nat>): (perm: seq<nat>)
    ensures |perm| == |keys|
    ensures forall j :: 0 <= j < |perm| ==> perm[j] < |keys|
  {
    var negated := seq(|keys|, i requires 0 <= i < |keys| => Fin(-(keys[i] as int)));
    RankedIsPermutation(negated);
    Ranked(negated)
  }

  /** `Ascending` lists distinct positions, by non-decreasing key. */
  lemma {:induction false} AscendingSorted(keys: seq<nat>)
    ensures Distinct(Ascending(keys))
    ensures forall i, j :: 0 <= i < j < |keys| ==> keys[Ascending(keys)[i]] <= keys[Ascending(keys)[j]]
  {
    var negated := seq(|keys|, i requires 0 <= i < |keys| => Fin(-(keys[i] as int)));
    RankedIsPermutation(negated);
    var perm := Ranked(negated);
    forall i, j | 0 <= i < j < |keys| ensures keys[perm[i]] <= keys[perm[j]] {
      assert Le(At(negated, perm[j]), At(negated, perm[i]));
    }
  }

  /**
   * `torch.topk(scores, k)`: the positions of the `k` best scores, best
   * first. Ties go to the lower position.
   */
  function TopK(scores: seq<ExtInt>, k: nat): (ids: seq<nat>)
    requires k <= |scores|
    ensures |ids| == k
    ensures forall j :: 0 <= j < k ==> ids[j] < |scores|
    ensures Distinct(ids)
    ensures forall i, j :: 0 <= i < j < k ==> Le(scores[ids[j]], scores[ids[i]])
    ensures forall c, j :: 0 <= c < |scores| && c !in ids && 0 <= j < k ==> Le(scores[c], scores[ids[j]])
  {
    var all := Ranked(scores);
    RankedIsPermutation(scores);
    forall c, j | 0 <= c < |scores| && c !in all[..k] && 0 <= j < k
      ensures Le(scores[c], scores[all[..k][j]])
    {
      assert c in all;
      var m :| 0 <= m < |all| && all[m] == c;
      assert Le(At(scores, all[m]), At(scores, all[j]));
    }
    all[..k]
  }
}
