/**
  * The two ranking primitives the bot relies on:
  *  - Python's `max(items, key=f)`, which returns the FIRST item with the largest key;
  *  - a stable sort in descending key order, which is what both Python's
  *    `sorted(..., key=f, reverse=True)` / `list.sort(..., reverse=True)` and
  *    JavaScript's (stable) `Array.prototype.sort((a, b) => f(b) - f(a))` compute.
  * Both are generic in the element type and take the key as a function.
  */
module Ranking {

  /** `f(s[i])` is maximal, and every earlier element has a strictly smaller key. */
  ghost predicate IsFirstMax<T>(s: seq<T>, f: T -> int, i: int) {
    && 0 <= i < |s|
    && (forall j :: 0 <= j < |s| ==> f(s[j]) <= f(s[i]))
    && (forall j :: 0 <= j < i ==> f(s[j]) < f(s[i]))
  }

  /** Python `max(s, key=f)` as an index: a left-to-right scan that only moves on a strictly larger key. */
  function FirstMaxIndex<T>(s: seq<T>, f: T -> int): (i: nat)
    requires |s| > 0
    ensures IsFirstMax(s, f, i)
    decreases |s|
  {
    if |s| == 1 then 0
    else
      var k := FirstMaxIndex(s[..|s| - 1], f);
      if f(s[|s| - 1]) > f(s[k]) then |s| - 1 else k
  }

  /** There is only one first maximum, so `max` is determined by the key alone. */
  lemma FirstMaxUnique<T>(s: seq<T>, f: T -> int, i: int, j: int)
    requires IsFirstMax(s, f, i) && IsFirstMax(s, f, j)
    ensures i == j
  {
    assert f(s[i]) <= f(s[j]) && f(s[j]) <= f(s[i]);
  }

  predicate NonIncreasing<T>(s: seq<T>, key: T -> int) {
    forall i, j :: 0 <= i < j < |s| ==> key(s[i]) >= key(s[j])
  }

  /** The elements of `s` whose key is `c`, in their order in `s`. */
  function WithKey<T>(s: seq<T>, key: T -> int, c: int): seq<T>
    decreases |s|
  {
    if s == [] then []
    else (if key(s[0]) == c then [s[0]] else []) + WithKey(s[1..], key, c)
  }

  /** Puts `x` in front of the first element whose key is not larger than its own. */
  function Insert<T>(x: T, s: seq<T>, key: T -> int): seq<T>
    decreases |s|
  {
    if s == [] || key(s[0]) <= key(x) then [x] + s else [s[0]] + Insert(x, s[1..], key)
  }

  /** Insertion sort, descending by key; of two elements with equal keys the earlier one stays first. */
  function SortDesc<T>(s: seq<T>, key: T -> int): seq<T>
    decreases |s|
  {
    if s == [] then [] else Insert(s[0], SortDesc(s[1..], key), key)
  }

  lemma {:induction false} InsertPermutes<T>(x: T, s: seq<T>, key: T -> int)
    ensures |Insert(x, s, key)| == |s| + 1
    ensures multiset(Insert(x, s, key)) == multiset(s) + multiset{x}
    decreases |s|
  {
    if s != [] && key(s[0]) > key(x) {
      InsertPermutes(x, s[1..], key);
      assert s == [s[0]] + s[1..];
    }
  }

  lemma {:induction false} InsertKeepsOrder<T>(x: T, s: seq<T>, key: T -> int)
    requires NonIncreasing(s, key)
    ensures NonIncreasing(Insert(x, s, key), key)
    decreases |s|
  {
    if s != [] && key(s[0]) > key(x) {
      var rest := Insert(x, s[1..], key);
      InsertKeepsOrder(x, s[1..], key);
      InsertPermutes(x, s[1..], key);
      forall k | 0 <= k < |rest|
        ensures key(rest[k]) <= key(s[0])
      {
        assert rest[k] in multiset(rest);
        if rest[k] != x {
          assert rest[k] in multiset(s[1..]);
          var m :| 0 <= m < |s[1..]| && s[1..][m] == rest[k];
          assert s[m + 1] == rest[k];
        }
      }
    }
  }

  lemma {:induction false} WithKeyAppend<T>(a: seq<T>, b: seq<T>, key: T -> int, c: int)
    ensures WithKey(a + b, key, c) == WithKey(a, key, c) + WithKey(b, key, c)
    decreases |a|
  {
    if a != [] {
      WithKeyAppend(a[1..], b, key, c);
      var h := if key(a[0]) == c then [a[0]] else [];
      assert (a + b)[0] == a[0];
      assert (a + b)[1..] == a[1..] + b;
      assert WithKey(a + b, key, c) == h + WithKey(a[1..] + b, key, c);
      assert WithKey(a, key, c) == h + WithKey(a[1..], key, c);
    } else {
      assert a + b == b;
    }
  }

  /** Inserting into a sorted sequence does not change the relative order of equal keys. */
  lemma {:induction false} InsertIsStable<T>(x: T, s: seq<T>, key: T -> int, c: int)
    requires NonIncreasing(s, key)
    ensures WithKey(Insert(x, s, key), key, c) == WithKey([x] + s, key, c)
    decreases |s|
  {
    if s != [] && key(s[0]) > key(x) {
      var s1 := s[1..];
      InsertIsStable(x, s1, key, c);
      calc {
        WithKey(Insert(x, s, key), key, c);
        { WithKeyAppend([s[0]], Insert(x, s1, key), key, c); }
        WithKey([s[0]], key, c) + WithKey(Insert(x, s1, key), key, c);
        WithKey([s[0]], key, c) + WithKey([x] + s1, key, c);
        { WithKeyAppend([x], s1, key, c); }
        WithKey([s[0]], key, c) + WithKey([x], key, c) + WithKey(s1, key, c);
        WithKey([x], key, c) + WithKey([s[0]], key, c) + WithKey(s1, key, c);
        { WithKeyAppend([x], [s[0]], key, c); WithKeyAppend([x, s[0]], s1, key, c);
          assert [x] + s == [x, s[0]] + s1; }
        WithKey([x] + s, key, c);
      }
    }
  }

  /** The ordering half of `SortDescIsStableSort`, for proofs that do not need stability. */
  lemma SortDescSorts<T>(s: seq<T>, key: T -> int)
    ensures |SortDesc(s, key)| == |s|
    ensures multiset(SortDesc(s, key)) == multiset(s)
    ensures NonIncreasing(SortDesc(s, key), key)
  {
    SortDescIsStableSort(s, key);
  }

  lemma {:induction false} SortDescIsStableSort<T>(s: seq<T>, key: T -> int)
    ensures |SortDesc(s, key)| == |s|
    ensures multiset(SortDesc(s, key)) == multiset(s)
    ensures NonIncreasing(SortDesc(s, key), key)
    ensures forall c :: WithKey(SortDesc(s, key), key, c) == WithKey(s, key, c)
    decreases |s|
  {
    if s != [] {
      var r := SortDesc(s[1..], key);
      SortDescIsStableSort(s[1..], key);
      InsertPermutes(s[0], r, key);
      InsertKeepsOrder(s[0], r, key);
      assert s == [s[0]] + s[1..];
      forall c ensures WithKey(SortDesc(s, key), key, c) == WithKey(s, key, c) {
        InsertIsStable(s[0], r, key, c);
        WithKeyAppend([s[0]], r, key, c);
        WithKeyAppend([s[0]], s[1..], key, c);
      }
    }
  }

  /** An already sorted sequence is left exactly as it is. */
  lemma {:induction false} SortDescOfSorted<T>(s: seq<T>, key: T -> int)
    requires NonIncreasing(s, key)
    ensures SortDesc(s, key) == s
    decreases |s|
  {
    if s != [] {
      SortDescOfSorted(s[1..], key);
    }
  }

  /** Sorting twice gives the same order as sorting once. */
  lemma SortDescIdempotent<T>(s: seq<T>, key: T -> int)
    ensures SortDesc(SortDesc(s, key), key) == SortDesc(s, key)
  {
    SortDescIsStableSort(s, key);
    SortDescOfSorted(SortDesc(s, key), key);
  }

  lemma {:induction false} WithKeyHead<T>(s: seq<T>, key: T -> int, i: nat)
    requires i < |s|
    requires forall j :: 0 <= j < i ==> key(s[j]) != key(s[i])
    ensures WithKey(s, key, key(s[i])) != [] && WithKey(s, key, key(s[i]))[0] == s[i]
    decreases i
  {
    if i > 0 {
      WithKeyHead(s[1..], key, i - 1);
    }
  }

  lemma {:induction false} WithKeyMembers<T>(s: seq<T>, key: T -> int, c: int)
    ensures forall x :: x in WithKey(s, key, c) ==> x in s && key(x) == c
    decreases |s|
  {
    if s != [] {
      WithKeyMembers(s[1..], key, c);
    }
  }

  /** The head of the stable descending sort is the element Python's `max` picks. */
  lemma SortDescHeadIsFirstMax<T>(s: seq<T>, key: T -> int)
    requires |s| > 0
    ensures SortDesc(s, key)[0] == s[FirstMaxIndex(s, key)]
  {
    var r := SortDesc(s, key);
    var i := FirstMaxIndex(s, key);
    var m := key(s[i]);
    SortDescIsStableSort(s, key);
    assert r[0] in multiset(s);
    assert key(r[0]) == m by {
      assert s[i] in multiset(r);
      var k :| 0 <= k < |r| && r[k] == s[i];
      assert k == 0 || key(r[0]) >= key(r[k]);
    }
    WithKeyHead(r, key, 0);
    WithKeyHead(s, key, i);
    assert WithKey(r, key, m) == WithKey(s, key, m);
  }

  /** The elements of `s` that satisfy `keep`, in their order in `s` (a Python list comprehension with `if`). */
  function Filter<T>(s: seq<T>, keep: T -> bool): seq<T>
    decreases |s|
  {
    if s == [] then []
    else Filter(s[..|s| - 1], keep) + (if keep(s[|s| - 1]) then [s[|s| - 1]] else [])
  }

  /** Exactly the elements of `s` that satisfy `keep` survive the filter. */
  lemma {:induction false} FilterMembers<T>(s: seq<T>, keep: T -> bool, x: T)
    ensures x in Filter(s, keep) <==> x in s && keep(x)
    decreases |s|
  {
    if s != [] {
      FilterMembers(s[..|s| - 1], keep, x);
      assert s == s[..|s| - 1] + [s[|s| - 1]];
    }
  }

  /** The loop `for x in s: if keep(x): r.append(x)`. */
  method FilterInOrder<T>(s: seq<T>, keep: T -> bool) returns (r: seq<T>)
    ensures r == Filter(s, keep)
  {
    r := [];
    for i := 0 to |s|
      invariant r == Filter(s[..i], keep)
    {
      assert s[..i + 1][..i] == s[..i];
      if keep(s[i]) {
        r := r + [s[i]];
      }
    }
    assert s[..|s|] == s;
  }
}
