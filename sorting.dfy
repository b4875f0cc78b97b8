/**
 * Kotlin's `sortedBy` / `sortBy` on a key: a stable sort in ascending key order.
 * `sortedByDescending { k }` is the same sort on the key `-k`.
 */
module Sorting {

  /** `xs` is in ascending order of `key`. */
  ghost predicate SortedBy<T>(xs: seq<T>, key: T -> real) {
    forall i, j :: 0 <= i < j < |xs| ==> key(xs[i]) <= key(xs[j])
  }

  /** Inserts `x` into `xs` just before the first element whose key is greater than `x`'s. */
  function Insert<T>(xs: seq<T>, x: T, key: T -> real): (r: seq<T>)
    decreases |xs|
  {
    if xs == [] then [x]
    else if key(x) < key(xs[0]) then [x] + xs
    else [xs[0]] + Insert(xs[1..], x, key)
  }

  /** Insertion sort; elements with equal keys keep their relative order. */
  function SortBy<T>(xs: seq<T>, key: T -> real): (r: seq<T>)
    decreases |xs|
  {
    if xs == [] then [] else Insert(SortBy(xs[..|xs| - 1], key), xs[|xs| - 1], key)
  }

  /** Inserting an element no smaller than `lo` into elements no smaller than `lo` keeps that bound. */
  lemma {:induction false} InsertBounded<T>(xs: seq<T>, x: T, key: T -> real, lo: real)
    requires forall k :: 0 <= k < |xs| ==> lo <= key(xs[k])
    requires lo <= key(x)
    ensures forall k :: 0 <= k < |Insert(xs, x, key)| ==> lo <= key(Insert(xs, x, key)[k])
    decreases |xs|
  {
    if xs != [] && key(x) >= key(xs[0]) {
      InsertBounded(xs[1..], x, key, lo);
    }
  }

  lemma {:induction false} InsertKeepsSorted<T>(xs: seq<T>, x: T, key: T -> real)
    requires SortedBy(xs, key)
    ensures SortedBy(Insert(xs, x, key), key)
    decreases |xs|
  {
    if xs != [] && key(x) >= key(xs[0]) {
      InsertKeepsSorted(xs[1..], x, key);
      InsertBounded(xs[1..], x, key, key(xs[0]));
    }
  }

  lemma {:induction false} InsertAddsOne<T>(xs: seq<T>, x: T, key: T -> real)
    ensures multiset(Insert(xs, x, key)) == multiset(xs) + multiset{x}
    decreases |xs|
  {
    if xs != [] && key(x) >= key(xs[0]) {
      InsertAddsOne(xs[1..], x, key);
      assert xs == [xs[0]] + xs[1..];
    }
  }

  /** `[x]` when `x` has the key `v`, else nothing. */
  function Keep<T>(x: T, key: T -> real, v: real): seq<T> {
    if key(x) == v then [x] else []
  }

  /** The elements of `xs` whose key is `v`, in their order in `xs`. */
  function WithKey<T>(xs: seq<T>, key: T -> real, v: real): seq<T>
    decreases |xs|
  {
    if xs == [] then [] else Keep(xs[0], key, v) + WithKey(xs[1..], key, v)
  }

  /** Filtering by key distributes over concatenation. */
  lemma {:induction false} WithKeyAppend<T>(a: seq<T>, b: seq<T>, key: T -> real, v: real)
    ensures WithKey(a + b, key, v) == WithKey(a, key, v) + WithKey(b, key, v)
    decreases |a|
  {
    if a == [] {
      assert a + b == b;
    } else {
      var h := Keep(a[0], key, v);
      calc {
        WithKey(a + b, key, v);
      == { assert (a + b)[0] == a[0]; assert (a + b)[1..] == a[1..] + b; }
        h + WithKey(a[1..] + b, key, v);
      == { WithKeyAppend(a[1..], b, key, v); }
        h + (WithKey(a[1..], key, v) + WithKey(b, key, v));
      ==
        (h + WithKey(a[1..], key, v)) + WithKey(b, key, v);
      }
    }
  }

  /** No element of a list whose keys all exceed `v` has the key `v`. */
  lemma {:induction false} WithKeyAbove<T>(xs: seq<T>, key: T -> real, v: real)
    requires forall k :: 0 <= k < |xs| ==> v < key(xs[k])
    ensures WithKey(xs, key, v) == []
    decreases |xs|
  {
    if xs != [] {
      WithKeyAbove(xs[1..], key, v);
    }
  }

  /** A sorted list without its first element is sorted. */
  lemma SortedTail<T>(xs: seq<T>, key: T -> real)
    requires xs != [] && SortedBy(xs, key)
    ensures SortedBy(xs[1..], key)
    ensures forall k :: 0 <= k < |xs| ==> key(xs[0]) <= key(xs[k])
  {
    forall i, j | 0 <= i < j < |xs| - 1
      ensures key(xs[1..][i]) <= key(xs[1..][j])
    {
      assert xs[1..][i] == xs[i + 1] && xs[1..][j] == xs[j + 1];
    }
  }

  /** Insert places `x` after every element of a sorted list that has the same key. */
  lemma {:induction false} InsertStable<T>(xs: seq<T>, x: T, key: T -> real, v: real)
    requires SortedBy(xs, key)
    ensures WithKey(Insert(xs, x, key), key, v) == WithKey(xs, key, v) + Keep(x, key, v)
    decreases |xs|
  {
    if xs == [] {
      assert Insert(xs, x, key) == [x];
      assert [x][1..] == [];
    } else if key(x) < key(xs[0]) {
      assert Insert(xs, x, key) == [x] + xs;
      assert ([x] + xs)[0] == x && ([x] + xs)[1..] == xs;
      assert WithKey([x] + xs, key, v) == Keep(x, key, v) + WithKey(xs, key, v);
      if key(x) == v {
        SortedTail(xs, key);
        WithKeyAbove(xs, key, v);
      }
    } else {
      var rest := Insert(xs[1..], x, key);
      assert Insert(xs, x, key) == [xs[0]] + rest;
      assert ([xs[0]] + rest)[0] == xs[0] && ([xs[0]] + rest)[1..] == rest;
      SortedTail(xs, key);
      InsertStable(xs[1..], x, key, v);
      calc {
        WithKey([xs[0]] + rest, key, v);
      ==
        Keep(xs[0], key, v) + WithKey(rest, key, v);
      ==
        Keep(xs[0], key, v) + (WithKey(xs[1..], key, v) + Keep(x, key, v));
      ==
        (Keep(xs[0], key, v) + WithKey(xs[1..], key, v)) + Keep(x, key, v);
      }
    }
  }

  /** SortBy is stable: the elements sharing any one key keep their relative order. */
  lemma {:induction false} SortByStable<T>(xs: seq<T>, key: T -> real, v: real)
    ensures WithKey(SortBy(xs, key), key, v) == WithKey(xs, key, v)
    decreases |xs|
  {
    if xs != [] {
      var init, last := xs[..|xs| - 1], xs[|xs| - 1];
      var sorted := SortBy(init, key);
      assert SortBy(xs, key) == Insert(sorted, last, key);
      assert WithKey(Insert(sorted, last, key), key, v) == WithKey(sorted, key, v) + Keep(last, key, v) by {
        SortByOrdered(init, key);
        InsertStable(sorted, last, key, v);
      }
      assert WithKey(xs, key, v) == WithKey(init, key, v) + Keep(last, key, v) by {
        assert xs == init + [last];
        WithKeyAppend(init, [last], key, v);
        assert [last][1..] == [];
      }
      SortByStable(init, key, v);
    }
  }

  /** The result of SortBy is ordered by the key and a permutation of the input. */
  lemma {:induction false} SortByOrdered<T>(xs: seq<T>, key: T -> real)
    ensures SortedBy(SortBy(xs, key), key)
    ensures multiset(SortBy(xs, key)) == multiset(xs)
    decreases |xs|
  {
    if xs != [] {
      var init := xs[..|xs| - 1];
      SortByOrdered(init, key);
      InsertKeepsSorted(SortBy(init, key), xs[|xs| - 1], key);
      InsertAddsOne(SortBy(init, key), xs[|xs| - 1], key);
      assert xs == init + [xs[|xs| - 1]];
    }
  }

  /** The result of SortBy is ordered by the key, a permutation of the input, and stable. */
  lemma SortByIsSorted<T>(xs: seq<T>, key: T -> real)
    ensures SortedBy(SortBy(xs, key), key)
    ensures multiset(SortBy(xs, key)) == multiset(xs)
    ensures forall v :: WithKey(SortBy(xs, key), key, v) == WithKey(xs, key, v)
  {
    SortByOrdered(xs, key);
    forall v {
      SortByStable(xs, key, v);
    }
  }

  /** Sorting keeps the length (a consequence of the permutation property). */
  lemma SortByLength<T>(xs: seq<T>, key: T -> real)
    ensures |SortBy(xs, key)| == |xs|
  {
    SortByOrdered(xs, key);
    assert |multiset(SortBy(xs, key))| == |multiset(xs)|;
  }
}
