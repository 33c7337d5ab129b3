/** The stable sort that `Array.prototype.sort` performs with a numeric
    comparator `(a, b) => key(a) - key(b)`: ascending by an integer key, with
    elements of equal key left in their original relative order. Both the
    route ranking (key: total days) and the HS-code search (key: minus the
    score, for descending order) use it. */
module StableSort {

  /** Non-decreasing by `key`. */
  predicate Ascending<T>(s: seq<T>, key: T -> int) {
    forall i, j :: 0 <= i < j < |s| ==> key(s[i]) <= key(s[j])
  }

  /** The subsequence of `s` whose key is `k`, in the order of `s`. */
  function WithKey<T>(s: seq<T>, key: T -> int, k: int): seq<T> {
    if s == [] then []
    else (if key(s[0]) == k then [s[0]] else []) + WithKey(s[1..], key, k)
  }

  /** No element has key `k`: nothing is selected. */
  lemma {:induction false} WithKeyAbsent<T>(s: seq<T>, key: T -> int, k: int)
    requires forall x <- s :: key(x) != k
    ensures WithKey(s, key, k) == []
  {
    if s != [] {
      assert s[0] in s;
      WithKeyAbsent(s[1..], key, k);
    }
  }

  /** Every element of `s` has a key of at least `m`. */
  predicate AtLeast<T>(s: seq<T>, key: T -> int, m: int) {
    forall i :: 0 <= i < |s| ==> m <= key(s[i])
  }

  /** Puts `x` in front of the first element whose key is not smaller than
      its own, so `x` stays ahead of the elements of equal key. */
  function Insert<T>(x: T, s: seq<T>, key: T -> int): (r: seq<T>)
    ensures |r| == |s| + 1
  {
    if s == [] || key(x) <= key(s[0]) then [x] + s
    else [s[0]] + Insert(x, s[1..], key)
  }

  lemma {:induction false} InsertAtLeast<T>(x: T, s: seq<T>, key: T -> int, m: int)
    requires AtLeast(s, key, m) && m <= key(x)
    ensures AtLeast(Insert(x, s, key), key, m)
  {
    if !(s == [] || key(x) <= key(s[0])) {
      InsertAtLeast(x, s[1..], key, m);
    }
  }

  lemma {:induction false} InsertAscending<T>(x: T, s: seq<T>, key: T -> int)
    requires Ascending(s, key)
    ensures Ascending(Insert(x, s, key), key)
  {
    if !(s == [] || key(x) <= key(s[0])) {
      InsertAscending(x, s[1..], key);
      InsertAtLeast(x, s[1..], key, key(s[0]));
    }
  }

  lemma {:induction false} InsertPermutes<T>(x: T, s: seq<T>, key: T -> int)
    ensures multiset(Insert(x, s, key)) == multiset(s) + multiset{x}
  {
    if !(s == [] || key(x) <= key(s[0])) {
      InsertPermutes(x, s[1..], key);
      assert s == [s[0]] + s[1..];
    }
  }

  /** Insertion sort by `key`. */
  function SortBy<T>(s: seq<T>, key: T -> int): (r: seq<T>)
    ensures |r| == |s|
  {
    if s == [] then [] else Insert(s[0], SortBy(s[1..], key), key)
  }

  /** The sort's result is ascending and a permutation of its input. */
  lemma {:induction false} SortBySorts<T>(s: seq<T>, key: T -> int)
    ensures Ascending(SortBy(s, key), key)
    ensures multiset(SortBy(s, key)) == multiset(s)
  {
    if s != [] {
      SortBySorts(s[1..], key);
      InsertAscending(s[0], SortBy(s[1..], key), key);
      InsertPermutes(s[0], SortBy(s[1..], key), key);
      assert s == [s[0]] + s[1..];
    }
  }

  lemma {:induction false} WithKeyAppend<T>(a: seq<T>, b: seq<T>, key: T -> int, k: int)
    ensures WithKey(a + b, key, k) == WithKey(a, key, k) + WithKey(b, key, k)
  {
    if a == [] {
      assert a + b == b;
    } else {
      var head := if key(a[0]) == k then [a[0]] else [];
      assert (a + b)[0] == a[0];
      assert (a + b)[1..] == a[1..] + b;
      WithKeyAppend(a[1..], b, key, k);
      assert WithKey(a, key, k) == head + WithKey(a[1..], key, k);
      assert WithKey(a + b, key, k) == head + WithKey(a[1..] + b, key, k);
    }
  }

  /** In an ascending sequence, nothing before `x`'s slot has `x`'s key. */
  lemma {:induction false} WithKeyInsert<T>(x: T, s: seq<T>, key: T -> int, k: int)
    requires Ascending(s, key)
    ensures WithKey(Insert(x, s, key), key, k)
         == (if key(x) == k then [x] else []) + WithKey(s, key, k)
  {
    if s == [] || key(x) <= key(s[0]) {
      assert Insert(x, s, key) == [x] + s;
      assert ([x] + s)[1..] == s;
    } else {
      var rest := Insert(x, s[1..], key);
      WithKeyInsert(x, s[1..], key, k);
      assert Insert(x, s, key) == [s[0]] + rest;
      assert ([s[0]] + rest)[1..] == rest;
      if key(s[0]) == k {
        // then key(x) > k, so x is not part of either side
        assert key(x) != k;
      }
    }
  }

  /** Stability: for every key, the elements carrying it appear in the result
      in exactly the order they had in the input. */
  lemma {:induction false} SortByStable<T>(s: seq<T>, key: T -> int, k: int)
    ensures WithKey(SortBy(s, key), key, k) == WithKey(s, key, k)
  {
    if s != [] {
      SortByStable(s[1..], key, k);
      SortBySorts(s[1..], key);
      WithKeyInsert(s[0], SortBy(s[1..], key), key, k);
    }
  }

  /** A sequence whose elements all share one key is left as it is. */
  lemma {:induction false} SortByConstantKey<T>(s: seq<T>, key: T -> int, k: int)
    requires forall x <- s :: key(x) == k
    ensures SortBy(s, key) == s
  {
    var r := SortBy(s, key);
    SortByStable(s, key, k);
    SortBySorts(s, key);
    AllWithKey(s, key, k);
    forall y <- r ensures key(y) == k {
      assert y in multiset(r);
    }
    AllWithKey(r, key, k);
  }

  lemma {:induction false} AllWithKey<T>(s: seq<T>, key: T -> int, k: int)
    requires forall x <- s :: key(x) == k
    ensures WithKey(s, key, k) == s
  {
    if s != [] {
      AllWithKey(s[1..], key, k);
      assert [s[0]] + s[1..] == s;
    }
  }

  /** Cutting a sequence short cuts each key's subsequence short too. */
  lemma WithKeyOfPrefix<T>(s: seq<T>, n: nat, key: T -> int, k: int)
    requires n <= |s|
    ensures WithKey(s[..n], key, k) <= WithKey(s, key, k)
  {
    assert s == s[..n] + s[n..];
    WithKeyAppend(s[..n], s[n..], key, k);
  }
}
