/** The order the short-term scheduler wants: ascending keys, equal keys in the order they came. */
module Sorting {

  predicate Sorted<T>(s: seq<T>, key: T -> real) {
    forall i :: 0 <= i < |s| - 1 ==> key(s[i]) <= key(s[i + 1])
  }

  /** The elements with a given key, in order. */
  function WithKey<T>(s: seq<T>, key: T -> real, k: real): seq<T> {
    if s == [] then []
    else (if key(s[0]) == k then [s[0]] else []) + WithKey(s[1..], key, k)
  }

  /** A rearrangement that keeps the order among equal keys. */
  ghost predicate SameByKey<T>(a: seq<T>, b: seq<T>, key: T -> real) {
    forall k :: WithKey(a, key, k) == WithKey(b, key, k)
  }

  function Insert<T>(x: T, s: seq<T>, key: T -> real): seq<T> {
    if s == [] || key(x) <= key(s[0]) then [x] + s else [s[0]] + Insert(x, s[1..], key)
  }

  /** The stable ascending sort. */
  function StableSort<T>(s: seq<T>, key: T -> real): seq<T> {
    if s == [] then [] else Insert(s[0], StableSort(s[1..], key), key)
  }

  lemma TailSorted<T>(s: seq<T>, key: T -> real)
    requires Sorted(s, key) && s != []
    ensures Sorted(s[1..], key)
  {
    forall i | 0 <= i < |s[1..]| - 1
      ensures key(s[1..][i]) <= key(s[1..][i + 1])
    {
      assert s[1..][i] == s[i + 1] && s[1..][i + 1] == s[i + 2];
      assert key(s[i + 1]) <= key(s[i + 1 + 1]);
    }
  }

  lemma WithKeyCons<T>(x: T, s: seq<T>, key: T -> real, k: real)
    ensures WithKey([x] + s, key, k) == (if key(x) == k then [x] else []) + WithKey(s, key, k)
  {
    assert ([x] + s)[1..] == s;
  }

  lemma {:induction false} InsertSorts<T>(x: T, s: seq<T>, key: T -> real)
    requires Sorted(s, key)
    ensures Sorted(Insert(x, s, key), key)
    ensures Insert(x, s, key) != []
    ensures key(Insert(x, s, key)[0]) == if s == [] || key(x) <= key(s[0]) then key(x) else key(s[0])
  {
    if s != [] && key(x) > key(s[0]) {
      TailSorted(s, key);
      InsertSorts(x, s[1..], key);
    }
  }

  lemma {:induction false} InsertKeepsKeys<T>(x: T, s: seq<T>, key: T -> real, k: real)
    ensures WithKey(Insert(x, s, key), key, k) == (if key(x) == k then [x] else []) + WithKey(s, key, k)
  {
    if s == [] || key(x) <= key(s[0]) {
      WithKeyCons(x, s, key, k);
    } else {
      InsertKeepsKeys(x, s[1..], key, k);
      WithKeyCons(s[0], Insert(x, s[1..], key), key, k);
      assert s == [s[0]] + s[1..];
      WithKeyCons(s[0], s[1..], key, k);
      var rest := WithKey(s[1..], key, k);
      if key(x) == k {
        assert [] + ([x] + rest) == [x] + ([] + rest);
      } else {
        assert (if key(s[0]) == k then [s[0]] else []) + ([] + rest)
            == [] + ((if key(s[0]) == k then [s[0]] else []) + rest);
      }
    }
  }

  /** `StableSort` is what it is meant to be. */
  lemma {:induction false} StableSortSorts<T>(s: seq<T>, key: T -> real)
    ensures Sorted(StableSort(s, key), key) && SameByKey(StableSort(s, key), s, key)
  {
    if s != [] {
      StableSortSorts(s[1..], key);
      InsertSorts(s[0], StableSort(s[1..], key), key);
      forall k
        ensures WithKey(StableSort(s, key), key, k) == WithKey(s, key, k)
      {
        InsertKeepsKeys(s[0], StableSort(s[1..], key), key, k);
        assert WithKey(StableSort(s[1..], key), key, k) == WithKey(s[1..], key, k);
      }
    }
  }

  lemma {:induction false} HeadIsLeast<T>(s: seq<T>, key: T -> real, i: nat)
    requires Sorted(s, key) && i < |s|
    ensures key(s[0]) <= key(s[i])
  {
    if i > 0 {
      HeadIsLeast(s, key, i - 1);
      assert key(s[i - 1]) <= key(s[i - 1 + 1]);
    }
  }

  lemma {:induction false} KeyPresent<T>(s: seq<T>, key: T -> real, k: real)
    ensures WithKey(s, key, k) != [] ==> exists i :: 0 <= i < |s| && key(s[i]) == k
  {
    if s != [] && key(s[0]) != k {
      KeyPresent(s[1..], key, k);
      if WithKey(s, key, k) != [] {
        var i :| 0 <= i < |s[1..]| && key(s[1..][i]) == k;
        assert key(s[i + 1]) == k;
      }
    }
  }

  lemma EmptyTogether<T>(a: seq<T>, b: seq<T>, key: T -> real)
    requires SameByKey(a, b, key)
    ensures a == [] ==> b == []
  {
    if b != [] {
      assert WithKey(a, key, key(b[0])) == WithKey(b, key, key(b[0]));
    }
  }

  /** There is only one sorted rearrangement that keeps the order among equal keys. */
  lemma {:induction false} StableSortIsUnique<T>(a: seq<T>, b: seq<T>, key: T -> real)
    requires Sorted(a, key) && Sorted(b, key) && SameByKey(a, b, key)
    ensures a == b
  {
    EmptyTogether(a, b, key);
    EmptyTogether(b, a, key);
    if a != [] {
      assert WithKey(a, key, key(a[0])) == WithKey(b, key, key(a[0]));
      KeyPresent(b, key, key(a[0]));
      SameHead(a, b, key);
      assert a == [a[0]] + a[1..] && b == [b[0]] + b[1..];
      forall k
        ensures WithKey(a[1..], key, k) == WithKey(b[1..], key, k)
      {
        assert WithKey(a, key, k) == WithKey(b, key, k);
        WithKeyCons(a[0], a[1..], key, k);
        WithKeyCons(b[0], b[1..], key, k);
        var h := if key(a[0]) == k then [a[0]] else [];
        assert WithKey(a[1..], key, k) == WithKey(a, key, k)[|h|..] == WithKey(b[1..], key, k);
      }
      TailSorted(a, key);
      TailSorted(b, key);
      StableSortIsUnique(a[1..], b[1..], key);
    }
  }

  lemma SameHead<T>(a: seq<T>, b: seq<T>, key: T -> real)
    requires Sorted(a, key) && Sorted(b, key) && SameByKey(a, b, key) && a != [] && b != []
    ensures a[0] == b[0]
  {
    var ka, kb := key(a[0]), key(b[0]);
    assert WithKey(a, key, ka) == WithKey(b, key, ka) && WithKey(a, key, kb) == WithKey(b, key, kb);
    KeyPresent(b, key, ka);
    var i :| 0 <= i < |b| && key(b[i]) == ka;
    HeadIsLeast(b, key, i);
    KeyPresent(a, key, kb);
    var j :| 0 <= j < |a| && key(a[j]) == kb;
    HeadIsLeast(a, key, j);
    assert WithKey(a, key, ka)[0] == a[0] && WithKey(b, key, kb)[0] == b[0];
  }
}
