/**
 * The pass that merges newly arrived processes into the ready list (PP/src/STS.c,
 * orderInsertPrioList and orderInsertSPNList): the same code for a key that is the
 * priority and for a key that is the estimated burst.
 */
module SortMerge {
  import opened Lists
  import opened Sorting

  function Reverse<T>(s: seq<T>): (r: seq<T>)
    ensures |r| == |s|
  {
    if s == [] then [] else Reverse(s[1..]) + [s[0]]
  }

  function Swap<T>(s: seq<T>, i: nat): seq<T>
    requires i + 1 < |s|
  {
    s[..i] + [s[i + 1], s[i]] + s[i + 2..]
  }

  /** How many elements of `s` have a key below `k`. */
  function Below<T>(k: real, s: seq<T>, key: T -> real): nat {
    if s == [] then 0 else (if key(s[0]) < k then 1 else 0) + Below(k, s[1..], key)
  }

  function Inversions<T>(s: seq<T>, key: T -> real): nat {
    if s == [] then 0 else Below(key(s[0]), s[1..], key) + Inversions(s[1..], key)
  }

  lemma SwapTail<T>(s: seq<T>, i: nat)
    requires 0 < i && i + 1 < |s|
    ensures Swap(s, i)[0] == s[0] && Swap(s, i)[1..] == Swap(s[1..], i - 1)
  {
  }

  lemma SwapAtHead<T>(s: seq<T>)
    requires 1 < |s|
    ensures Swap(s, 0)[0] == s[1] && Swap(s, 0)[1] == s[0]
    ensures Swap(s, 0)[1..] == [s[0]] + s[2..] && Swap(s, 0)[1..][1..] == s[2..]
    ensures s[1..][1..] == s[2..]
  {
  }

  lemma {:induction false} SwapKeepsBelow<T>(k: real, s: seq<T>, i: nat, key: T -> real)
    requires i + 1 < |s|
    ensures Below(k, Swap(s, i), key) == Below(k, s, key)
  {
    if i == 0 {
      SwapAtHead(s);
    } else {
      SwapTail(s, i);
      SwapKeepsBelow(k, s[1..], i - 1, key);
    }
  }

  /** Exchanging neighbours that are out of order removes exactly one inversion. */
  lemma {:induction false} SwapLowersInversions<T>(s: seq<T>, i: nat, key: T -> real)
    requires i + 1 < |s| && key(s[i]) > key(s[i + 1])
    ensures Inversions(Swap(s, i), key) == Inversions(s, key) - 1
  {
    if i == 0 {
      SwapAtHead(s);
    } else {
      SwapTail(s, i);
      SwapKeepsBelow(key(s[0]), s[1..], i - 1, key);
      SwapLowersInversions(s[1..], i - 1, key);
    }
  }

  lemma {:induction false} SwapKeepsKeys<T>(s: seq<T>, i: nat, key: T -> real, k: real)
    requires i + 1 < |s| && key(s[i]) != key(s[i + 1])
    ensures WithKey(Swap(s, i), key, k) == WithKey(s, key, k)
  {
    if i == 0 {
      SwapAtHead(s);
    } else {
      SwapTail(s, i);
      SwapKeepsKeys(s[1..], i - 1, key, k);
    }
  }

  lemma SwapByMoving<T>(s: seq<T>, i: nat)
    requires i + 1 < |s|
    ensures var rest := s[..i] + s[i + 1..];
            Swap(s, i) == if i + 2 == |s| then rest + [s[i]] else rest[..i + 1] + [s[i]] + rest[i + 1..]
  {
  }

  // the body of the inner loop: the last pair is exchanged by appending
  method ExchangeNext<T>(list: List<T>, i: nat, ilimit: int)
    requires list.Valid() && ilimit == |list.contents| - 1 && i < ilimit
    modifies list, list.repr
    ensures list.Valid() && fresh(list.repr - old(list.repr))
    ensures list.contents == Swap(old(list.contents), i)
  {
    hide List.Valid;
    SwapByMoving(list.contents, i);
    var removed := list.Remove(i);
    if ilimit - i == 1 {
      var index := list.Add(removed.value);
    } else {
      list.AddInIndex(i + 1, removed.value);
    }
  }

  /** The flag loop: it ends, and what it leaves is the stable sort. */
  method BubbleSort<T>(list: List<T>, key: T -> real)
    requires list.Valid()
    modifies list, list.repr
    ensures list.Valid() && fresh(list.repr - old(list.repr))
    ensures list.contents == StableSort(old(list.contents), key)
  {
    hide Swap, WithKey, StableSort, Inversions;
    ghost var start := list.contents;
    var flag := false;
    var ilimit := list.count - 1;
    while !flag
      invariant list.Valid() && fresh(list.repr - old(list.repr))
      invariant |list.contents| == |start| == ilimit + 1
      invariant SameByKey(list.contents, start, key)
      invariant flag ==> Sorted(list.contents, key)
      decreases Inversions(list.contents, key), !flag
    {
      flag := true;
      ghost var before := list.contents;
      var i := 0;
      while i < ilimit
        invariant i == 0 || 0 <= i <= ilimit
        invariant list.Valid() && fresh(list.repr - old(list.repr))
        invariant |list.contents| == |start|
        invariant SameByKey(list.contents, start, key)
        invariant flag ==> list.contents == before && forall j :: 0 <= j < i ==> key(before[j]) <= key(before[j + 1])
        invariant !flag ==> Inversions(list.contents, key) < Inversions(before, key)
        decreases ilimit - i
      {
        ghost var here := list.contents;
        var first := list.Get(i);
        var second := list.Get(i + 1);
        if key(first.value) > key(second.value) {
          ExchangeNext(list, i, ilimit);
          SwapLowersInversions(here, i, key);
          SwapLength(here, i);
          forall k ensures WithKey(list.contents, key, k) == WithKey(start, key, k) {
            SwapKeepsKeys(here, i, key, k);
            assert WithKey(here, key, k) == WithKey(start, key, k);
          }
          flag := false;
        }
        i := i + 1;
      }
    }
    StableSortSorts(start, key);
    forall k ensures WithKey(list.contents, key, k) == WithKey(StableSort(start, key), key, k) {
      assert WithKey(list.contents, key, k) == WithKey(start, key, k);
    }
    StableSortIsUnique(list.contents, StableSort(start, key), key);
  }

  lemma SwapLength<T>(s: seq<T>, i: nat)
    requires i + 1 < |s|
    ensures |Swap(s, i)| == |s|
  {
  }

  /** How many processes the first loop takes off a ready list of `n` when its semaphore is at `sem`. */
  function Taken(n: nat, sem: nat): nat {
    if n <= sem then n else sem + 1
  }

  /** What is in the working list before sorting: inserting at position 0 of an empty list does nothing. */
  function Gathered<T>(ready: seq<T>, arrivals: seq<T>, sem: nat): seq<T> {
    if arrivals == [] then [] else Reverse(ready[..Taken(|ready|, sem)]) + arrivals
  }

  function Merged<T>(ready: seq<T>, arrivals: seq<T>, sem: nat, key: T -> real): seq<T> {
    ready[Taken(|ready|, sem)..] + StableSort(Gathered(ready, arrivals, sem), key)
  }

  function SemaphoreAfter<T>(ready: seq<T>, arrivals: seq<T>, sem: nat): nat {
    (if |ready| <= sem then sem - |ready| else 0) + |Gathered(ready, arrivals, sem)|
  }

  lemma {:induction false} ReverseAt<T>(s: seq<T>, i: nat)
    requires i < |s|
    ensures Reverse(s)[i] == s[|s| - 1 - i]
  {
    if i < |s| - 1 {
      ReverseAt(s[1..], i);
    }
  }

  lemma ReverseOneMore<T>(s: seq<T>, i: nat)
    requires i < |s|
    ensures Reverse(s[..i + 1]) == [s[i]] + Reverse(s[..i])
  {
    if i > 0 {
      ReverseOneMore(s[1..], i - 1);
      assert s[..i + 1][1..] == s[1..][..i] && s[..i][1..] == s[1..][..i - 1];
    } else {
      assert s[..1] == [s[0]] && s[..0] == [];
    }
  }

  lemma {:induction false} SortLength<T>(s: seq<T>, key: T -> real)
    ensures |StableSort(s, key)| == |s| && multiset(StableSort(s, key)) == multiset(s)
  {
    if s != [] {
      SortLength(s[1..], key);
      InsertMultiset(s[0], StableSort(s[1..], key), key);
      assert s == [s[0]] + s[1..];
    }
  }

  lemma {:induction false} InsertMultiset<T>(x: T, s: seq<T>, key: T -> real)
    ensures |Insert(x, s, key)| == |s| + 1 && multiset(Insert(x, s, key)) == multiset{x} + multiset(s)
  {
    if s != [] && key(x) > key(s[0]) {
      InsertMultiset(x, s[1..], key);
      assert s == [s[0]] + s[1..];
    }
  }

  /** The ready list LPL and its semaphore LPL_empty. */
  class ReadyList<T> {
    const lpl: Queue<T>
    var lplEmpty: nat

    ghost predicate Valid()
      reads this, lpl, lpl.elements, lpl.elements.repr
    {
      lpl.Valid()
    }

    constructor ()
      ensures Valid() && lpl.Contents() == [] && lplEmpty == 0 && fresh(lpl) && fresh(lpl.elements)
              && lpl.elements.repr == {}
    {
      lpl := new Queue();
      lplEmpty := 0;
    }

    // sem_trywait
    method TryWait() returns (result: int)
      modifies this`lplEmpty
      ensures old(lplEmpty) > 0 ==> result == 0 && lplEmpty == old(lplEmpty) - 1
      ensures old(lplEmpty) == 0 ==> result == -1 && lplEmpty == 0
    {
      if lplEmpty > 0 {
        lplEmpty := lplEmpty - 1;
        result := 0;
      } else {
        result := -1;
      }
    }

    /** orderInsertPrioList and orderInsertSPNList, for any arrivals and any semaphore value. */
    method OrderInsert(prioList: List<T>, key: T -> real)
      requires Valid() && prioList.Valid()
      requires prioList != lpl.elements && prioList.repr !! lpl.elements.repr
      modifies this`lplEmpty, lpl.elements, lpl.elements.repr, prioList, prioList.repr
      ensures Valid() && prioList.Valid() && prioList.contents == []
      ensures lpl.Contents() == Merged(old(lpl.Contents()), old(prioList.contents), old(lplEmpty), key)
      ensures lplEmpty == SemaphoreAfter(old(lpl.Contents()), old(prioList.contents), old(lplEmpty))
    {
      TakeReady(prioList);
      BubbleSort(prioList, key);
      SortLength(Gathered(old(lpl.Contents()), old(prioList.contents), old(lplEmpty)), key);
      PutBack(prioList);
    }

    method TakeOne(prioList: List<T>) returns (result: int)
      requires Valid() && prioList.Valid() && lpl.Contents() != []
      requires prioList != lpl.elements && prioList.repr !! lpl.elements.repr
      modifies this`lplEmpty, lpl.elements, lpl.elements.repr, prioList, prioList.repr
      ensures Valid() && prioList.Valid()
      ensures fresh(prioList.repr - old(prioList.repr)) && lpl.elements.repr == old(lpl.elements.repr)
      ensures lpl.Contents() == old(lpl.Contents())[1..]
      ensures prioList.contents
              == if old(prioList.contents) == [] then [] else [old(lpl.Contents())[0]] + old(prioList.contents)
      ensures result == if old(lplEmpty) > 0 then 0 else -1
      ensures lplEmpty == if old(lplEmpty) > 0 then old(lplEmpty) - 1 else 0
    {
      hide List.Valid;
      result := TryWait();
      var popped := lpl.Pop();
      prioList.AddInIndex(0, popped.value);
    }

    method PutOne(prioList: List<T>)
      requires Valid() && prioList.Valid() && prioList.contents != []
      requires prioList != lpl.elements && prioList.repr !! lpl.elements.repr
      modifies this`lplEmpty, lpl.elements, lpl.elements.repr, prioList, prioList.repr
      ensures Valid() && prioList.Valid()
      ensures prioList.repr == old(prioList.repr) && fresh(lpl.elements.repr - old(lpl.elements.repr))
      ensures lpl.Contents() == old(lpl.Contents()) + [old(prioList.contents)[0]]
      ensures prioList.contents == old(prioList.contents)[1..] && lplEmpty == old(lplEmpty) + 1
    {
      hide List.Valid;
      var removed := prioList.Remove(0);
      lpl.Push(removed.value);
      lplEmpty := lplEmpty + 1;
    }

    method TakeReady(prioList: List<T>)
      requires Valid() && prioList.Valid()
      requires prioList != lpl.elements && prioList.repr !! lpl.elements.repr
      modifies this`lplEmpty, lpl.elements, lpl.elements.repr, prioList, prioList.repr
      ensures Valid() && prioList.Valid()
      ensures fresh(prioList.repr - old(prioList.repr)) && lpl.elements.repr == old(lpl.elements.repr)
      ensures prioList.contents == Gathered(old(lpl.Contents()), old(prioList.contents), old(lplEmpty))
      ensures lpl.Contents() == old(lpl.Contents())[Taken(|old(lpl.Contents())|, old(lplEmpty))..]
      ensures lplEmpty == if |old(lpl.Contents())| <= old(lplEmpty) then old(lplEmpty) - |old(lpl.Contents())| else 0
    {
      hide List.Valid, Queue.Valid, Reverse;
      ghost var ready, arrivals, sem := lpl.Contents(), prioList.contents, lplEmpty;
      var queueSize := lpl.Size();
      var result := 0;
      var i := 0;
      while i < queueSize && result != -1
        invariant Valid() && prioList.Valid() && prioList.repr !! lpl.elements.repr
        invariant fresh(prioList.repr - old(prioList.repr)) && lpl.elements.repr == old(lpl.elements.repr)
        invariant i <= queueSize && lpl.Contents() == ready[i..]
        invariant result == (if i <= sem then 0 else -1) && i <= sem + 1
        invariant lplEmpty == if i <= sem then sem - i else 0
        invariant prioList.contents == if arrivals == [] then [] else Reverse(ready[..i]) + arrivals
        decreases queueSize - i
      {
        result := TakeOne(prioList);
        ReverseOneMore(ready, i);
        i := i + 1;
      }
    }

    method PutBack(prioList: List<T>)
      requires Valid() && prioList.Valid()
      requires prioList != lpl.elements && prioList.repr !! lpl.elements.repr
      modifies this`lplEmpty, lpl.elements, lpl.elements.repr, prioList, prioList.repr
      ensures Valid() && prioList.Valid() && prioList.contents == []
      ensures lpl.Contents() == old(lpl.Contents()) + old(prioList.contents)
      ensures lplEmpty == old(lplEmpty) + |old(prioList.contents)|
    {
      hide List.Valid, Queue.Valid;
      ghost var ready, sorted := lpl.Contents(), prioList.contents;
      var listSize := prioList.Size();
      for i := 0 to listSize
        invariant Valid() && prioList.Valid() && prioList.repr !! lpl.elements.repr
        invariant prioList.repr == old(prioList.repr) && fresh(lpl.elements.repr - old(lpl.elements.repr))
        invariant prioList.contents == sorted[i..] && lpl.Contents() == ready + sorted[..i]
        invariant lplEmpty == old(lplEmpty) + i
      {
        PutOne(prioList);
      }
    }
  }

  lemma {:induction false} ReverseMultiset<T>(s: seq<T>)
    ensures multiset(Reverse(s)) == multiset(s)
  {
    if s != [] {
      ReverseMultiset(s[1..]);
      assert s == [s[0]] + s[1..];
    }
  }

  /** With arrivals and at most one token short, the pass leaves exactly the stable sort of everything. */
  lemma ExactSortMerge<T>(ready: seq<T>, arrivals: seq<T>, sem: nat, key: T -> real)
    requires arrivals != [] && |ready| <= sem + 1
    ensures Merged(ready, arrivals, sem, key) == StableSort(Reverse(ready) + arrivals, key)
    ensures Sorted(Merged(ready, arrivals, sem, key), key)
    ensures SameByKey(Merged(ready, arrivals, sem, key), Reverse(ready) + arrivals, key)
  {
    assert ready[..|ready|] == ready;
    assert Merged(ready, arrivals, sem, key) == StableSort(Reverse(ready) + arrivals, key);
    StableSortSorts(Reverse(ready) + arrivals, key);
  }

  /** No process is lost or duplicated, except exactly when nothing arrived and something was ready. */
  lemma MergeKeepsEveryProcess<T>(ready: seq<T>, arrivals: seq<T>, sem: nat, key: T -> real)
    ensures multiset(Merged(ready, arrivals, sem, key)) == multiset(ready) + multiset(arrivals)
            <==> (arrivals != [] || ready == [])
  {
    var m := Taken(|ready|, sem);
    assert ready == ready[..m] + ready[m..];
    SortLength(Gathered(ready, arrivals, sem), key);
    ReverseMultiset(ready[..m]);
    if arrivals == [] && ready != [] {
      assert |Merged(ready, arrivals, sem, key)| < |ready|;
      assert |multiset(Merged(ready, arrivals, sem, key))| < |multiset(ready) + multiset(arrivals)|;
    }
  }

  /**
   * The semaphore agrees with the list again, counting the tokens the dispatcher holds,
   * exactly when it held none during the pass.
   */
  lemma SemaphoreAgreesExactlyWhen<T>(ready: seq<T>, arrivals: seq<T>, sem: nat, held: nat, key: T -> real)
    requires |ready| == sem + held
    ensures |Merged(ready, arrivals, sem, key)| == SemaphoreAfter(ready, arrivals, sem) + held <==> held == 0
  {
    SortLength(Gathered(ready, arrivals, sem), key);
  }
}
