/** The chained hash dictionary with resizing (commons/collections/dictionary.c). */
module Dictionaries {
  import opened Options
  import opened Chains
  import HashCodes

  const DEFAULT_DICTIONARY_INITIAL_SIZE: nat := 20

  class Dictionary<V> {
    var elements: array<HashElement?<V>>
    var tableCurrentSize: nat
    var elementsAmount: nat
    ghost var chains: seq<Chain<V>>
    ghost var repr: set<HashElement<V>>
    ghost var nullsRemoved: nat

    /** The table and its chains; everything but the element counter. */
    ghost predicate Shape()
      reads this, elements, repr
    {
      Table(elements, chains, repr) && tableCurrentSize == NonEmpty(chains)
    }

    ghost predicate Valid()
      reads this, elements, repr
    {
      Shape() && elementsAmount == Total(chains) + nullsRemoved
    }

    constructor ()
      ensures Valid() && fresh(elements) && repr == {} && nullsRemoved == 0
      ensures elements.Length == DEFAULT_DICTIONARY_INITIAL_SIZE
      ensures forall h: nat :: Values(chains, h) == []
    {
      elements := new HashElement?<V>[DEFAULT_DICTIONARY_INITIAL_SIZE](_ => null);
      tableCurrentSize, elementsAmount := 0, 0;
      chains, repr, nullsRemoved := seq(DEFAULT_DICTIONARY_INITIAL_SIZE, _ => []), {}, 0;
      new;
      forall h: nat ensures Values(chains, h) == [] && Total(chains) == 0 && NonEmpty(chains) == 0 {
        AllEmpty(chains, h);
      }
      assert Values(chains, 0) == [];
    }

    /** dictionary_get_element. */
    method GetElement(keyHash: nat) returns (element: HashElement?<V>)
      requires Shape()
      ensures element == null <==> Values(chains, keyHash) == []
      ensures element != null ==> element.data == Values(chains, keyHash)[0]
    {
      var index := Index(keyHash, elements.Length);
      element := elements[index];
      ghost var chain, i := chains[index], 0;
      while element != null
        invariant 0 <= i <= |chain| && element == (if i == |chain| then null else chain[i])
        invariant forall j :: 0 <= j < i ==> chain[j].hashcode != keyHash
        decreases |chain| - i
      {
        if element.hashcode == keyHash {
          FirstMatch(chain, i, keyHash);
          return;
        }
        element := element.next;
        i := i + 1;
      }
      NoMatches(chain, keyHash);
    }

    /** dictionary_get: the data of the oldest entry with the hash code. */
    method GetHash(keyHash: nat) returns (data: Option<V>)
      requires Valid()
      ensures data == if Values(chains, keyHash) == [] then None else Values(chains, keyHash)[0]
    {
      var element := GetElement(keyHash);
      if element == null {
        return None;
      }
      data := element.data;
    }

    /** dictionary_remove_element. */
    method RemoveElement(keyHash: nat) returns (data: Option<V>)
      requires Shape()
      modifies this`tableCurrentSize, this`chains, elements, repr
      ensures Shape() && Dropped(old(chains), chains, keyHash)
      ensures data == if old(Values(chains, keyHash)) == [] then None else old(Values(chains, keyHash))[0]
    {
      hide Matches, Total, NonEmpty, Placed, Linked, Owned, Without, Dropped;
      var index := Index(keyHash, elements.Length);
      var element := elements[index];
      ghost var chain := chains[index];
      ChainFacts(elements, chains, repr, index);
      if element == null {
        DroppedNothing(chains, keyHash);
        return None;
      }
      if element.hashcode == keyHash {
        data := element.data;
        DroppedOne(chains, repr, index, 0, keyHash);
        DropHead(elements, chains, repr, index);
        if elements[index] == null {
          tableCurrentSize := tableCurrentSize - 1;
        }
        chains := chains[index := Without(chain, 0)];
        return;
      }
      ghost var i;
      element, i := BeforeMatch(element, chain, keyHash);
      if element == null {
        DroppedNothing(chains, keyHash);
        return None;
      }
      data := element.next.data;
      DroppedOne(chains, repr, index, i + 1, keyHash);
      DropNext(elements, chains, repr, index, i, element);
      chains := chains[index := Without(chain, i + 1)];
    }

    /** dictionary_resize: the same answers in the same order from a table of another size. */
    method Resize(newMaxSize: nat)
      requires Shape() && newMaxSize > 0
      modifies this`elements, this`tableCurrentSize, this`chains, repr
      ensures Shape() && fresh(elements) && elements.Length == newMaxSize
      ensures Total(chains) == old(Total(chains))
      ensures forall h: nat :: Values(chains, h) == old(Values(chains, h))
    {
      hide Matches, Total, NonEmpty, Linked, Extended;
      var newTable := new HashElement?<V>[newMaxSize](_ => null);
      ghost var newChains: seq<Chain<V>>, moved: set<HashElement<V>> := seq(newMaxSize, _ => []), {};
      EmptyTable(newTable, newChains);
      NothingMoved(chains, newChains);
      tableCurrentSize := 0;
      for tableIndex := 0 to elements.Length
        invariant elements == old(elements) && chains == old(chains) && fresh(newTable)
        invariant |chains| == elements.Length && |newChains| == newMaxSize && moved <= repr
        invariant Table(newTable, newChains, moved) && tableCurrentSize == NonEmpty(newChains)
        invariant forall b :: tableIndex <= b < |chains| ==> Linked(elements[b], chains[b]) && Nodes(chains[b]) !! moved
        invariant MovedUpTo(chains, newChains, tableIndex)
      {
        var filled;
        ghost var chain := chains[tableIndex];
        ghost var before := newChains;
        ChainsApart(chains, repr, tableIndex);
        filled, newChains := MoveChain(newTable, newChains, moved, elements[tableIndex], chain);
        tableCurrentSize := tableCurrentSize + filled;
        moved := moved + Nodes(chain);
        OneMoreMoved(chains, before, newChains, tableIndex);
      }
      AllMoved(chains, newChains);
      BiggerOwner(newTable, newChains, moved, repr);
      elements, chains := newTable, newChains;
    }

    /** dictionary_put, given the hash code of the key. */
    method PutHash(key: string, keyHash: nat, data: Option<V>)
      requires Valid()
      modifies this`elements, this`tableCurrentSize, this`elementsAmount, this`chains, this`repr, elements, repr
      ensures Valid() && fresh(repr - old(repr)) && (elements == old(elements) || fresh(elements))
      ensures forall h: nat :: Values(chains, h) == old(Values(chains, h)) + if h == keyHash then [data] else []
      ensures Total(chains) == old(Total(chains)) + 1
      ensures elements.Length == old(elements.Length) *
                if old(chains[Index(keyHash, |chains|)]) == []
                  && old(NonEmpty(chains)) + 1 >= old(elements.Length) then 2 else 1
    {
      hide Matches, Total, NonEmpty, Table;
      var newElement := new HashElement(key, keyHash, data);
      ghost var before := chains;
      TableSize(elements, chains, repr);
      forall h: nat ensures Values(Linking(before, newElement), h)
          == Values(before, h) + if h == keyHash then [data] else [] {
        LinkValues(before, newElement, h);
      }
      LinkValues(before, newElement, 0);
      var newBucket, next;
      newBucket, next, chains := Link(elements, chains, repr, newElement);
      repr := repr + {newElement};
      if newBucket {
        tableCurrentSize := tableCurrentSize + 1;
        if tableCurrentSize >= elements.Length {
          Resize(elements.Length * 2);
        }
      }
      elementsAmount := elementsAmount + 1;
    }

    /** dictionary_remove, given the hash code: an entry holding the null pointer is not counted out. */
    method RemoveHash(keyHash: nat) returns (data: Option<V>)
      requires Valid()
      modifies this`tableCurrentSize, this`elementsAmount, this`chains, this`nullsRemoved, elements, repr
      ensures Valid() && Dropped(old(chains), chains, keyHash)
      ensures data == if old(Values(chains, keyHash)) == [] then None else old(Values(chains, keyHash))[0]
      ensures nullsRemoved == old(nullsRemoved) + if old(Values(chains, keyHash)) != [] && data == None then 1 else 0
    {
      hide Matches, Total, NonEmpty, Dropped, Values, Placed, Owned;
      TableSize(elements, chains, repr);
      ghost var before := Values(chains, keyHash);
      ghost var was := chains;
      data := RemoveElement(keyHash);
      DroppedTotal(was, chains, keyHash);
      if data != None {
        elementsAmount := elementsAmount - 1;
      } else if before != [] {
        nullsRemoved := nullsRemoved + 1;
      }
    }

    /** dictionary_put. */
    method Put(key: string, data: Option<V>)
      requires Valid()
      modifies this`elements, this`tableCurrentSize, this`elementsAmount, this`chains, this`repr, elements, repr
      ensures Valid() && fresh(repr - old(repr)) && (elements == old(elements) || fresh(elements))
      ensures forall h: nat ::
                Values(chains, h) == old(Values(chains, h)) + if h == HashCodes.Of(key) then [data] else []
      ensures elementsAmount == old(elementsAmount) + 1
    {
      hide Matches, Total, NonEmpty, Table, HashCodes.Of;
      var keyHash := HashCodes.DictionaryHash(key);
      PutHash(key, keyHash, data);
    }

    /** dictionary_get. */
    method Get(key: string) returns (data: Option<V>)
      requires Valid()
      ensures var found := Values(chains, HashCodes.Of(key)); data == if found == [] then None else found[0]
    {
      hide HashCodes.Of;
      var keyHash := HashCodes.DictionaryHash(key);
      data := GetHash(keyHash);
    }

    /** dictionary_has_key. */
    method HasKey(key: string) returns (present: bool)
      requires Valid()
      ensures present <==> Values(chains, HashCodes.Of(key)) != []
    {
      hide HashCodes.Of;
      var keyHash := HashCodes.DictionaryHash(key);
      var element := GetElement(keyHash);
      present := element != null;
    }

    /** dictionary_remove. */
    method Remove(key: string) returns (data: Option<V>)
      requires Valid()
      modifies this`tableCurrentSize, this`elementsAmount, this`chains, this`nullsRemoved, elements, repr
      ensures Valid() && Dropped(old(chains), chains, HashCodes.Of(key))
      ensures var found := old(Values(chains, HashCodes.Of(key)));
              && data == (if found == [] then None else found[0])
              && nullsRemoved == old(nullsRemoved) + if found != [] && data == None then 1 else 0
    {
      hide HashCodes.Of;
      var keyHash := HashCodes.DictionaryHash(key);
      data := RemoveHash(keyHash);
    }

    /** dictionary_size: the entries, plus every null pointer ever removed. */
    method Size() returns (size: nat)
      requires Valid()
      ensures size == Total(chains) + nullsRemoved
    {
      size := elementsAmount;
    }

    /** dictionary_is_empty: right exactly when no null pointer has been removed. */
    method IsEmpty() returns (empty: bool)
      requires Valid()
      ensures empty <==> nullsRemoved == 0 && forall h: nat :: Values(chains, h) == []
    {
      TotalZero(chains);
      empty := elementsAmount == 0;
    }

    /** dictionary_clean. */
    method Clean()
      requires Valid()
      modifies this, elements
      ensures Valid() && elements == old(elements) && nullsRemoved == 0 && elementsAmount == 0
      ensures forall h: nat :: Values(chains, h) == []
    {
      for tableIndex := 0 to elements.Length
        invariant elements == old(elements)
        invariant forall b :: 0 <= b < tableIndex ==> elements[b] == null
      {
        elements[tableIndex] := null;
      }
      tableCurrentSize, elementsAmount := 0, 0;
      chains, repr, nullsRemoved := seq(elements.Length, _ => []), {}, 0;
      EmptyTable(elements, chains);
      forall h: nat ensures Values(chains, h) == [] {
        AllEmpty(chains, h);
      }
    }
  }

  // the second loop of dictionary_remove_element: the element whose successor is the first match
  method BeforeMatch<V>(head: HashElement<V>, ghost chain: Chain<V>, keyHash: nat)
    returns (element: HashElement?<V>, ghost i: nat)
    requires chain != [] && Linked(head, chain) && head.hashcode != keyHash
    ensures element == null ==> forall j :: 0 <= j < |chain| ==> chain[j].hashcode != keyHash
    ensures element != null ==>
              && i + 1 < |chain| && element == chain[i] && element.next == chain[i + 1]
              && chain[i + 1].hashcode == keyHash && forall j :: 0 <= j <= i ==> chain[j].hashcode != keyHash
  {
    element, i := head, 0;
    while element.next != null
      invariant 0 <= i < |chain| && element == chain[i]
      invariant forall j :: 0 <= j <= i ==> chain[j].hashcode != keyHash
      decreases |chain| - i
    {
      if element.next.hashcode == keyHash {
        return;
      }
      element := element.next;
      i := i + 1;
    }
    element := null;
  }

  /** `after` answers as `before` except that the first answer for `h`, if any, is gone. */
  ghost predicate Dropped<V>(before: seq<Chain<V>>, after: seq<Chain<V>>, h: nat) {
    && |before| == |after| > 0
    && Total(after) == Total(before) - (if Values(before, h) == [] then 0 else 1)
    && forall g: nat :: Values(after, g) ==
         if g == h && Values(before, g) != [] then Values(before, g)[1..] else Values(before, g)
  }

  lemma DroppedTotal<V>(before: seq<Chain<V>>, after: seq<Chain<V>>, h: nat)
    requires Dropped(before, after, h)
    ensures Total(after) == Total(before) - if Values(before, h) == [] then 0 else 1
  {
  }

  lemma DroppedNothing<V>(chains: seq<Chain<V>>, h: nat)
    requires |chains| > 0
    requires var chain := chains[Index(h, |chains|)]; forall j :: 0 <= j < |chain| ==> chain[j].hashcode != h
    ensures Dropped(chains, chains, h) && Values(chains, h) == []
  {
    NoMatches(chains[Index(h, |chains|)], h);
  }

  lemma DroppedOne<V>(chains: seq<Chain<V>>, repr: set<HashElement<V>>, b: nat, i: nat, h: nat)
    requires Placed(chains) && 0 < |chains| && b == Index(h, |chains|) && i < |chains[b]| && Owned(chains[b], repr)
    requires chains[b][i].hashcode == h && forall j :: 0 <= j < i ==> chains[b][j].hashcode != h
    ensures var after := chains[b := Without(chains[b], i)];
            && Dropped(chains, after, h)
            && NonEmpty(after) == NonEmpty(chains) - (if after[b] == [] then 1 else 0)
    ensures 0 < i ==> chains[b][i - 1] in repr && Without(chains[b], i) != []
    ensures Values(chains, h) != [] && chains[b][i].data == Values(chains, h)[0]
  {
    WithoutKeeps(chains, repr, b, i);
    WithoutValues(chains, b, i, h, h);
    forall g: nat
      ensures Values(chains[b := Without(chains[b], i)], g)
              == if g == h then Values(chains, h)[1..] else Values(chains, g)
    {
      WithoutValues(chains, b, i, h, g);
    }
  }

  lemma ChainFacts<V>(table: array<HashElement?<V>>, chains: seq<Chain<V>>, repr: set<HashElement<V>>, b: nat)
    requires Table(table, chains, repr) && b < |chains|
    ensures Linked(table[b], chains[b]) && (table[b] == null <==> chains[b] == [])
            && (chains[b] != [] ==> table[b] == chains[b][0])
  {
  }

  lemma TableSize<V>(table: array<HashElement?<V>>, chains: seq<Chain<V>>, repr: set<HashElement<V>>)
    requires Table(table, chains, repr)
    ensures |chains| == table.Length > 0
  {
  }

  lemma EmptyTable<V>(table: array<HashElement?<V>>, chains: seq<Chain<V>>)
    requires |chains| == table.Length > 0
    requires forall b :: 0 <= b < |chains| ==> chains[b] == [] && table[b] == null
    ensures Table(table, chains, {}) && NonEmpty(chains) == 0 && Total(chains) == 0
    ensures forall b :: 0 <= b < |chains| ==> Linked(table[b], chains[b])
  {
    AllEmpty(chains, 0);
  }

  /** The new table answers for the first `t` buckets of the old one. */
  ghost predicate MovedUpTo<V>(chains: seq<Chain<V>>, newChains: seq<Chain<V>>, t: nat)
    requires t <= |chains|
  {
    && |chains| > 0 && |newChains| > 0
    && Total(newChains) == Total(chains[..t])
    && forall h: nat :: Values(newChains, h) == if Index(h, |chains|) < t then Values(chains, h) else []
  }

  lemma NothingMoved<V>(chains: seq<Chain<V>>, newChains: seq<Chain<V>>)
    requires |chains| > 0 && |newChains| > 0 && forall b :: 0 <= b < |newChains| ==> newChains[b] == []
    ensures MovedUpTo(chains, newChains, 0)
  {
    forall h: nat ensures Values(newChains, h) == [] && Total(newChains) == 0 {
      AllEmpty(newChains, h);
    }
    assert Values(newChains, 0) == [];
  }

  lemma OneMoreMoved<V>(chains: seq<Chain<V>>, before: seq<Chain<V>>, after: seq<Chain<V>>, t: nat)
    requires t < |chains| && Placed(chains)
    requires MovedUpTo(chains, before, t) && Extended(before, after, chains[t])
    ensures MovedUpTo(chains, after, t + 1)
  {
    assert chains[..t + 1][..t] == chains[..t];
    assert InPlace(chains[t], t, |chains|);
    forall h: nat ensures Values(after, h) == if Index(h, |chains|) < t + 1 then Values(chains, h) else [] {
      assert Values(after, h) == Values(before, h) + Matches(chains[t], h);
      if Index(h, |chains|) != t {
        NoMatches(chains[t], h);
      }
    }
  }

  lemma AllMoved<V>(chains: seq<Chain<V>>, newChains: seq<Chain<V>>)
    requires MovedUpTo(chains, newChains, |chains|)
    ensures Total(newChains) == Total(chains) && forall h: nat :: Values(newChains, h) == Values(chains, h)
  {
    assert chains[..|chains|] == chains;
  }

  lemma BiggerOwner<V>(table: array<HashElement?<V>>, chains: seq<Chain<V>>, moved: set<HashElement<V>>,
      repr: set<HashElement<V>>)
    requires Table(table, chains, moved) && moved <= repr
    ensures Table(table, chains, repr)
  {
  }

  lemma ChainsApart<V>(chains: seq<Chain<V>>, repr: set<HashElement<V>>, t: nat)
    requires Placed(chains) && t < |chains| && Owned(chains[t], repr)
    ensures forall c :: t < c < |chains| ==> Nodes(chains[c]) !! Nodes(chains[t])
    ensures Nodes(chains[t]) <= repr && Distinct(chains[t])
  {
    forall c | t < c < |chains| ensures Nodes(chains[c]) !! Nodes(chains[t]) {
      assert InPlace(chains[c], c, |chains|) && InPlace(chains[t], t, |chains|);
    }
  }

  lemma TotalZero<V>(chains: seq<Chain<V>>)
    requires Placed(chains) && |chains| > 0
    ensures Total(chains) == 0 <==> forall h: nat :: Values(chains, h) == []
  {
    if Total(chains) == 0 {
      forall h: nat ensures Values(chains, h) == [] {
        TotalBounds(chains, Index(h, |chains|));
      }
    } else {
      var b := SomeNonEmpty(chains);
      var chain := chains[b];
      assert InPlace(chain, b, |chains|);
      assert Index(chain[0].hashcode, |chains|) == b;
      FirstMatch(chain, 0, chain[0].hashcode);
      assert Values(chains, chain[0].hashcode) != [];
    }
  }

  lemma {:induction false} TotalBounds<V>(chains: seq<Chain<V>>, b: nat)
    requires b < |chains|
    ensures |chains[b]| <= Total(chains)
  {
    if b < |chains| - 1 {
      TotalBounds(chains[..|chains| - 1], b);
    }
  }

  lemma {:induction false} SomeNonEmpty<V>(chains: seq<Chain<V>>) returns (b: nat)
    requires Total(chains) > 0
    ensures b < |chains| && chains[b] != []
  {
    b := |chains| - 1;
    if chains[b] == [] {
      b := SomeNonEmpty(chains[..|chains| - 1]);
    }
  }
}
