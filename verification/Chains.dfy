/** Chains of hash elements, as values. */
module Chains {
  import opened Options

  class HashElement<V> {
    const key: string
    const hashcode: nat
    const data: Option<V> // None is the null pointer
    var next: HashElement?<V>

    constructor (key: string, hashcode: nat, data: Option<V>)
      ensures this.key == key && this.hashcode == hashcode && this.data == data && next == null
    {
      this.key, this.hashcode, this.data, next := key, hashcode, data, null;
    }
  }

  type Chain<V> = seq<HashElement<V>>

  function Index(hashcode: nat, size: nat): (index: nat)
    requires size > 0
    ensures index < size
  {
    hashcode % size
  }

  /** The data stored under a hash code, in chain order. */
  ghost function Matches<V>(chain: Chain<V>, h: nat): seq<Option<V>> {
    if chain == [] then []
    else Matches(chain[..|chain| - 1], h)
         + if chain[|chain| - 1].hashcode == h then [chain[|chain| - 1].data] else []
  }

  ghost function Values<V>(chains: seq<Chain<V>>, h: nat): seq<Option<V>>
    requires |chains| > 0
  {
    Matches(chains[Index(h, |chains|)], h)
  }

  ghost function Total<V>(chains: seq<Chain<V>>): nat {
    if chains == [] then 0 else Total(chains[..|chains| - 1]) + |chains[|chains| - 1]|
  }

  ghost function NonEmpty<V>(chains: seq<Chain<V>>): nat {
    if chains == [] then 0 else NonEmpty(chains[..|chains| - 1]) + if chains[|chains| - 1] == [] then 0 else 1
  }

  ghost predicate Distinct<V>(chain: Chain<V>) {
    forall i, j :: 0 <= i < j < |chain| ==> chain[i] != chain[j]
  }

  ghost predicate InPlace<V>(chain: Chain<V>, b: nat, size: nat) {
    size > 0 && forall i :: 0 <= i < |chain| ==> Index(chain[i].hashcode, size) == b
  }

  /** Every element sits, once, in the bucket of its hash code. */
  ghost predicate Placed<V>(chains: seq<Chain<V>>) {
    forall b :: 0 <= b < |chains| ==> Distinct(chains[b]) && InPlace(chains[b], b, |chains|)
  }

  ghost predicate Joined<V>(chain: Chain<V>)
    reads chain
  {
    forall i {:trigger chain[i].next} :: 0 <= i < |chain| - 1 ==> chain[i].next == chain[i + 1]
  }

  ghost predicate Linked<V>(head: HashElement?<V>, chain: Chain<V>)
    reads chain
  {
    && head == (if chain == [] then null else chain[0])
    && Joined(chain)
    && (chain != [] ==> chain[|chain| - 1].next == null)
  }

  lemma {:induction false} MatchesConcat<V>(a: Chain<V>, b: Chain<V>, h: nat)
    ensures Matches(a + b, h) == Matches(a, h) + Matches(b, h)
  {
    if b == [] {
      assert a + b == a;
    } else {
      assert (a + b)[..|a + b| - 1] == a + b[..|b| - 1];
      MatchesConcat(a, b[..|b| - 1], h);
    }
  }

  lemma {:induction false} NoMatches<V>(chain: Chain<V>, h: nat)
    requires forall i :: 0 <= i < |chain| ==> chain[i].hashcode != h
    ensures Matches(chain, h) == []
  {
    if chain != [] {
      NoMatches(chain[..|chain| - 1], h);
    }
  }

  lemma SplitMatches<V>(chain: Chain<V>, i: nat, h: nat)
    requires i < |chain|
    ensures Matches(chain, h) ==
            Matches(chain[..i], h) + (if chain[i].hashcode == h then [chain[i].data] else [])
              + Matches(chain[i + 1..], h)
    ensures Matches(chain[..i] + chain[i + 1..], h) == Matches(chain[..i], h) + Matches(chain[i + 1..], h)
  {
    var before, here, after := chain[..i], [chain[i]], chain[i + 1..];
    assert chain == (before + here) + after;
    MatchesConcat(before + here, after, h);
    assert (before + here)[..i] == before;
    MatchesConcat(before, after, h);
  }

  /** What a chain answers for `h` when its first element with that code is at position `i`. */
  lemma FirstMatch<V>(chain: Chain<V>, i: nat, h: nat)
    requires i < |chain| && chain[i].hashcode == h
    requires forall j :: 0 <= j < i ==> chain[j].hashcode != h
    ensures Matches(chain, h) == [chain[i].data] + Matches(chain[..i] + chain[i + 1..], h)
  {
    SplitMatches(chain, i, h);
    NoMatches(chain[..i], h);
  }

  lemma OtherMatches<V>(chain: Chain<V>, i: nat, h: nat)
    requires i < |chain| && chain[i].hashcode != h
    ensures Matches(chain[..i] + chain[i + 1..], h) == Matches(chain, h)
  {
    SplitMatches(chain, i, h);
  }

  lemma {:induction false} CountsUpdate<V>(chains: seq<Chain<V>>, b: nat, chain: Chain<V>)
    requires b < |chains|
    ensures Total(chains[b := chain]) == Total(chains) - |chains[b]| + |chain|
    ensures NonEmpty(chains[b := chain]) ==
            NonEmpty(chains) - (if chains[b] == [] then 0 else 1) + if chain == [] then 0 else 1
  {
    var n := |chains| - 1;
    if b == n {
      assert chains[b := chain][..n] == chains[..n];
    } else {
      CountsUpdate(chains[..n], b, chain);
      assert chains[b := chain][..n] == chains[..n][b := chain];
    }
  }

  lemma {:induction false} AllEmpty<V>(chains: seq<Chain<V>>, h: nat)
    requires forall b :: 0 <= b < |chains| ==> chains[b] == []
    ensures Total(chains) == 0 && NonEmpty(chains) == 0
    ensures |chains| > 0 ==> Values(chains, h) == []
  {
    if chains != [] {
      AllEmpty(chains[..|chains| - 1], h);
    }
  }

  lemma Apart<V>(chains: seq<Chain<V>>, b: nat, i: nat)
    requires Placed(chains) && b < |chains| && i < |chains[b]|
    ensures forall c, j :: 0 <= c < |chains| && 0 <= j < |chains[c]| && (c != b || j != i) ==>
            chains[c][j] != chains[b][i]
  {
    forall c, j | 0 <= c < |chains| && 0 <= j < |chains[c]| && (c != b || j != i)
      ensures chains[c][j] != chains[b][i]
    {
      assert Index(chains[c][j].hashcode, |chains|) == c && Index(chains[b][i].hashcode, |chains|) == b;
      assert Distinct(chains[b]);
    }
  }

  /** Replacing one chain changes the answer for the codes of that bucket only. */
  lemma ValuesUpdate<V>(chains: seq<Chain<V>>, b: nat, chain: Chain<V>, h: nat)
    requires b < |chains|
    ensures Values(chains[b := chain], h) == if Index(h, |chains|) == b then Matches(chain, h) else Values(chains, h)
  {
  }

  lemma PlacedUpdate<V>(chains: seq<Chain<V>>, b: nat, chain: Chain<V>)
    requires Placed(chains) && b < |chains| && Distinct(chain) && InPlace(chain, b, |chains|)
    ensures Placed(chains[b := chain])
  {
  }

  /** Walks to the end of a chain and links an element there. */
  method AppendToChain<V>(head: HashElement?<V>, ghost chain: Chain<V>, element: HashElement<V>)
    requires chain != [] && Linked(head, chain) && Distinct(chain)
    requires element !in chain
    modifies chain[|chain| - 1]
    ensures element.next == old(element.next)
    ensures head == chain[0] && Joined(chain) && chain[|chain| - 1].next == element
  {
    var last: HashElement<V> := head;
    ghost var i := 0;
    while last.next != null
      invariant 0 <= i < |chain| && last == chain[i]
      decreases |chain| - i
    {
      last := last.next;
      i := i + 1;
    }
    last.next := element;
  }

  ghost predicate Owned<V>(chain: Chain<V>, repr: set<HashElement<V>>) {
    forall i :: 0 <= i < |chain| ==> chain[i] in repr
  }

  /** A bucket array with its chains. */
  ghost predicate Table<V>(table: array<HashElement?<V>>, chains: seq<Chain<V>>, repr: set<HashElement<V>>)
    reads table, repr
  {
    && |chains| == table.Length > 0
    && Placed(chains)
    && forall b :: 0 <= b < |chains| ==> Owned(chains[b], repr) && Linked(table[b], chains[b])
  }

  lemma OthersUntouched<V>(chains: seq<Chain<V>>, repr: set<HashElement<V>>, b: nat, element: HashElement<V>)
    requires Placed(chains) && b < |chains| && forall c :: 0 <= c < |chains| ==> Owned(chains[c], repr)
    requires element !in repr
    ensures forall c :: 0 <= c < |chains| && c != b ==> Owned(chains[c], repr + {element}) && element !in chains[c]
    ensures forall c :: 0 <= c < |chains| && c != b && chains[b] != [] ==> chains[b][|chains[b]| - 1] !in chains[c]
  {
    if chains[b] != [] {
      Apart(chains, b, |chains[b]| - 1);
    }
  }

  lemma NotOwned<V>(chain: Chain<V>, repr: set<HashElement<V>>, element: HashElement<V>)
    requires Owned(chain, repr) && element !in repr
    ensures element !in chain && Owned(chain + [element], repr + {element})
    ensures chain != [] ==> chain[|chain| - 1] in repr
  {
  }

  lemma Appended<V>(head: HashElement?<V>, chain: Chain<V>, element: HashElement<V>)
    requires chain == [] ==> head == element
    requires chain != [] ==> head == chain[0] && Joined(chain) && chain[|chain| - 1].next == element
    requires element.next == null
    ensures Linked(head, chain + [element])
  {
  }

  /** Links an element at the end of its bucket; `newBucket` when the bucket was empty. */
  method Link<V>(table: array<HashElement?<V>>, ghost chains: seq<Chain<V>>, ghost repr: set<HashElement<V>>,
      element: HashElement<V>)
    returns (newBucket: bool, next: HashElement?<V>, ghost grown: seq<Chain<V>>)
    requires Table(table, chains, repr) && element !in repr
    modifies table, repr, element
    ensures var b := Index(element.hashcode, |chains|);
            newBucket == (chains[b] == []) && grown == Linking(chains, element)
    ensures next == old(element.next) && element.next == null
    ensures Table(table, grown, repr + {element})
  {
    hide Owned;
    var index := Index(element.hashcode, table.Length);
    ghost var chain := chains[index];
    NotOwned(chain, repr, element);
    PlacedUpdate(chains, index, chain + [element]);
    OthersUntouched(chains, repr, index, element);
    grown := chains[index := chain + [element]];
    var head := table[index];
    newBucket := head == null;
    if newBucket {
      table[index] := element;
    } else {
      AppendToChain(head, chain, element);
    }
    next := element.next;
    hide Linked, Joined;
    element.next := null;
    Appended(table[index], chain, element);
  }

  /** The chain without its element at `i`. */
  ghost function Without<V>(chain: Chain<V>, i: nat): Chain<V>
    requires i < |chain|
  {
    chain[..i] + chain[i + 1..]
  }

  lemma WithoutKeeps<V>(chains: seq<Chain<V>>, repr: set<HashElement<V>>, b: nat, i: nat)
    requires Placed(chains) && b < |chains| && i < |chains[b]| && Owned(chains[b], repr)
    ensures Placed(chains[b := Without(chains[b], i)]) && Owned(Without(chains[b], i), repr)
    ensures 0 < i ==> chains[b][i - 1] in repr
  {
    assert Distinct(chains[b]) && InPlace(chains[b], b, |chains|);
    PlacedUpdate(chains, b, Without(chains[b], i));
  }

  /** Taking out the first element with code `h` drops the first answer for `h` and nothing else. */
  lemma WithoutValues<V>(chains: seq<Chain<V>>, b: nat, i: nat, h: nat, g: nat)
    requires 0 < |chains| && b == Index(h, |chains|) && i < |chains[b]| && chains[b][i].hashcode == h
    requires forall j :: 0 <= j < i ==> chains[b][j].hashcode != h
    ensures Values(chains, h) != [] && chains[b][i].data == Values(chains, h)[0]
    ensures Values(chains[b := Without(chains[b], i)], g)
            == if g == h then Values(chains, h)[1..] else Values(chains, g)
    ensures Total(chains[b := Without(chains[b], i)]) == Total(chains) - 1
    ensures NonEmpty(chains[b := Without(chains[b], i)])
            == NonEmpty(chains) - if Without(chains[b], i) == [] then 1 else 0
  {
    CountsUpdate(chains, b, Without(chains[b], i));
    FirstMatch(chains[b], i, h);
    if g != h && Index(g, |chains|) == b {
      OtherMatches(chains[b], i, g);
    }
  }

  lemma HeadCut<V>(head: HashElement<V>, chain: Chain<V>)
    requires chain != [] && Linked(head, chain)
    ensures Linked(head.next, Without(chain, 0))
  {
    var rest := Without(chain, 0);
    assert rest == chain[1..];
    forall i | 0 <= i < |rest| - 1 ensures rest[i].next == rest[i + 1] {
      assert chain[i + 1].next == chain[i + 2];
    }
  }

  /** Unlinks the element after `previous`. */
  method Unlink<V>(ghost head: HashElement?<V>, ghost chain: Chain<V>, ghost i: nat, previous: HashElement<V>)
    requires Linked(head, chain) && Distinct(chain) && 0 < i < |chain| && previous == chain[i - 1]
    modifies previous`next
    ensures Linked(head, Without(chain, i))
  {
    assert previous.next == chain[i];
    assert chain[i].next == if i + 1 < |chain| then chain[i + 1] else null;
    label before:
    previous.next := previous.next.next;
    ghost var rest := Without(chain, i);
    forall j {:trigger rest[j].next} | 0 <= j < |rest| - 1 ensures rest[j].next == rest[j + 1] {
      if j < i - 1 { assert old@before(chain[j].next) == chain[j + 1]; }
      if j > i - 1 { assert old@before(chain[j + 1].next) == chain[j + 2]; }
    }
  }

  /** Removes the first element of a bucket. */
  method DropHead<V>(table: array<HashElement?<V>>, ghost chains: seq<Chain<V>>, ghost repr: set<HashElement<V>>,
      index: nat)
    requires Table(table, chains, repr) && index < |chains| && chains[index] != []
    modifies table
    ensures Table(table, chains[index := Without(chains[index], 0)], repr)
    ensures table[index] == null <==> Without(chains[index], 0) == []
  {
    WithoutKeeps(chains, repr, index, 0);
    var element := table[index];
    HeadCut(element, chains[index]);
    hide Joined, Placed, Owned;
    table[index] := element.next;
  }

  /** Removes the element after `previous` in its bucket. */
  method DropNext<V>(ghost table: array<HashElement?<V>>, ghost chains: seq<Chain<V>>, ghost repr: set<HashElement<V>>,
                     ghost index: nat, ghost i: nat, previous: HashElement<V>)
    requires Table(table, chains, repr) && index < |chains|
    requires i + 1 < |chains[index]| && previous == chains[index][i]
    modifies previous`next
    ensures Table(table, chains[index := Without(chains[index], i + 1)], repr)
  {
    WithoutKeeps(chains, repr, index, i + 1);
    Apart(chains, index, i);
    ghost var after := chains[index := Without(chains[index], i + 1)];
    assert forall c :: 0 <= c < |chains| && c != index ==> previous !in chains[c] && after[c] == chains[c];
    assert Distinct(chains[index]);
    hide Linked, Joined, Placed, Owned, Without;
    Unlink(table[index], chains[index], i + 1, previous);
  }

  /** `chains` with the element at the end of its bucket. */
  ghost function Linking<V>(chains: seq<Chain<V>>, element: HashElement<V>): seq<Chain<V>>
    requires |chains| > 0
  {
    var b := Index(element.hashcode, |chains|);
    chains[b := chains[b] + [element]]
  }

  /** Linking an element adds its data as the last answer for its code and nothing else. */
  lemma LinkValues<V>(chains: seq<Chain<V>>, element: HashElement<V>, h: nat)
    requires |chains| > 0
    ensures Values(Linking(chains, element), h)
            == Values(chains, h) + if element.hashcode == h then [element.data] else []
    ensures Total(Linking(chains, element)) == Total(chains) + 1
    ensures NonEmpty(Linking(chains, element)) ==
            NonEmpty(chains) + if chains[Index(element.hashcode, |chains|)] == [] then 1 else 0
  {
    var b := Index(element.hashcode, |chains|);
    CountsUpdate(chains, b, chains[b] + [element]);
    ValuesUpdate(chains, b, chains[b] + [element], h);
    MatchesSnoc(chains[b], element, h);
    hide Matches, Total, NonEmpty;
  }

  lemma MatchesSnoc<V>(chain: Chain<V>, element: HashElement<V>, h: nat)
    ensures Matches(chain + [element], h) == Matches(chain, h) + if element.hashcode == h then [element.data] else []
  {
    assert (chain + [element])[..|chain|] == chain;
  }

  /** `after` answers as `before`, then as `chain`. */
  ghost predicate Extended<V>(before: seq<Chain<V>>, after: seq<Chain<V>>, chain: Chain<V>) {
    && |before| == |after| > 0
    && Total(after) == Total(before) + |chain|
    && forall h: nat :: Values(after, h) == Values(before, h) + Matches(chain, h)
  }

  lemma ExtendedByOne<V>(start: seq<Chain<V>>, before: seq<Chain<V>>, chain: Chain<V>, j: nat)
    requires j < |chain| && Extended(start, before, chain[..j])
    ensures Extended(start, Linking(before, chain[j]), chain[..j + 1])
  {
    assert chain[..j + 1][..j] == chain[..j];
    forall h: nat
      ensures Values(Linking(before, chain[j]), h) == Values(start, h) + Matches(chain[..j + 1], h)
    {
      LinkValues(before, chain[j], h);
      assert Values(before, h) == Values(start, h) + Matches(chain[..j], h);
    }
    LinkValues(before, chain[j], 0);
  }

  ghost function Nodes<V>(chain: Chain<V>): set<HashElement<V>> {
    set x | x in chain
  }

  lemma TailLinked<V>(head: HashElement?<V>, chain: Chain<V>, j: nat)
    requires j < |chain| && Linked(head, chain[j..])
    ensures head == chain[j] && Linked(head.next, chain[j + 1..])
  {
    assert chain[j..][1..] == chain[j + 1..];
    HeadCut(head, chain[j..]);
    assert Without(chain[j..], 0) == chain[j + 1..];
  }

  /** The inner loop of dictionary_resize: every element of an old chain goes to its new bucket. */
  method MoveChain<V>(table: array<HashElement?<V>>, ghost chains: seq<Chain<V>>, ghost moved: set<HashElement<V>>,
                      head: HashElement?<V>, ghost chain: Chain<V>)
    returns (filled: nat, ghost grown: seq<Chain<V>>)
    requires |chains| > 0 && Table(table, chains, moved)
    requires Linked(head, chain) && Distinct(chain) && Nodes(chain) !! moved
    modifies table, moved, Nodes(chain)
    ensures Table(table, grown, moved + Nodes(chain)) && Extended(chains, grown, chain)
    ensures NonEmpty(grown) == NonEmpty(chains) + filled
  {
    hide Matches, Total, NonEmpty, Linked, Joined, Table, Extended;
    var element := head;
    grown, filled := chains, 0;
    ghost var j := 0;
    assert chain[0..] == chain;
    NothingAdded(chains, chain);
    assert moved + Nodes(chain[..0]) == moved;
    while element != null
      invariant 0 <= j <= |chain| && Linked(element, chain[j..]) && |grown| == |chains| > 0
      invariant Table(table, grown, moved + Nodes(chain[..j])) && Extended(chains, grown, chain[..j])
      invariant NonEmpty(grown) == NonEmpty(chains) + filled
      decreases |chain| - j
    {
      ghost var here := moved + Nodes(chain[..j]);
      LinkedNull(element, chain[j..]);
      TailLinked(element, chain, j);
      ExtendedByOne(chains, grown, chain, j);
      LinkValues(grown, element, 0);
      assert element !in here;
      assert forall x :: x in chain[j + 1..] ==> x !in here && x != element;
      var newBucket, next;
      newBucket, next, grown := Link(table, grown, here, element);
      if newBucket {
        filled := filled + 1;
      }
      assert here + {element} == moved + Nodes(chain[..j + 1]);
      element := next;
      j := j + 1;
    }
    LinkedNull(element, chain[j..]);
    assert chain[..j] == chain;
  }

  lemma LinkedNull<V>(head: HashElement?<V>, chain: Chain<V>)
    requires Linked(head, chain)
    ensures head == null <==> chain == []
  {
  }

  lemma NothingAdded<V>(chains: seq<Chain<V>>, chain: Chain<V>)
    requires |chains| > 0
    ensures Extended(chains, chains, chain[..0])
  {
  }
}
