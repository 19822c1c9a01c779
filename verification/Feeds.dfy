/**
 * The four feed queues of the ready list: their priority order (PP/src/configure.c,
 * reorderQueuesArrayPriority) and one FIFO pass (PP/src/STS.c, ordenarFIFO).
 */
module Feeds {
  import opened Sorting
  import opened SortMerge

  datatype Feed = Feed(name: string, priority: int)

  function Priority(f: Feed): real {
    f.priority as real
  }

  function StrSwitch(alg: string): (code: int)
    ensures code == -1 || 1 <= code <= 8
  {
    if alg == "FIFO" then 1
    else if alg == "RR" then 2
    else if alg == "PRI" then 3
    else if alg == "SPN" then 4
    else if alg == "PLPN" then 5
    else if alg == "PLPR" then 6
    else if alg == "PLFQ" then 7
    else if alg == "PLFIO" then 8
    else -1
  }

  /** The flag loop over the array of feeds ends and leaves the stable sort by priority. */
  method ReorderQueuesArrayPriority(queuesArray: array<Feed>)
    requires queuesArray.Length == 4
    modifies queuesArray
    ensures queuesArray[..] == StableSort(old(queuesArray[..]), Priority)
  {
    hide Swap, WithKey, StableSort, Inversions;
    ghost var start := queuesArray[..];
    var flag := false;
    while !flag
      invariant SameByKey(queuesArray[..], start, Priority)
      invariant flag ==> Sorted(queuesArray[..], Priority)
      decreases Inversions(queuesArray[..], Priority), !flag
    {
      flag := true;
      ghost var before := queuesArray[..];
      for i := 0 to 3
        invariant SameByKey(queuesArray[..], start, Priority)
        invariant flag ==> queuesArray[..] == before && forall j :: 0 <= j < i ==>
            Priority(before[j]) <= Priority(before[j + 1])
        invariant !flag ==> Inversions(queuesArray[..], Priority) < Inversions(before, Priority)
      {
        ghost var here := queuesArray[..];
        if queuesArray[i].priority > queuesArray[i + 1].priority {
          var aux := queuesArray[i + 1];
          queuesArray[i + 1] := queuesArray[i];
          queuesArray[i] := aux;
          IsSwap(here, i, queuesArray[..]);
          SwapLowersInversions(here, i, Priority);
          forall k ensures WithKey(queuesArray[..], Priority, k) == WithKey(start, Priority, k) {
            SwapKeepsKeys(here, i, Priority, k);
            assert WithKey(here, Priority, k) == WithKey(start, Priority, k);
          }
          flag := false;
        }
      }
    }
    StableSortSorts(start, Priority);
    forall k ensures WithKey(queuesArray[..], Priority, k) == WithKey(StableSort(start, Priority), Priority, k) {
      assert WithKey(queuesArray[..], Priority, k) == WithKey(start, Priority, k);
    }
    StableSortIsUnique(queuesArray[..], StableSort(start, Priority), Priority);
  }

  lemma IsSwap<T>(s: seq<T>, i: nat, t: seq<T>)
    requires i + 1 < |s| && t == s[i := s[i + 1]][i + 1 := s[i]]
    ensures t == Swap(s, i)
  {
  }

  /** A feed queue and its semaphore. */
  class FeedQueue<T> {
    var queue: seq<T>
    var empty: nat

    constructor ()
      ensures queue == [] && empty == 0
    {
      queue, empty := [], 0;
    }
  }

  /** What one pass takes from a feed: as many processes as its semaphore announces. */
  datatype Announced<T> = Announced(queue: seq<T>, empty: nat)

  type Snapshot<T> = map<int, Announced<T>>

  function Batch<T>(feeds: Snapshot<T>, code: int): seq<T> {
    if code in feeds && feeds[code].empty <= |feeds[code].queue|
    then feeds[code].queue[..feeds[code].empty] else []
  }

  /** The batches of the named feeds, in the order of the names. */
  function Batches<T>(feeds: Snapshot<T>, names: seq<string>): seq<T> {
    if names == [] then [] else Batch(feeds, StrSwitch(names[0])) + Batches(feeds, names[1..])
  }

  predicate Named(names: seq<string>, code: int) {
    exists i :: 0 <= i < |names| && StrSwitch(names[i]) == code
  }

  function After<T>(feed: Announced<T>, drained: bool): Announced<T> {
    if drained && feed.empty <= |feed.queue| then Announced(feed.queue[feed.empty..], 0) else feed
  }

  /** The feeds once those named have been drained. */
  function Drained<T>(feeds: Snapshot<T>, names: seq<string>): Snapshot<T> {
    map code | code in feeds :: After(feeds[code], Named(names, code))
  }

  /** What is left of a semaphore after `n` attempts to take from it. */
  function Left(sem: nat, n: int): nat {
    if n <= 0 then sem else if sem <= n then 0 else sem - n
  }

  function Names(feeds: seq<Feed>): seq<string> {
    seq(|feeds|, i requires 0 <= i < |feeds| => feeds[i].name)
  }

  predicate DistinctNames(names: seq<string>) {
    forall i, j :: 0 <= i < j < |names| ==> names[i] != names[j]
  }

  class ShortTermScheduler<T> {
    const lpn: FeedQueue<T>
    const lpr: FeedQueue<T>
    const lfq: FeedQueue<T>
    const lfio: FeedQueue<T>
    var lpl: seq<T>
    var lplEmpty: nat
    var stsInEmpty: nat

    constructor ()
      ensures Valid() && lpl == [] && lplEmpty == stsInEmpty == 0
      ensures forall code :: 5 <= code <= 8 ==> Snap()[code] == Announced([], 0)
    {
      lpn := new FeedQueue();
      lpr := new FeedQueue();
      lfq := new FeedQueue();
      lfio := new FeedQueue();
      lpl, lplEmpty, stsInEmpty := [], 0, 0;
    }

    /** The feeds are four different queues, and no semaphore announces more than its queue holds. */
    ghost predicate Valid()
      reads this, lpn, lpr, lfq, lfio
    {
      && lpn != lpr && lpn != lfq && lpn != lfio && lpr != lfq && lpr != lfio && lfq != lfio
      && lpn.empty <= |lpn.queue| && lpr.empty <= |lpr.queue|
      && lfq.empty <= |lfq.queue| && lfio.empty <= |lfio.queue|
    }

    ghost function Snap(): Snapshot<T>
      reads lpn, lpr, lfq, lfio
    {
      map[5 := Announced(lpn.queue, lpn.empty), 6 := Announced(lpr.queue, lpr.empty),
          7 := Announced(lfq.queue, lfq.empty), 8 := Announced(lfio.queue, lfio.empty)]
    }

    // one while loop of ordenarFIFO
    method Drain(feed: FeedQueue<T>)
      requires feed.empty <= |feed.queue|
      modifies this, feed
      ensures feed.empty == 0 && feed.queue == old(feed.queue)[old(feed.empty)..]
      ensures lpl == old(lpl) + old(feed.queue)[..old(feed.empty)]
      ensures lplEmpty == old(lplEmpty) + old(feed.empty)
      ensures stsInEmpty == Left(old(stsInEmpty), old(feed.empty))
    {
      ghost var taken := 0;
      ghost var queue := feed.queue;
      while feed.empty > 0
        invariant taken + feed.empty == old(feed.empty) <= |queue|
        invariant feed.queue == queue[taken..] && lpl == old(lpl) + queue[..taken]
        invariant lplEmpty == old(lplEmpty) + taken
        invariant stsInEmpty == Left(old(stsInEmpty), taken)
        decreases feed.empty
      {
        MoveFirst(feed);
        taken := taken + 1;
        assert queue[..taken] == queue[..taken - 1] + [queue[taken - 1]];
      }
    }

    method MoveFirst(feed: FeedQueue<T>)
      requires 0 < feed.empty && feed.queue != []
      modifies this, feed
      ensures feed.empty == old(feed.empty) - 1 && feed.queue == old(feed.queue)[1..]
      ensures lpl == old(lpl) + [old(feed.queue)[0]] && lplEmpty == old(lplEmpty) + 1
      ensures stsInEmpty == Left(old(stsInEmpty), 1)
    {
      feed.empty := feed.empty - 1;
      if stsInEmpty > 0 {
        stsInEmpty := stsInEmpty - 1;
      }
      var processImg := feed.queue[0];
      feed.queue := feed.queue[1..];
      lpl := lpl + [processImg];
      lplEmpty := lplEmpty + 1;
    }

    /** ordenarFIFO with nothing arriving meanwhile. */
    method OrdenarFifo(queuesArray: array<Feed>)
      requires Valid() && queuesArray.Length == 4
      requires DistinctNames(Names(queuesArray[..]))
      modifies this, lpn, lpr, lfq, lfio
      ensures Valid() && queuesArray[..] == old(queuesArray[..])
      ensures lpl == old(lpl) + Batches(old(Snap()), Names(queuesArray[..]))
      ensures Snap() == Drained(old(Snap()), Names(queuesArray[..]))
      ensures lplEmpty - old(lplEmpty) == |lpl| - |old(lpl)|
      ensures stsInEmpty == Left(old(stsInEmpty), lplEmpty - old(lplEmpty))
    {
      hide Drained, Batches, Batch, StrSwitch, DistinctNames;
      ghost var names := Names(queuesArray[..]);
      ghost var feeds := Snap();
      NoneDrained(feeds, names);
      for i := 0 to 4
        invariant Valid() && queuesArray[..] == old(queuesArray[..])
        invariant lpl == old(lpl) + Batches(feeds, names[..i])
        invariant Snap() == Drained(feeds, names[..i])
        invariant lplEmpty - old(lplEmpty) == |lpl| - |old(lpl)| >= 0
        invariant stsInEmpty == Left(old(stsInEmpty), lplEmpty - old(lplEmpty))
      {
        BatchesSnoc(feeds, names, i);
        DrainedSnoc(feeds, names, i);
        DrainNamed(queuesArray[i].name);
      }
      assert names[..4] == names;
    }

    // the switch of ordenarFIFO
    method DrainNamed(name: string)
      requires Valid()
      modifies this, lpn, lpr, lfq, lfio
      ensures Valid() && lpl == old(lpl) + Batch(old(Snap()), StrSwitch(name))
      ensures var code := StrSwitch(name);
              Snap() == if code in old(Snap()) then old(Snap())[code := After(old(Snap())[code], true)] else old(Snap())
      ensures lplEmpty - old(lplEmpty) == |lpl| - |old(lpl)| >= 0
      ensures stsInEmpty == Left(old(stsInEmpty), lplEmpty - old(lplEmpty))
    {
      hide StrSwitch;
      var code := StrSwitch(name);
      match code
      case 5 => Drain(lpn);
      case 6 => Drain(lpr);
      case 7 => Drain(lfq);
      case 8 => Drain(lfio);
      case _ =>
    }
  }

  lemma NoneDrained<T>(feeds: Snapshot<T>, names: seq<string>)
    ensures Drained(feeds, names[..0]) == feeds && Batches(feeds, names[..0]) == []
  {
  }

  lemma CodesDiffer(names: seq<string>, i: nat)
    requires DistinctNames(names) && i < |names|
    ensures StrSwitch(names[i]) != -1 ==> !Named(names[..i], StrSwitch(names[i]))
    ensures forall code :: Named(names[..i + 1], code) <==> Named(names[..i], code) || StrSwitch(names[i]) == code
  {
    assert names[..i + 1][i] == names[i];
    forall code | Named(names[..i], code) ensures Named(names[..i + 1], code) {
      var j :| 0 <= j < i && StrSwitch(names[..i][j]) == code;
      assert names[..i + 1][j] == names[j];
    }
  }

  lemma DrainedSnoc<T>(feeds: Snapshot<T>, names: seq<string>, i: nat)
    requires DistinctNames(names) && i < |names| && -1 !in feeds
    ensures var code := StrSwitch(names[i]); var so := Drained(feeds, names[..i]);
            Drained(feeds, names[..i + 1]) == if code in feeds then so[code := After(feeds[code], true)] else so
    ensures var code := StrSwitch(names[i]); var so := Drained(feeds, names[..i]);
            so.Keys == feeds.Keys && (code in feeds ==> so[code] == feeds[code])
              && Batch(so, code) == Batch(feeds, code)
  {
    CodesDiffer(names, i);
  }

  lemma {:induction false} BatchesSnoc<T>(feeds: Snapshot<T>, names: seq<string>, i: nat)
    requires i < |names|
    ensures Batches(feeds, names[..i + 1]) == Batches(feeds, names[..i]) + Batch(feeds, StrSwitch(names[i]))
  {
    if i > 0 {
      BatchesSnoc(feeds, names[1..], i - 1);
      assert names[..i + 1][1..] == names[1..][..i] && names[..i][1..] == names[1..][..i - 1];
    } else {
      assert names[..1] == [names[0]] && names[..0] == [];
    }
  }

  function QueueOf<T>(feeds: Snapshot<T>, name: string): seq<T> {
    if StrSwitch(name) in feeds then feeds[StrSwitch(name)].queue else []
  }

  /**
   * When every semaphore announces its whole queue and the array names the four feeds, a pass
   * moves all four queues, one after another in array order, and leaves every feed empty.
   */
  lemma PassMovesEverything<T>(feeds: Snapshot<T>, names: seq<string>)
    requires feeds.Keys == {5, 6, 7, 8} && |names| == 4
    requires forall code :: code in feeds ==> feeds[code].empty == |feeds[code].queue| && Named(names, code)
    ensures Batches(feeds, names)
            == QueueOf(feeds, names[0]) + QueueOf(feeds, names[1]) + QueueOf(feeds, names[2]) + QueueOf(feeds, names[3])
    ensures forall code :: code in feeds ==> Drained(feeds, names)[code] == Announced([], 0)
  {
    hide Batches, Batch, QueueOf, Named;
    FourBatches(feeds, names);
    WholeBatch(feeds, names[0]);
    WholeBatch(feeds, names[1]);
    WholeBatch(feeds, names[2]);
    WholeBatch(feeds, names[3]);
  }

  lemma WholeBatch<T>(feeds: Snapshot<T>, name: string)
    requires StrSwitch(name) in feeds ==> feeds[StrSwitch(name)].empty == |feeds[StrSwitch(name)].queue|
    ensures Batch(feeds, StrSwitch(name)) == QueueOf(feeds, name)
  {
  }

  lemma FourBatches<T>(feeds: Snapshot<T>, names: seq<string>)
    requires |names| == 4
    ensures Batches(feeds, names)
            == Batch(feeds, StrSwitch(names[0])) + Batch(feeds, StrSwitch(names[1]))
               + Batch(feeds, StrSwitch(names[2])) + Batch(feeds, StrSwitch(names[3]))
  {
    hide StrSwitch, Batch;
    NoneDrained(feeds, names);
    BatchesSnoc(feeds, names, 0);
    BatchesSnoc(feeds, names, 1);
    BatchesSnoc(feeds, names, 2);
    BatchesSnoc(feeds, names, 3);
    assert names[..4] == names;
  }

  /** Which queue each configured name stands for. */
  lemma NamesOfFeeds<T>(feeds: Snapshot<T>)
    requires feeds.Keys == {5, 6, 7, 8}
    ensures QueueOf(feeds, "PLPN") == feeds[5].queue && QueueOf(feeds, "PLPR") == feeds[6].queue
    ensures QueueOf(feeds, "PLFQ") == feeds[7].queue && QueueOf(feeds, "PLFIO") == feeds[8].queue
  {
    assert StrSwitch("PLPN") == 5 && StrSwitch("PLPR") == 6 && StrSwitch("PLFQ") == 7 && StrSwitch("PLFIO") == 8;
  }
}
