/** Exactly which configurations let PRI and SPN lose a process, or pop an empty ready list. */
module OrderedLosses {
  import opened Options
  import opened Scheduler
  import opened Conservation
  import opened Tokens
  import opened Runs
  import opened Traces
  import Losses
  import opened Sorting
  import opened SortMerge
  import opened Ordered
  import opened OrderedRuns

  // ----- going on from a reached state

  lemma After(c: Config, keys: Keys, o: Whole, a: Action, q: Whole)
    requires ConfigOk(c) && Reached(c, keys, o) && CanDo(c, o, a) && Do(c, keys, o, a) == Some(q)
    ensures Reached(c, keys, q)
  {
    hide Do, CanDo, ConfigOk;
    var n: nat :| ReachedIn(c, keys, o, n);
    assert ReachedIn(c, keys, q, n + 1);
  }

  /** Steps that do not depend on the algorithm are steps here too. */
  lemma {:induction false} AfterSteps(c: Config, keys: Keys, o: Whole, t: State, n: nat)
    requires ConfigOk(c) && Reached(c, keys, o) && LeadsIn(c, o.base, t, n)
    ensures Reached(c, keys, o.(base := t))
    decreases n
  {
    hide Apply, Enabled, ConfigOk, Reached;
    if n == 0 {
      assert o.(base := t) == o;
    } else {
      var r, step :| LeadsIn(c, o.base, r, n - 1) && Common(c, r, step) && Apply(c, r, step) == Some(t);
      AfterSteps(c, keys, o, r, n - 1);
      After(c, keys, o.(base := r), Plain(step), o.(base := t));
    }
  }

  lemma AfterCommon(c: Config, keys: Keys, o: Whole, t: State) returns (q: Whole)
    requires ConfigOk(c) && Reached(c, keys, o) && Leads(c, o.base, t)
    ensures Reached(c, keys, q) && q == o.(base := t)
  {
    hide LeadsIn, Reached, ConfigOk;
    var n: nat :| LeadsIn(c, o.base, t, n);
    AfterSteps(c, keys, o, t, n);
    q := o.(base := t);
  }

  lemma GathersNew(c: Config, keys: Keys, o: Whole, k: nat) returns (q: Whole)
    requires ConfigOk(c) && Reached(c, keys, o) && k < 4 && c.order[k] == PLPN
    requires var s := o.base; s.sts == SPop(k) && |s.feeds.pn| == 1 && !FeedHeld(s, PLPN)
    ensures Reached(c, keys, q)
    ensures q == o.(base := o.base.(feeds := o.base.feeds.(pn := []), sts := STry(k)), work := o.work + o.base.feeds.pn)
  {
    hide Reached;
    var s := o.base;
    assert s.feeds.pn[1..] == [] && s.feeds.pn == [s.feeds.pn[0]];
    q := o.(base := s.(feeds := s.feeds.(pn := []), sts := STry(k)), work := o.work + s.feeds.pn);
    After(c, keys, o, Plain(StsGoesOn), q);
  }

  /** The rest of a pass that finds nothing more, up to and including the merge. */
  lemma EndsPass(c: Config, keys: Keys, o: Whole, i: nat) returns (q: Whole)
    requires ConfigOk(c) && Reached(c, keys, o) && o.base.sts == STry(i) && i <= 4
    requires forall j :: i <= j < 4 ==> o.base.sem.feed.Get(c.order[j]) == 0
    ensures Reached(c, keys, q) && q == MergeStep(keys, o)
  {
    hide Reached, Leads, ConfigOk, Merged, SemaphoreAfter;
    Stays(c, o.base);
    var t := Skips(c, o.base, o.base, i, 4);
    var r := AfterCommon(c, keys, o, t);
    q := MergeStep(keys, o);
    After(c, keys, r, Merge, q);
  }

  lemma BeginIsReached(c: Config, keys: Keys)
    requires ConfigOk(c)
    ensures Reached(c, keys, Begin(c))
  {
    assert ReachedIn(c, keys, Begin(c), 0);
  }

  // ----- room for two: a pass with nothing to take over two ready processes

  /** The first process of all is in the working list. */
  lemma FirstGathered(c: Config, keys: Keys) returns (p: Proc, k: nat, o: Whole)
    requires ConfigOk(c) && c.mps > 0 && c.mmp > 0
    ensures Reached(c, keys, o) && IsNewFeed(c, k) && p == Proc(0, 11)
    ensures var s := Start(c);
            o == Whole(s.(sem := s.sem.(mps := c.mps - 1, mmp := c.mmp - 1), sts := STry(k), net := o.base.net), [p], 0)
    ensures o.base.net.live == map[0 := 11] && !Alive(o.base, 1)
  {
    hide Reached, Leads;
    BeginIsReached(c, keys);
    var t;
    p, k, t := FirstProcessMatched(c);
    o := AfterCommon(c, keys, Begin(c), t);
    o := GathersNew(c, keys, o, k);
  }

  /** Two processes are ready, and STS is about to wake with nothing to take. */
  lemma TwoReady(c: Config, keys: Keys) returns (o: Whole)
    requires ConfigOk(c) && c.mps >= 2 && c.mmp >= 2
    ensures Reached(c, keys, o) && |o.base.lpl| == 2
    ensures var s := Start(c);
            o == Whole(s.(sem := s.sem.(mps := c.mps - 2, mmp := c.mmp - 2, stsIn := 1, lpl := 2), lpl := o.base.lpl,
                          net := o.base.net), [], 1)
    ensures IsLive(o.base, Proc(0, 11))
  {
    hide Reached, Leads, Merged, SemaphoreAfter;
    var p, k, q, t;
    p, k, o := FirstGathered(c, keys);
    Stays(c, o.base);
    q, t := UnmatchedProcess(c, o.base, o.base, k, 1);
    o := AfterCommon(c, keys, o, t);
    o := GathersNew(c, keys, o, k);
    var work := o.work;
    MergeIntoEmpty(work, KeysOf(keys, 0));
    o := EndsPass(c, keys, o, k);
  }

  lemma MergeIntoEmpty(work: seq<Proc>, key: Proc -> real)
    ensures |Merged([], work, 0, key)| == |work| == SemaphoreAfter<Proc>([], work, 0)
    ensures |work| == 1 ==> Merged([], work, 0, key) == work
  {
    assert Gathered([], work, 0) == work;
    SortLength(work, key);
    if |work| == 1 {
      assert work[1..] == [] && work == [work[0]] && StableSort(work, key) == work;
    }
  }

  lemma MergeOfNothing(ready: seq<Proc>, sem: nat, key: Proc -> real)
    requires |ready| <= sem + 1
    ensures Merged(ready, [], sem, key) == []
  {
  }

  /** Such a pass leaves the ready list empty, also when the dispatcher has taken a token. */
  lemma StarvedPass(c: Config, keys: Keys, o: Whole) returns (q: Whole)
    requires ConfigOk(c) && Reached(c, keys, o) && o.base.sts == SWait && o.base.sem.stsIn > 0 && o.work == []
    requires o.base.sem.feed == Four(0, 0, 0, 0) && |o.base.lpl| <= o.base.sem.lpl + 1
    ensures Reached(c, keys, q) && q.work == []
    ensures q.base == o.base.(lpl := [], sem := o.base.sem.(lpl := q.base.sem.lpl),
                              dropped := o.base.dropped + o.base.lpl)
  {
    hide Reached, Leads, Merged, SemaphoreAfter;
    Stays(c, o.base);
    var t := Wakes(c, o.base, o.base);
    q := AfterCommon(c, keys, o, t);
    MergeOfNothing(o.base.lpl, o.base.sem.lpl, KeysOf(keys, o.merges));
    assert o.base.lpl[..|o.base.lpl|] == o.base.lpl;
    q := EndsPass(c, keys, q, 0);
  }

  lemma PassDropsTwo(c: Config, keys: Keys) returns (o: Whole, p: Proc)
    requires ConfigOk(c) && c.mps >= 2 && c.mmp >= 2
    ensures Reached(c, keys, o) && IsLive(o.base, p) && Places(o, p) == 0
  {
    hide Reached, InWorkers;
    o := TwoReady(c, keys);
    p := Proc(0, 11);
    o := StarvedPass(c, keys, o);
    NobodyCarried(o.base.workers, p);
  }

  lemma DispatcherPopsNothing(c: Config, keys: Keys) returns (o: Whole)
    requires ConfigOk(c) && c.mps >= 2 && c.mmp >= 2
    ensures Reached(c, keys, o) && CanDo(c, o, Plain(CpuGoesOn)) && Do(c, keys, o, Plain(CpuGoesOn)) == None
  {
    hide Reached, ConfigOk;
    o := TwoReady(c, keys);
    var s := o.base;
    var q := o.(base := s.(sem := s.sem.(lpl := s.sem.lpl - 1), cpu := PToken));
    After(c, keys, o, Plain(CpuGoesOn), q);
    o := StarvedPass(c, keys, q);
  }

  // ----- a negative quantum, with room for one

  lemma FirstProcessLost(c: Config, keys: Keys) returns (o: Whole, p: Proc)
    requires ConfigOk(c) && c.quantum < 0 && c.mps > 0 && c.mmp > 0
    ensures Reached(c, keys, o) && IsLive(o.base, p) && o.base.dropped == [p]
  {
    hide Reached, Leads, Merged, SemaphoreAfter;
    var k;
    p, k, o := FirstGathered(c, keys);
    MergeIntoEmpty([p], KeysOf(keys, 0));
    o := EndsPass(c, keys, o, k);
    Stays(c, o.base);
    var t := Dispatches(c, o.base, o.base);
    t := Loses(c, o.base, t);
    o := AfterCommon(c, keys, o, t);
  }

  // ----- the two exact conditions

  /** In every state of every run every live process is in exactly one place, and nothing else is anywhere. */
  ghost predicate AlwaysConserved(c: Config, keys: Keys)
    requires ConfigOk(c)
  {
    forall o, p :: Reached(c, keys, o) ==> Places(o, p) == if IsLive(o.base, p) then 1 else 0
  }

  /** No run pops an empty queue or searches an empty list. */
  ghost predicate NeverCrashes(c: Config, keys: Keys)
    requires ConfigOk(c)
  {
    forall o, a :: Reached(c, keys, o) && CanDo(c, o, a) ==> Do(c, keys, o, a).Some?
  }

  lemma ReachedOneAtATime(c: Config, keys: Keys, o: Whole)
    requires ConfigOk(c) && RoomForOne(c) && Reached(c, keys, o)
    ensures OneAtATime(c, o)
  {
    hide ReachedIn, OneAtATime, ConfigOk, RoomForOne;
    var n: nat :| ReachedIn(c, keys, o, n);
    ReachedKeeps(c, keys, o, n);
  }

  lemma OnePlaceEach(c: Config, keys: Keys, o: Whole, p: Proc)
    requires ConfigOk(c) && RoomForOne(c) && Reached(c, keys, o)
    ensures Places(o, p) == if IsLive(o.base, p) && p !in o.base.dropped then 1 else 0
    ensures c.quantum >= 0 || c.mps == 0 || c.mmp == 0 ==> o.base.dropped == []
  {
    hide *;
    ReachedOneAtATime(c, keys, o);
    Unfolded(c, o);
    PlacesAsFifo(o, p);
    LiveProcessHasOnePlace(c, AsFifo(o), p);
    if c.quantum >= 0 || c.mps == 0 || c.mmp == 0 {
      Losses.NothingDropped(c, AsFifo(o));
    }
  }

  /**
   * Under PRI or SPN, whatever the keys, every live process is in exactly one place in every state of
   * every run, if and only if the quantum is not negative and there is room for one process at most
   * (or for none at all).
   */
  lemma ConservedExactlyWhen(c: Config, keys: Keys)
    requires ConfigOk(c)
    ensures AlwaysConserved(c, keys)
            <==> c.mps == 0 || c.mmp == 0 || (c.quantum >= 0 && (c.mps < 2 || c.mmp < 2))
  {
    hide Reached, Places, IsLive, ConfigOk;
    if !RoomForOne(c) {
      var o, p := PassDropsTwo(c, keys);
    } else if c.quantum < 0 && c.mps > 0 && c.mmp > 0 {
      var o, p := FirstProcessLost(c, keys);
      OnePlaceEach(c, keys, o, p);
    } else {
      forall o, p | Reached(c, keys, o) ensures Places(o, p) == if IsLive(o.base, p) then 1 else 0 {
        OnePlaceEach(c, keys, o, p);
      }
    }
  }

  /**
   * Some run crashes, if and only if there is room for two processes; and a crash is the dispatcher
   * popping an empty ready list, never a pop or a search by any other thread.
   */
  lemma CrashesExactlyWhen(c: Config, keys: Keys)
    requires ConfigOk(c)
    ensures NeverCrashes(c, keys) <==> c.mps < 2 || c.mmp < 2
    ensures forall o, a | Reached(c, keys, o) && CanDo(c, o, a) ::
              Do(c, keys, o, a).None? <==> a == Plain(CpuGoesOn) && o.base.cpu == PToken && o.base.lpl == []
  {
    hide Reached, CanDo, Do, ConfigOk, OneAtATime;
    forall o, a | Reached(c, keys, o) && CanDo(c, o, a)
      ensures Do(c, keys, o, a).None? <==> a == Plain(CpuGoesOn) && o.base.cpu == PToken && o.base.lpl == []
    {
      OnlyDispatcherCrashes(c, keys, o, a);
    }
    if RoomForOne(c) {
      forall o, a | Reached(c, keys, o) && CanDo(c, o, a) ensures Do(c, keys, o, a).Some? {
        ReachedOneAtATime(c, keys, o);
        ActionKeeps(c, keys, o, a);
      }
    } else {
      var o := DispatcherPopsNothing(c, keys);
    }
  }

  /**
   * Unlike FIFO, which needs room for one only: STS can be about to wake with nothing to take, if and
   * only if there is room for two.
   */
  lemma WakesForNothingExactlyWhen(c: Config, keys: Keys)
    requires ConfigOk(c)
    ensures (exists o :: Reached(c, keys, o) && o.base.sts == SWait && o.base.sem.stsIn > 0 && FeedTokens(o.base) == 0)
            <==> c.mps >= 2 && c.mmp >= 2
  {
    hide Reached, ConfigOk, OneAtATime;
    if RoomForOne(c) {
      forall o | Reached(c, keys, o) && o.base.sts == SWait && o.base.sem.stsIn > 0 ensures FeedTokens(o.base) > 0 {
        ReachedOneAtATime(c, keys, o);
        Unfolded(c, o);
        CountsOf(c, o);
      }
    } else {
      var o := TwoReady(c, keys);
    }
  }
}
