/** All runs under PRI or SPN, whatever the room: nothing but the order of the ready list is different. */
module OrderedRuns {
  import opened Options
  import opened Scheduler
  import opened Conservation
  import opened Tokens
  import opened Protocol
  import opened Isolation
  import opened Runs
  import opened Sorting
  import opened SortMerge
  import opened Ordered

  ghost predicate Kept(c: Config, s: State)
    requires ConfigOk(c)
  {
    SharedInv(c, s) && AllSettled(s)
  }

  /** Where STS can stand, and with what in hand. */
  predicate StsPlace(o: Whole) {
    && !o.base.sts.SHand? && !o.base.sts.SPushed?
    && (o.base.sts == SWait || o.base.sts == SBorrowed ==> o.work == [])
  }

  /** The ready list is in the order of the last merge. */
  predicate ReadySorted(keys: Keys, o: Whole) {
    if o.merges == 0 then o.base.lpl == [] else Sorted(o.base.lpl, KeysOf(keys, o.merges - 1))
  }

  ghost predicate OrderedInv(c: Config, keys: Keys, o: Whole)
    requires ConfigOk(c)
  {
    Kept(c, AsFifo(o)) && StsPlace(o) && ReadySorted(keys, o)
  }

  lemma FifoStepKeeps(c: Config, s: State, step: Step, t: State)
    requires ConfigOk(c) && Kept(c, s) && Enabled(c, s, step) && Apply(c, s, step) == Some(t)
    ensures Kept(c, t)
  {
    hide OnePlace, ProtocolOk, Counted, AllSettled, Apply, Enabled;
    StepKeepsShared(c, s, step, t);
    StepSettles(c, s, step, t);
  }

  // ----- a step of any thread but a pop by STS

  /** Only the dispatcher touches the ready list, and only STS moves STS. */
  lemma PlainEffect(c: Config, o: Whole, step: Step, t: State)
    requires ConfigOk(c) && CanDo(c, o, Plain(step)) && Apply(c, o.base, step) == Some(t) && StsPlace(o)
    requires step == StsGoesOn ==> !o.base.sts.SPop?
    ensures StsPlace(o.(base := t))
    ensures t.lpl == o.base.lpl || (o.base.lpl != [] && t.lpl == o.base.lpl[1..])
    ensures step == CpuGoesOn && o.base.cpu == PToken ==>
              o.base.lpl != [] && t.lpl == o.base.lpl[1..] && t.cpu == PRun(o.base.lpl[0])
  {
    hide ConfigOk, ConnStep, LateStep, WorkerStep;
    match step
    case ConnGoesOn => ConnEffect(o.base, t);
    case LateGoesOn => LateEffect(o.base, t);
    case WorkerGoesOn(w) => WorkerEffect(o.base, w, t);
    case _ =>
  }

  predicate SameReady(s: State, t: State) {
    t.lpl == s.lpl && t.sts == s.sts
  }

  lemma ConnEffect(s: State, t: State)
    requires s.conn != CIdle && ConnStep(s) == Some(t)
    ensures SameReady(s, t)
  {
  }

  lemma LateEffect(s: State, t: State)
    requires (s.late == LWait ==> s.sem.fifo > 0) && (s.late == LToken ==> s.sem.mmp > 0) && LateStep(s) == Some(t)
    ensures SameReady(s, t)
  {
  }

  lemma WorkerEffect(s: State, w: nat, t: State)
    requires w < |s.workers|
    requires (s.workers[w] == WWait ==> s.sem.lpb > 0) && (s.workers[w] == WToken ==> s.sem.ioFree > 0)
    requires WorkerStep(s, w) == Some(t)
    ensures SameReady(s, t)
  {
  }

  /** The same step of the FIFO system. */
  lemma PlainAsFifo(c: Config, o: Whole, step: Step)
    requires ConfigOk(c) && CanDo(c, o, Plain(step)) && StsPlace(o)
    requires step == CpuGoesOn && o.base.cpu == PToken ==> o.base.lpl != []
    ensures SameWith(c, o.base, step, o.work)
  {
    hide SameWith, ConfigOk, Enabled;
    if step == StsGoesOn {
      StsWith(c, o.base, o.work);
    } else {
      OtherStepWith(c, o.base, step, o.work);
    }
  }

  lemma PlainKeeps(c: Config, keys: Keys, o: Whole, step: Step, q: Whole)
    requires ConfigOk(c) && OrderedInv(c, keys, o) && CanDo(c, o, Plain(step))
    requires Do(c, keys, o, Plain(step)) == Some(q) && (step == StsGoesOn ==> !o.base.sts.SPop?)
    ensures OrderedInv(c, keys, q)
  {
    hide Apply, Enabled, ConfigOk, Kept, StsPlace, Sorted;
    PlainEffect(c, o, step, q.base);
    PlainAsFifo(c, o, step);
    FifoStepKeeps(c, AsFifo(o), step, AsFifo(q));
    if o.base.lpl != [] && o.merges > 0 {
      TailSorted(o.base.lpl, KeysOf(keys, o.merges - 1));
    }
  }

  // ----- a pop by STS: FIFO's pop, push and post

  lemma PushKeeps(c: Config, s: State)
    requires ConfigOk(c) && Kept(c, s) && s.sts.SHand?
    ensures Kept(c, s.(lpl := s.lpl + [s.sts.p], sem := s.sem.(lpl := s.sem.lpl + 1), sts := STry(s.sts.i)))
  {
    hide Kept, ConfigOk;
    var a := s.(lpl := s.lpl + [s.sts.p], sts := SPushed(s.sts.i));
    FifoStepKeeps(c, s, StsGoesOn, a);
    FifoStepKeeps(c, a, StsGoesOn, a.(sem := a.sem.(lpl := a.sem.lpl + 1), sts := STry(s.sts.i)));
  }

  lemma PopEffect(c: Config, keys: Keys, o: Whole, q: Whole)
    requires ConfigOk(c) && o.base.sts.SPop? && CanDo(c, o, Plain(StsGoesOn))
    requires Do(c, keys, o, Plain(StsGoesOn)) == Some(q)
    ensures q.base.lpl == o.base.lpl && q.merges == o.merges && q.base.dropped == o.base.dropped && StsPlace(q)
  {
  }

  /** STS takes a process into its working list. */
  lemma PopKeeps(c: Config, keys: Keys, o: Whole, q: Whole)
    requires ConfigOk(c) && OrderedInv(c, keys, o) && o.base.sts.SPop? && CanDo(c, o, Plain(StsGoesOn))
    requires Do(c, keys, o, Plain(StsGoesOn)) == Some(q)
    ensures OrderedInv(c, keys, q)
  {
    hide Apply, Enabled, ConfigOk, Kept, StsPlace, Sorted, Gather, Plus;
    PopEffect(c, keys, o, q);
    PlainAsFifo(c, o, StsGoesOn);
    GatherAsFifo(c, keys, o);
    var t := Plus(Apply(c, o.base, StsGoesOn).value, o.work);
    FifoStepKeeps(c, AsFifo(o), StsGoesOn, t);
    PushKeeps(c, t);
  }

  // ----- a merge

  lemma MergedIn(o: Whole, key: Proc -> real, p: Proc)
    ensures In(o.base.lpl + o.work, p) == In(Merged(o.base.lpl, o.work, o.base.sem.lpl, key), p) + In(LetGo(o), p)
  {
    var m := SortMerge.Taken(|o.base.lpl|, o.base.sem.lpl);
    if o.work == [] {
      assert o.base.lpl + o.work == o.base.lpl[..m] + o.base.lpl[m..];
    } else {
      MergeKeepsEveryProcess(o.base.lpl, o.work, o.base.sem.lpl, key);
    }
  }

  lemma DroppedMore(a: seq<Proc>, b: seq<Proc>, p: Proc)
    ensures In(a + b, p) == In(a, p) + In(b, p)
  {
  }

  lemma MergeKeepsPlaces(keys: Keys, o: Whole)
    requires OnePlace(AsFifo(o)) && StsPlace(o) && AtMerge(o.base.sts)
    ensures OnePlace(AsFifo(MergeStep(keys, o)))
  {
    var s, t, key := AsFifo(o), AsFifo(MergeStep(keys, o)), KeysOf(keys, o.merges);
    hide InRequests, InWorkers, In, Merged, SemaphoreAfter, LetGo;
    forall p ensures Copies(t, p) + In(t.dropped, p) == if IsLive(t, p) then 1 else 0 {
      HeldOnce(s, p);
      MergedIn(o, key, p);
      DroppedMore(s.dropped, LetGo(o), p);
      assert t.lpl == Merged(o.base.lpl, o.work, o.base.sem.lpl, key);
    }
  }

  lemma MergeSizes(keys: Keys, o: Whole)
    requires |o.base.lpl| <= o.base.sem.lpl + 1
    ensures var t := MergeStep(keys, o).base;
            && |t.lpl| + |LetGo(o)| == |o.base.lpl| + |o.work| && |t.lpl| <= t.sem.lpl
            && t.lpl == StableSort(Gathered(o.base.lpl, o.work, o.base.sem.lpl), KeysOf(keys, o.merges))
  {
    SortLength(Gathered(o.base.lpl, o.work, o.base.sem.lpl), KeysOf(keys, o.merges));
  }

  lemma MergeKeepsCounts(c: Config, keys: Keys, o: Whole)
    requires ConfigOk(c) && Counted(c, AsFifo(o)) && StsPlace(o) && AtMerge(o.base.sts)
    requires |o.base.lpl| <= o.base.sem.lpl + 1
    ensures Counted(c, AsFifo(MergeStep(keys, o)))
  {
    hide OfConn, OfLate, OfCpu, OfWorkers, Owning, ConfigOk, Merged, SemaphoreAfter, LetGo;
    MergeSizes(keys, o);
  }

  // at most one token is in the dispatcher's hand
  lemma AlmostPosted(c: Config, o: Whole)
    requires ConfigOk(c) && Agreement(c, AsFifo(o)) && StsPlace(o)
    ensures |o.base.lpl| <= o.base.sem.lpl + (if o.base.cpu == PToken then 1 else 0)
  {
    hide OfConn, OfLate, OfWorkers;
  }

  lemma MergeKeepsProtocol(keys: Keys, o: Whole)
    requires ProtocolOk(AsFifo(o)) && AllSettled(AsFifo(o))
    ensures ProtocolOk(AsFifo(MergeStep(keys, o))) && AllSettled(AsFifo(MergeStep(keys, o)))
  {
    hide ProtocolOk, Settled, Merged, SemaphoreAfter;
    var s, t := AsFifo(o), AsFifo(MergeStep(keys, o));
    SameKeepsProtocol(s, t);
    forall fd ensures Settled(t, fd) {
      assert Settled(s, fd);
      SameMessagesSettle(s, t, fd);
    }
  }

  /** The merge; what it lets go of is on record. */
  lemma MergeKeepsAll(c: Config, keys: Keys, o: Whole)
    requires ConfigOk(c) && OrderedInv(c, keys, o) && CanDo(c, o, Merge)
    ensures OrderedInv(c, keys, MergeStep(keys, o))
  {
    hide OnePlace, ProtocolOk, Agreement, MmpBalance, MpsBalance, Wakeable, Pool, AllSettled, AsFifo, Merged, Sorted,
         SemaphoreAfter, LetGo, StableSort;
    AlmostPosted(c, o);
    MergeKeepsPlaces(keys, o);
    MergeKeepsProtocol(keys, o);
    MergeKeepsCounts(c, keys, o);
    MergeSizes(keys, o);
    StableSortSorts(Gathered(o.base.lpl, o.work, o.base.sem.lpl), KeysOf(keys, o.merges));
  }

  // ----- all runs

  lemma ActionKeepsShared(c: Config, keys: Keys, o: Whole, a: Action, q: Whole)
    requires ConfigOk(c) && OrderedInv(c, keys, o) && CanDo(c, o, a) && Do(c, keys, o, a) == Some(q)
    ensures OrderedInv(c, keys, q)
  {
    hide OrderedInv, ConfigOk, Apply, Enabled;
    match a
    case Merge => MergeKeepsAll(c, keys, o);
    case Plain(step) =>
      if step == StsGoesOn && o.base.sts.SPop? {
        PopKeeps(c, keys, o, q);
      } else {
        PlainKeeps(c, keys, o, step, q);
      }
  }

  lemma BeginKept(c: Config, keys: Keys)
    requires ConfigOk(c)
    ensures OrderedInv(c, keys, Begin(c))
  {
    hide Inv, SharedInv, Settled, ConfigOk;
    assert AsFifo(Begin(c)) == Start(c);
    EveryRunIsSafe(c, []);
    InvIsShared(c, Start(c));
    forall fd ensures Settled(Start(c), fd) {
      NothingWaits(c, fd);
    }
  }

  lemma {:induction false} ReachedInv(c: Config, keys: Keys, o: Whole, n: nat)
    requires ConfigOk(c) && ReachedIn(c, keys, o, n)
    ensures OrderedInv(c, keys, o)
    decreases n
  {
    hide OrderedInv, Do, CanDo, ConfigOk;
    if n == 0 {
      BeginKept(c, keys);
    } else {
      var q, a :| ReachedIn(c, keys, q, n - 1) && CanDo(c, q, a) && Do(c, keys, q, a) == Some(o);
      ReachedInv(c, keys, q, n - 1);
      ActionKeepsShared(c, keys, q, a, o);
    }
  }

  lemma ReachedKept(c: Config, keys: Keys, o: Whole)
    requires ConfigOk(c) && Reached(c, keys, o)
    ensures OrderedInv(c, keys, o)
  {
    hide OrderedInv, ReachedIn, ConfigOk;
    var n: nat :| ReachedIn(c, keys, o, n);
    ReachedInv(c, keys, o, n);
  }

  // ----- what holds in every state of every run

  lemma PlacesAsFifo(o: Whole, p: Proc)
    ensures Places(o, p) == Copies(AsFifo(o), p) && IsLive(o.base, p) == IsLive(AsFifo(o), p)
    ensures AsFifo(o).dropped == o.base.dropped
  {
    hide InRequests, InWorkers;
  }

  lemma LiveOncePlaced(c: Config, keys: Keys, o: Whole, p: Proc)
    requires ConfigOk(c) && OrderedInv(c, keys, o)
    ensures Places(o, p) == if IsLive(o.base, p) && p !in o.base.dropped then 1 else 0
    ensures p in o.base.dropped ==> IsLive(o.base, p)
  {
    PlacesAsFifo(o, p);
    hide Places, Copies, ProtocolOk, Counted, AllSettled, StsPlace, ReadySorted, ConfigOk;
    HeldOnce(AsFifo(o), p);
    assert p in o.base.dropped <==> In(o.base.dropped, p) > 0;
  }

  /** The working list is part of the active processes, and of nothing else. */
  lemma CountsAsFifo(c: Config, o: Whole)
    requires ConfigOk(c)
    ensures var s := AsFifo(o);
            && Active(c, s) == Active(c, o.base) + |o.work| && InSystem(c, s) == InSystem(c, o.base) + |o.work|
            && FeedTokens(s) == FeedTokens(o.base) && HalfPosts(s) == HalfPosts(o.base)
            && (Agreement(c, s) ==> Agreement(c, o.base))
  {
    hide OfConn, OfLate, OfSts, OfCpu, OfWorkers, Owning, ConfigOk;
  }

  lemma SharedOf(c: Config, keys: Keys, o: Whole)
    requires ConfigOk(c) && OrderedInv(c, keys, o)
    ensures SharedInv(c, AsFifo(o)) && AllSettled(AsFifo(o)) && Agreement(c, AsFifo(o))
  {
    hide OnePlace, ProtocolOk, Agreement, MmpBalance, MpsBalance, Wakeable, Pool, AllSettled, StsPlace, ReadySorted;
  }

  /** Admission, the exit test, the wake-up of STS, the pool, and queues against semaphores. */
  predicate CountsHold(c: Config, o: Whole)
    requires ConfigOk(c)
  {
    var s := o.base;
    && Agreement(c, s)
    && Active(c, s) + |o.work| + |s.dropped| <= c.mmp
    && |s.net.live| == InSystem(c, s) + |o.work| + |s.dropped| <= c.mps
    && (s.sem.mps == c.mps ==>
          && s.net.live == map[] && s.dropped == [] && o.work == [] && s.lfifo == [] && s.lpl == [] && s.lps == []
          && s.feeds == Four([], [], [], []) && !s.cpu.PRun?)
    && (s.sts == SWait && s.sem.stsIn == 0 ==> FeedTokens(s) <= HalfPosts(s))
    && (forall w :: 0 <= w < |s.workers| && s.workers[w] == WToken ==> s.sem.ioFree > 0)
  }

  lemma CountsHoldOf(c: Config, keys: Keys, o: Whole)
    requires ConfigOk(c) && OrderedInv(c, keys, o)
    ensures CountsHold(c, o)
  {
    var s := AsFifo(o);
    hide Active, InSystem, FeedTokens, HalfPosts, OrderedInv, SharedInv, Agreement, ConfigOk, AllSettled;
    SharedOf(c, keys, o);
    CountsAsFifo(c, o);
    AdmissionBounds(c, s);
    if s.sem.mps == c.mps {
      ExitTestIsSafe(c, s);
      assert s.lpl == o.base.lpl + o.work;
    }
    if s.sts == SWait && s.sem.stsIn == 0 {
      StsSleepsOnlyWhenIdle(c, s);
    }
    forall w | 0 <= w < |s.workers| && s.workers[w] == WToken ensures s.sem.ioFree > 0 {
      WorkerNeverWaitsForPool(c, s, w);
    }
  }

  /**
   * Every state of every run under PRI or SPN, whatever the room and the quantum: each live process
   * that was not let go of is in exactly one place and nothing else is anywhere, a resume finds the
   * client's own process, each client's messages are in order, and what waits for a client whose
   * process has ended closes with 'T', so that the next client of the descriptor starts with none.
   * MMP and MPS are respected, a full MPS_sem means an empty server, STS never sleeps over an
   * announced item, no worker waits for the pool, and every semaphore counts its queue.
   */
  lemma EveryOrderedState(c: Config, keys: Keys, o: Whole, p: Proc, fd: nat)
    requires ConfigOk(c) && Reached(c, keys, o)
    ensures Places(o, p) == if IsLive(o.base, p) && p !in o.base.dropped then 1 else 0
    ensures p in o.base.dropped ==> IsLive(o.base, p)
    ensures o.base.conn.CRestoring? ==> FindsItsProcess(o.base, o.base.conn.fd)
    ensures InOrder(o.base) && Settled(o.base, fd)
    ensures CountsHold(c, o)
  {
    hide Places, Copies, SharedInv, For, Reached, ConfigOk, Settled, OrderedInv, CountsHold;
    ReachedKept(c, keys, o);
    LiveOncePlaced(c, keys, o, p);
    SharedOf(c, keys, o);
    RestoreFinds(c, AsFifo(o));
    SameMessagesSettle(AsFifo(o), o.base, fd);
    CountsHoldOf(c, keys, o);
  }

  /** Right after a non-blocking request was accepted, it starts without any other request having to finish. */
  lemma AcceptedRequestStartsToo(c: Config, keys: Keys, o: Whole, q: Whole)
    requires ConfigOk(c) && Reached(c, keys, o) && o.base.cpu.PCounted? && q.base.cpu.PAsked?
    requires CanDo(c, o, Plain(CpuGoesOn)) && Do(c, keys, o, Plain(CpuGoesOn)) == Some(q)
    ensures q.base.lpb == o.base.lpb + [Request(o.base.cpu.p, false)]
    ensures |q.base.lpb| + OfWorkers(Serving, q.base.workers) <= c.ioThreads == |q.base.workers|
  {
    hide Reached, ConfigOk, SharedInv, OfWorkers, OrderedInv;
    ReachedKept(c, keys, o);
    SharedOf(c, keys, o);
    CpuWith(c, o.base, o.work);
    AcceptedRequestStarts(c, AsFifo(o), AsFifo(q));
  }

  /** The dispatcher's pop of an empty ready list is the only step of any thread that can fail. */
  lemma OnlyDispatcherCrashes(c: Config, keys: Keys, o: Whole, a: Action)
    requires ConfigOk(c) && Reached(c, keys, o) && CanDo(c, o, a)
    ensures Do(c, keys, o, a).None? <==> a == Plain(CpuGoesOn) && o.base.cpu == PToken && o.base.lpl == []
  {
    hide Reached, ConfigOk, SharedInv, OrderedInv, Apply, Enabled, Gather, Plus;
    ReachedKept(c, keys, o);
    SharedOf(c, keys, o);
    match a
    case Merge =>
    case Plain(step) =>
      if step == CpuGoesOn && o.base.cpu == PToken && o.base.lpl == [] {
        PopsNothing(c, o.base);
      } else {
        StandsAnywhere(c, keys, o);
        PlainAsFifo(c, o, step);
        OnlyReadyPopFails(c, AsFifo(o), step);
        PoppedLater(o);
        if step == StsGoesOn && o.base.sts.SPop? {
          GatherAsFifo(c, keys, o);
        }
      }
  }

  lemma StandsAnywhere(c: Config, keys: Keys, o: Whole)
    requires ConfigOk(c) && OrderedInv(c, keys, o)
    ensures StsPlace(o) && ReadySorted(keys, o)
  {
    hide Kept, StsPlace, ReadySorted;
  }

  lemma PopsNothing(c: Config, s: State)
    requires ConfigOk(c) && Enabled(c, s, CpuGoesOn) && s.cpu == PToken && s.lpl == []
    ensures Apply(c, s, CpuGoesOn) == None
  {
  }

  lemma PoppedLater(o: Whole)
    ensures AsFifo(o).lpl == [] ==> o.base.lpl == []
    ensures AsFifo(o).cpu == o.base.cpu
  {
  }

  /** Whatever the run, a dispatched process has the least key of the last merge among all ready ones. */
  lemma DispatchesTheLeast(c: Config, keys: Keys, o: Whole, q: Whole, i: nat)
    requires ConfigOk(c) && Reached(c, keys, o) && o.base.cpu == PToken
    requires CanDo(c, o, Plain(CpuGoesOn)) && Do(c, keys, o, Plain(CpuGoesOn)) == Some(q) && i < |o.base.lpl|
    ensures o.merges > 0 && q.base.cpu == PRun(o.base.lpl[0]) && q.base.lpl == o.base.lpl[1..]
    ensures keys(o.merges - 1, o.base.lpl[0]) <= keys(o.merges - 1, o.base.lpl[i])
  {
    hide Reached, ConfigOk, OrderedInv, Apply, Enabled, Sorted;
    ReachedKept(c, keys, o);
    StandsAnywhere(c, keys, o);
    PlainEffect(c, o, CpuGoesOn, q.base);
    HeadIsLeast(o.base.lpl, KeysOf(keys, o.merges - 1), i);
  }

  /**
   * Exactly how a process loses its place under PRI or SPN: it runs when the dispatcher falls through
   * its four tests, or it is ready when a pass that gathered nothing merges.
   */
  lemma LosesItsPlaceExactlyWhen(c: Config, keys: Keys, o: Whole, a: Action, q: Whole, p: Proc)
    requires ConfigOk(c) && Reached(c, keys, o) && CanDo(c, o, a) && Do(c, keys, o, a) == Some(q)
    requires Places(o, p) == 1 && IsLive(q.base, p)
    ensures Places(q, p) == 0 <==>
              (a == Plain(CpuLoses) && o.base.cpu == PRun(p)) || (a == Merge && o.work == [] && p in o.base.lpl)
  {
    hide Places, Reached, ConfigOk, OrderedInv;
    ReachedKept(c, keys, o);
    ActionKeepsShared(c, keys, o, a, q);
    LiveOncePlaced(c, keys, o, p);
    LiveOncePlaced(c, keys, q, p);
    ActionDrops(c, keys, o, a, q);
  }

  lemma ActionDrops(c: Config, keys: Keys, o: Whole, a: Action, q: Whole)
    requires ConfigOk(c) && OrderedInv(c, keys, o) && CanDo(c, o, a) && Do(c, keys, o, a) == Some(q)
    ensures q.base.dropped == o.base.dropped +
              (if a == Plain(CpuLoses) then [o.base.cpu.p]
               else if a == Merge && o.work == [] then o.base.lpl else [])
  {
    hide OrderedInv, Agreement, ConfigOk, Apply, Merged, SemaphoreAfter;
    match a
    case Merge =>
      SharedOf(c, keys, o);
      StandsAnywhere(c, keys, o);
      AlmostPosted(c, o);
      assert o.base.lpl[..|o.base.lpl|] == o.base.lpl;
    case Plain(step) =>
      if !(step == StsGoesOn && o.base.sts.SPop?) {
        StepDrops(c, o.base, step, q.base);
      }
  }
}
