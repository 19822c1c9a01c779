/**
 * The same threads under PRI or SPN (PP/src/STS.c, ordenarPRI and ordenarSPN): a pass gathers what
 * the feeds announce in a working list of its own and merges it into the ready list at its end.
 */
module Ordered {
  import opened Options
  import opened Scheduler
  import opened Conservation
  import opened Tokens
  import opened Runs
  import opened Sorting
  import opened SortMerge

  /** What the `n`-th merge sorts by: the priority under PRI, the burst estimate at that time under SPN. */
  type Keys = (nat, Proc) -> real

  /** `work` is the working list of the pass; in `base`, STS is never at `SHand` or `SPushed`, and the
      record `dropped` also has what merges lose. */
  datatype Whole = Whole(base: State, work: seq<Proc>, merges: nat)

  datatype Action =
    | Plain(step: Step)
    | Merge  // the whole of orderInsertPrioList or orderInsertSPNList, which holds LPL_mutex

  function Begin(c: Config): Whole {
    Whole(Start(c), [], 0)
  }

  predicate AtMerge(sts: Sts) {
    sts.STry? && sts.i >= 4
  }

  predicate CanDo(c: Config, o: Whole, a: Action)
    requires ConfigOk(c)
  {
    match a
    case Plain(step) => Enabled(c, o.base, step) && (step == StsGoesOn ==> !AtMerge(o.base.sts))
    case Merge => AtMerge(o.base.sts)
  }

  /** Popping feed `i` puts the process into the working list. */
  function Gather(c: Config, o: Whole, i: nat): Option<Whole>
    requires ConfigOk(c)
  {
    var s := o.base;
    if i >= 4 || s.feeds.Get(c.order[i]) == [] then None
    else
      var q := s.feeds.Get(c.order[i]);
      Some(o.(base := s.(feeds := s.feeds.Set(c.order[i], q[1..]), sts := STry(i)), work := o.work + [q[0]]))
  }

  /** What a merge takes off the ready list and does not put back: inserting into an empty list does nothing. */
  function LetGo(o: Whole): seq<Proc> {
    if o.work == [] then o.base.lpl[..SortMerge.Taken(|o.base.lpl|, o.base.sem.lpl)] else []
  }

  function KeysOf(keys: Keys, n: nat): Proc -> real {
    p => keys(n, p)
  }

  function MergeStep(keys: Keys, o: Whole): Whole {
    var s, key := o.base, KeysOf(keys, o.merges);
    Whole(s.(lpl := Merged(s.lpl, o.work, s.sem.lpl, key),
             sem := s.sem.(lpl := SemaphoreAfter(s.lpl, o.work, s.sem.lpl)),
             sts := SWait, dropped := s.dropped + LetGo(o)), [], o.merges + 1)
  }

  /** `None` is a crash. */
  function Do(c: Config, keys: Keys, o: Whole, a: Action): Option<Whole>
    requires ConfigOk(c) && CanDo(c, o, a)
  {
    match a
    case Merge => Some(MergeStep(keys, o))
    case Plain(step) =>
      if step == StsGoesOn && o.base.sts.SPop? then Gather(c, o, o.base.sts.i)
      else
        match Apply(c, o.base, step)
        case None => None
        case Some(t) => Some(o.(base := t))
  }

  ghost predicate ReachedIn(c: Config, keys: Keys, o: Whole, n: nat)
    requires ConfigOk(c)
    decreases n
  {
    if n == 0 then o == Begin(c)
    else exists q, a :: ReachedIn(c, keys, q, n - 1) && CanDo(c, q, a) && Do(c, keys, q, a) == Some(o)
  }

  /** Some run leads to `o`. */
  ghost predicate Reached(c: Config, keys: Keys, o: Whole)
    requires ConfigOk(c)
  {
    exists n: nat :: ReachedIn(c, keys, o, n)
  }

  /** In how many places process `p` is. */
  function Places(o: Whole, p: Proc): nat {
    Copies(o.base, p) + In(o.work, p)
  }

  // ----- room for one: an ordered run is a FIFO run seen differently

  /** `work` counted as ready. */
  function Plus(s: State, work: seq<Proc>): State {
    s.(lpl := s.lpl + work, sem := s.sem.(lpl := s.sem.lpl + |work|))
  }

  /** The working list counted as ready: what FIFO would have done by now. */
  function AsFifo(o: Whole): State {
    Plus(o.base, o.work)
  }

  /** While STS is in a pass, what it woke for is announced, in hand or in the working list, and no
      producer is between its posts. */
  predicate PassOk(o: Whole) {
    var s := o.base;
    && !s.sts.SHand? && !s.sts.SPushed?
    && (s.sts == SWait ==> o.work == [])
    && (s.sts != SWait ==> HalfPosts(s) == 0)
    && (s.sts == SBorrowed || s.sts.SMatch? || s.sts.SPop? ==> o.work == [])
    && ((s.sts == SBorrowed || s.sts.STry?) && o.work == [] ==> FeedTokens(s) > 0)
  }

  ghost predicate OneAtATime(c: Config, o: Whole)
    requires ConfigOk(c)
  {
    && Inv(c, AsFifo(o))
    && Surplus(c, AsFifo(o)) == 0
    && PassOk(o)
  }

  predicate RoomForOne(c: Config) {
    c.mps < 2 || c.mmp < 2
  }

  // ----- a step does not care whether the working list is counted as ready

  ghost predicate SameWith(c: Config, s: State, step: Step, work: seq<Proc>)
    requires ConfigOk(c) && Enabled(c, s, step)
  {
    && Enabled(c, Plus(s, work), step)
    && Apply(c, Plus(s, work), step)
       == (match Apply(c, s, step) case None => None case Some(t) => Some(Plus(t, work)))
  }

  lemma ConnWith(c: Config, s: State, work: seq<Proc>)
    requires ConfigOk(c) && Enabled(c, s, ConnGoesOn)
    ensures SameWith(c, s, ConnGoesOn, work)
  {
    hide FindProc, Without, ConfigOk;
  }

  lemma LateWith(c: Config, s: State, work: seq<Proc>)
    requires ConfigOk(c) && Enabled(c, s, LateGoesOn)
    ensures SameWith(c, s, LateGoesOn, work)
  {
    hide ConfigOk;
  }

  lemma StsWith(c: Config, s: State, work: seq<Proc>)
    requires ConfigOk(c) && Enabled(c, s, StsGoesOn) && !s.sts.SHand? && !s.sts.SPushed?
    ensures SameWith(c, s, StsGoesOn, work)
  {
  }

  lemma CpuWith(c: Config, s: State, work: seq<Proc>)
    requires ConfigOk(c) && Enabled(c, s, CpuGoesOn) && (s.cpu == PToken ==> s.lpl != [])
    ensures SameWith(c, s, CpuGoesOn, work)
  {
    hide ConfigOk;
    if s.cpu == PToken {
      assert (s.lpl + work)[1..] == s.lpl[1..] + work;
    }
  }

  lemma WorkerWith(c: Config, s: State, w: nat, work: seq<Proc>)
    requires ConfigOk(c) && Enabled(c, s, WorkerGoesOn(w))
    ensures SameWith(c, s, WorkerGoesOn(w), work)
  {
    hide ConfigOk;
  }

  lemma ChoiceWith(c: Config, s: State, step: Step, work: seq<Proc>)
    requires ConfigOk(c) && IsChoice(step) && Enabled(c, s, step)
    ensures SameWith(c, s, step, work)
  {
    hide ConfigOk, ConnStep, LateStep, StsStep, CpuStep, WorkerStep, ConnectStep, DeliverStep, Enqueue, FindMsg;
    ClientsWith(s, work);
    if step.Deliver? {
      DeliverWith(s, step.fd, work);
    }
  }

  lemma DeliverWith(s: State, fd: nat, work: seq<Proc>)
    requires fd in s.net.clients && FindMsg(s.net.sending, fd) < |s.net.sending|
    ensures DeliverStep(Plus(s, work), fd) == Plus(DeliverStep(s, fd), work)
  {
  }

  lemma ClientsWith(s: State, work: seq<Proc>)
    ensures forall fd :: Alive(Plus(s, work), fd) == Alive(s, fd)
    ensures forall fd :: ConnectStep(Plus(s, work), fd) == Plus(ConnectStep(s, fd), work)
    ensures forall m :: Enqueue(Plus(s, work), m) == Plus(Enqueue(s, m), work)
  {
  }

  lemma OtherStepWith(c: Config, s: State, step: Step, work: seq<Proc>)
    requires ConfigOk(c) && Enabled(c, s, step) && step != StsGoesOn
    requires step == CpuGoesOn && s.cpu == PToken ==> s.lpl != []
    ensures SameWith(c, s, step, work)
  {
    hide SameWith, Enabled, ConfigOk;
    match step
    case ConnGoesOn => ConnWith(c, s, work);
    case LateGoesOn => LateWith(c, s, work);
    case CpuGoesOn => CpuWith(c, s, work);
    case WorkerGoesOn(w) => WorkerWith(c, s, w, work);
    case _ => ChoiceWith(c, s, step, work);
  }

  // ----- every step keeps it

  lemma OneActive(c: Config, s: State)
    requires ConfigOk(c) && RoomForOne(c) && Inv(c, s)
    ensures Active(c, s) <= 1 && Agreement(c, s) && ReadyAgrees(c, s)
  {
    InvIsShared(c, s);
    AdmissionBounds(c, s);
  }

  /** What stands in a feed or is ready is active, and what is announced stands in a feed. */
  lemma FeedsAndReady(c: Config, s: State)
    requires ConfigOk(c) && Agreement(c, s)
    ensures Active(c, s) >= FeedTokens(s) + (if s.sts.SMatch? || s.sts.SPop? then 1 else 0) + |s.lpl|
  {
    hide OfConn, OfLate, OfCpu, OfWorkers, Owning;
  }

  /** A state after which the FIFO system goes on as the ordered one does. */
  ghost predicate StillAsFifo(c: Config, o: Whole)
    requires ConfigOk(c)
  {
    Inv(c, AsFifo(o)) && Surplus(c, AsFifo(o)) == 0
  }

  lemma Unfolded(c: Config, o: Whole)
    requires ConfigOk(c)
    ensures OneAtATime(c, o) <==> StillAsFifo(c, o) && PassOk(o)
    ensures StillAsFifo(c, o) <==> Inv(c, AsFifo(o)) && Surplus(c, AsFifo(o)) == 0
  {
    hide Inv, Surplus, PassOk, AsFifo;
  }

  lemma SurplusOf(c: Config, o: Whole)
    requires ConfigOk(c)
    ensures Surplus(c, AsFifo(o))
            == o.base.sem.stsIn + HalfPosts(o.base) + (if o.base.sts == SBorrowed then 1 else 0)
               - FeedTokens(o.base) - (if o.base.sts.SMatch? then 1 else 0)
    ensures FeedTokens(AsFifo(o)) == FeedTokens(o.base)
  {
  }

  /** What the counts say when only one process is active. */
  predicate CountsOk(o: Whole) {
    var s := o.base;
    && FeedTokens(s) + (if s.sts.SMatch? || s.sts.SPop? then 1 else 0) + |s.lpl| + |o.work| <= 1
    && s.sem.stsIn + HalfPosts(s) + (if s.sts == SBorrowed then 1 else 0)
       == FeedTokens(s) + (if s.sts.SMatch? then 1 else 0)
  }

  lemma CountsOf(c: Config, o: Whole)
    requires ConfigOk(c) && RoomForOne(c) && StillAsFifo(c, o)
    ensures CountsOk(o)
  {
    hide Inv, Agreement, HalfPosts, ConfigOk;
    OneActive(c, AsFifo(o));
    FeedsAndReady(c, AsFifo(o));
    SurplusOf(c, o);
  }

  // the dispatcher took the token of a process that is ready
  lemma TokenHasProcess(c: Config, o: Whole)
    requires ConfigOk(c) && ReadyAgrees(c, AsFifo(o)) && PassOk(o)
    ensures o.base.cpu == PToken ==> o.base.lpl != []
  {
    hide OfConn, OfLate, OfWorkers, Owning;
  }

  /** STS stands where it stood, and nothing announced to it was taken back. */
  predicate OnlyAnnounced(s: State, t: State) {
    t.sts == s.sts && FeedTokens(t) >= FeedTokens(s) && t.sem.stsIn >= s.sem.stsIn
  }

  lemma OthersAnnounce(c: Config, s: State, step: Step, t: State)
    requires ConfigOk(c) && Enabled(c, s, step) && Apply(c, s, step) == Some(t) && step != StsGoesOn
    ensures OnlyAnnounced(s, t)
  {
    hide ConfigOk, ConnStep, CpuStep, WorkerStep;
    match step
    case ConnGoesOn => ConnAnnounces(s, t);
    case CpuGoesOn => CpuAnnounces(s, t);
    case WorkerGoesOn(w) => WorkerAnnounces(s, w, t);
    case _ =>
  }

  lemma ConnAnnounces(s: State, t: State)
    requires s.conn != CIdle && ConnStep(s) == Some(t)
    ensures OnlyAnnounced(s, t)
  {
  }

  lemma CpuAnnounces(s: State, t: State)
    requires !s.cpu.PRun? && (s.cpu == PWait ==> s.sem.lpl > 0) && CpuStep(s) == Some(t)
    ensures OnlyAnnounced(s, t)
  {
  }

  lemma WorkerAnnounces(s: State, w: nat, t: State)
    requires w < |s.workers|
    requires (s.workers[w] == WWait ==> s.sem.lpb > 0) && (s.workers[w] == WToken ==> s.sem.ioFree > 0)
    requires WorkerStep(s, w) == Some(t)
    ensures OnlyAnnounced(s, t)
  {
  }

  lemma FifoStep(c: Config, s: State, step: Step)
    requires ConfigOk(c) && Inv(c, s) && Enabled(c, s, step)
    ensures Apply(c, s, step).Some? && Inv(c, Apply(c, s, step).value)
    ensures !FailsToMatch(s, step) ==> Surplus(c, Apply(c, s, step).value) == Surplus(c, s)
  {
    hide *;
    NoCrash(c, s, step);
    StepKeepsInv(c, s, step, Apply(c, s, step).value);
    StepSurplus(c, s, step, Apply(c, s, step).value);
  }

  lemma OtherKeeps(c: Config, keys: Keys, o: Whole, step: Step)
    requires ConfigOk(c) && RoomForOne(c) && OneAtATime(c, o) && CanDo(c, o, Plain(step)) && step != StsGoesOn
    ensures Do(c, keys, o, Plain(step)).Some? && OneAtATime(c, Do(c, keys, o, Plain(step)).value)
  {
    hide Inv, Agreement, Apply, Enabled, Surplus, ConfigOk, FeedTokens, HalfPosts, PassOk;
    OneActive(c, AsFifo(o));
    TokenHasProcess(c, o);
    OtherStepWith(c, o.base, step, o.work);
    FifoStep(c, AsFifo(o), step);
    var t := Apply(c, o.base, step).value;
    OthersAnnounce(c, o.base, step, t);
    CountsOf(c, o);
    CountsOf(c, o.(base := t));
    PassStaysOk(o, o.(base := t));
  }

  lemma PassStaysOk(o: Whole, q: Whole)
    requires PassOk(o) && CountsOk(o) && CountsOk(q) && q.work == o.work && OnlyAnnounced(o.base, q.base)
    ensures PassOk(q)
  {
    hide FeedTokens, HalfPosts;
  }

  lemma StsPasses(c: Config, keys: Keys, o: Whole, t: State)
    requires ConfigOk(c) && PassOk(o) && CountsOk(o) && CanDo(c, o, Plain(StsGoesOn)) && !o.base.sts.SPop?
    requires Apply(c, o.base, StsGoesOn) == Some(t)
    ensures Do(c, keys, o, Plain(StsGoesOn)) == Some(o.(base := t)) && AsFifo(o.(base := t)) == Plus(t, o.work)
    ensures PassOk(o.(base := t)) && !FailsToMatch(AsFifo(o), StsGoesOn)
  {
    assert HalfPosts(t) == HalfPosts(o.base);
    hide HalfPosts, ConfigOk;
  }

  lemma StsAsFifo(c: Config, o: Whole) returns (t: State)
    requires ConfigOk(c) && OneAtATime(c, o) && CanDo(c, o, Plain(StsGoesOn))
    ensures Enabled(c, o.base, StsGoesOn) && Apply(c, o.base, StsGoesOn) == Some(t)
    ensures Inv(c, Plus(t, o.work))
    ensures !FailsToMatch(AsFifo(o), StsGoesOn) ==> Surplus(c, Plus(t, o.work)) == 0
  {
    hide Inv, Surplus, ConfigOk, StsStep, Plus, FailsToMatch, Enabled;
    StsWith(c, o.base, o.work);
    FifoStep(c, AsFifo(o), StsGoesOn);
    t := Apply(c, o.base, StsGoesOn).value;
  }

  /** STS wakes, tries or matches: the same step of the FIFO system. */
  lemma StsKeeps(c: Config, keys: Keys, o: Whole)
    requires ConfigOk(c) && RoomForOne(c) && OneAtATime(c, o) && CanDo(c, o, Plain(StsGoesOn)) && !o.base.sts.SPop?
    ensures Do(c, keys, o, Plain(StsGoesOn)).Some? && OneAtATime(c, Do(c, keys, o, Plain(StsGoesOn)).value)
  {
    hide *;
    Unfolded(c, o);
    CountsOf(c, o);
    var t := StsAsFifo(c, o);
    StsPasses(c, keys, o, t);
    Unfolded(c, o.(base := t));
  }

  /** FIFO's push to LPL and its post. */
  lemma PushAsFifo(c: Config, s: State)
    requires ConfigOk(c) && Inv(c, s) && s.sts.SHand?
    ensures var t := s.(lpl := s.lpl + [s.sts.p], sem := s.sem.(lpl := s.sem.lpl + 1), sts := STry(s.sts.i));
            Inv(c, t) && Surplus(c, t) == Surplus(c, s)
  {
    hide Inv, Surplus, ConfigOk;
    FifoStep(c, s, StsGoesOn);
    FifoStep(c, Apply(c, s, StsGoesOn).value, StsGoesOn);
  }

  lemma GatherAsFifo(c: Config, keys: Keys, o: Whole)
    requires ConfigOk(c) && CanDo(c, o, Plain(StsGoesOn)) && o.base.sts.SPop?
    ensures var d, t := Do(c, keys, o, Plain(StsGoesOn)), Apply(c, o.base, StsGoesOn);
            && (d.None? <==> t.None?)
            && (t.Some? ==>
                  var s := Plus(t.value, o.work);
                  && s.sts.SHand?
                  && AsFifo(d.value)
                     == s.(lpl := s.lpl + [s.sts.p], sem := s.sem.(lpl := s.sem.lpl + 1), sts := STry(s.sts.i)))
  {
    var d, t := Do(c, keys, o, Plain(StsGoesOn)), Apply(c, o.base, StsGoesOn);
    if t.Some? {
      assert o.base.lpl + (o.work + [t.value.sts.p]) == o.base.lpl + o.work + [t.value.sts.p];
    }
  }

  lemma GatherPasses(c: Config, keys: Keys, o: Whole)
    requires ConfigOk(c) && PassOk(o) && CountsOk(o) && CanDo(c, o, Plain(StsGoesOn)) && o.base.sts.SPop?
    ensures Do(c, keys, o, Plain(StsGoesOn)).Some? ==> PassOk(Do(c, keys, o, Plain(StsGoesOn)).value)
  {
    hide ConfigOk;
  }

  /** STS takes a process into its working list: FIFO pops it, pushes it to LPL and posts. */
  lemma GatherKeeps(c: Config, keys: Keys, o: Whole)
    requires ConfigOk(c) && RoomForOne(c) && OneAtATime(c, o) && CanDo(c, o, Plain(StsGoesOn)) && o.base.sts.SPop?
    ensures Do(c, keys, o, Plain(StsGoesOn)).Some? && OneAtATime(c, Do(c, keys, o, Plain(StsGoesOn)).value)
  {
    hide *;
    Unfolded(c, o);
    CountsOf(c, o);
    var t := StsAsFifo(c, o);
    GatherAsFifo(c, keys, o);
    GatherPasses(c, keys, o);
    PlusKeepsSts(t, o);
    PushAsFifo(c, Plus(t, o.work));
    Unfolded(c, Do(c, keys, o, Plain(StsGoesOn)).value);
  }

  lemma PlusKeepsSts(t: State, o: Whole)
    ensures Plus(t, o.work).sts == t.sts
    ensures o.base.sts.SPop? ==> !FailsToMatch(AsFifo(o), StsGoesOn)
  {
  }

  lemma MergeOfOne(ready: seq<Proc>, work: seq<Proc>, sem: nat, key: Proc -> real)
    requires |ready| + |work| <= 1 && (work == [] ==> ready == [])
    ensures Merged(ready, work, sem, key) == work && SemaphoreAfter(ready, work, sem) == sem + |work|
  {
    if work == [] {
      assert Merged([], [], sem, key) == [];
    } else {
      assert work[1..] == [] && work == [work[0]] && StableSort(work, key) == work;
      assert Gathered([], work, sem) == [] + work == work;
    }
  }

  /** The merge: the end of FIFO's pass. */
  lemma MergeKeeps(c: Config, keys: Keys, o: Whole)
    requires ConfigOk(c) && RoomForOne(c) && OneAtATime(c, o) && CanDo(c, o, Merge)
    ensures OneAtATime(c, MergeStep(keys, o))
  {
    hide *;
    Unfolded(c, o);
    CountsOf(c, o);
    MergePasses(c, keys, o);
    FifoStep(c, AsFifo(o), StsGoesOn);
    Unfolded(c, MergeStep(keys, o));
  }

  lemma MergePasses(c: Config, keys: Keys, o: Whole)
    requires ConfigOk(c) && CountsOk(o) && PassOk(o) && CanDo(c, o, Merge)
    ensures var s := AsFifo(o);
            && Enabled(c, s, StsGoesOn) && !FailsToMatch(s, StsGoesOn)
            && Apply(c, s, StsGoesOn) == Some(AsFifo(MergeStep(keys, o)))
    ensures PassOk(MergeStep(keys, o))
  {
    hide Merged, SemaphoreAfter, HalfPosts, FeedTokens;
    MergeOfOne(o.base.lpl, o.work, o.base.sem.lpl, KeysOf(keys, o.merges));
    assert o.base.lpl == [] && o.base.lpl + o.work == o.work + [];
    assert LetGo(o) == [] && o.base.dropped + [] == o.base.dropped;
  }

  lemma ActionKeeps(c: Config, keys: Keys, o: Whole, a: Action)
    requires ConfigOk(c) && RoomForOne(c) && OneAtATime(c, o) && CanDo(c, o, a)
    ensures Do(c, keys, o, a).Some? && OneAtATime(c, Do(c, keys, o, a).value)
  {
    hide OneAtATime, ConfigOk, Apply, Enabled;
    match a
    case Merge => MergeKeeps(c, keys, o);
    case Plain(step) =>
      if step != StsGoesOn {
        OtherKeeps(c, keys, o, step);
      } else if o.base.sts.SPop? {
        GatherKeeps(c, keys, o);
      } else {
        StsKeeps(c, keys, o);
      }
  }

  lemma BeginsAsFifo(c: Config)
    requires ConfigOk(c)
    ensures OneAtATime(c, Begin(c))
  {
    hide Inv, Surplus, ConfigOk, OfWorkers;
    assert AsFifo(Begin(c)) == Start(c);
    EveryRunIsSafe(c, []);
    StartSurplus(c);
  }

  lemma {:induction false} ReachedKeeps(c: Config, keys: Keys, o: Whole, n: nat)
    requires ConfigOk(c) && RoomForOne(c) && ReachedIn(c, keys, o, n)
    ensures OneAtATime(c, o)
    decreases n
  {
    hide OneAtATime, Do, CanDo, ConfigOk, RoomForOne;
    if n == 0 {
      BeginsAsFifo(c);
    } else {
      var q, a :| ReachedIn(c, keys, q, n - 1) && CanDo(c, q, a) && Do(c, keys, q, a) == Some(o);
      ReachedKeeps(c, keys, q, n - 1);
      ActionKeeps(c, keys, q, a);
    }
  }
}
