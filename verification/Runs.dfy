/** Whole runs of the system under FIFO or RR: nothing crashes, and every reachable state keeps
    conservation, the protocol and all the counts. */
module Runs {
  import opened Options
  import opened Scheduler
  import opened Conservation
  import opened Tokens
  import opened Protocol

  /** What holds whichever way STS orders the ready list. */
  ghost predicate SharedInv(c: Config, s: State)
    requires ConfigOk(c)
  {
    OnePlace(s) && ProtocolOk(s) && Counted(c, s)
  }

  ghost predicate Inv(c: Config, s: State)
    requires ConfigOk(c)
  {
    SharedInv(c, s) && ReadyAgrees(c, s) && (c.quantum >= 0 ==> s.dropped == [])
  }

  // ----- the start

  lemma {:induction false} NobodyCarried(ws: seq<Worker>, p: Proc)
    requires forall i :: 0 <= i < |ws| ==> ws[i] == WWait
    ensures InWorkers(ws, p) == 0
  {
    if ws != [] {
      NobodyCarried(ws[1..], p);
    }
  }

  lemma {:induction false} NobodyCounted(ws: seq<Worker>, share: Share)
    requires forall i :: 0 <= i < |ws| ==> ws[i] == WWait
    ensures OfWorkers(share, ws) == 0
  {
    if ws != [] {
      NobodyCounted(ws[1..], share);
    }
  }

  lemma StartPlaces(c: Config)
    ensures OnePlace(Start(c)) && ProtocolOk(Start(c))
  {
    hide InWorkers;
    var s := Start(c);
    forall p
      ensures Copies(s, p) + In(s.dropped, p) == if IsLive(s, p) then 1 else 0
    {
      NobodyCarried(s.workers, p);
    }
    assert forall fd :: Tenant(s, fd) && Pending(s, fd) == OnLps(s, fd);
  }

  lemma StartAgreement(c: Config)
    requires ConfigOk(c)
    ensures Agreement(c, Start(c)) && ReadyAgrees(c, Start(c)) && Pool(c, Start(c))
  {
    hide OfWorkers, ConfigOk;
    NobodyCounted(Start(c).workers, LpbTaken);
    NobodyCounted(Start(c).workers, FeedPushed(PLFIO));
    NobodyCounted(Start(c).workers, PoolToken);
    NobodyCounted(Start(c).workers, Serving);
  }

  lemma StartBalances(c: Config)
    requires ConfigOk(c)
    ensures MmpBalance(c, Start(c)) && MpsBalance(c, Start(c)) && Wakeable(c, Start(c))
  {
    hide OfWorkers, ConfigOk;
    NobodyCounted(Start(c).workers, Carried);
    NobodyCounted(Start(c).workers, HalfPosted);
  }

  lemma StartSurplus(c: Config)
    requires ConfigOk(c)
    ensures Surplus(c, Start(c)) == 0
  {
    hide OfWorkers, ConfigOk;
    NobodyCounted(Start(c).workers, HalfPosted);
  }

  // ----- one step

  /** The dispatcher's pop of an empty ready list is the only step of any thread that can fail. */
  lemma OnlyReadyPopFails(c: Config, s: State, step: Step)
    requires ConfigOk(c) && SharedInv(c, s) && Enabled(c, s, step)
    ensures Apply(c, s, step).None? <==> step == CpuGoesOn && s.cpu == PToken && s.lpl == []
  {
    hide OnePlace, ProtocolOk, MmpBalance, MpsBalance, Wakeable, Agreement, Pool, Enabled, ConnStep, LateStep, StsStep,
         WorkerStep;
    match step
    case ConnGoesOn => ConnSucceeds(c, s);
    case LateGoesOn => LateSucceeds(c, s);
    case StsGoesOn => StsSucceeds(c, s);
    case WorkerGoesOn(w) => WorkerSucceeds(c, s, w);
    case _ =>
  }

  lemma ConnSucceeds(c: Config, s: State)
    requires ConfigOk(c) && Enabled(c, s, ConnGoesOn) && OnePlace(s) && ProtocolOk(s)
    ensures s.conn != CIdle && ConnStep(s).Some?
  {
    hide OnePlace, ProtocolOk, ConfigOk;
    if s.conn.CRestoring? {
      RestoringHasSuspended(s);
    }
  }

  lemma LateSucceeds(c: Config, s: State)
    requires ConfigOk(c) && Enabled(c, s, LateGoesOn) && Agreement(c, s)
    ensures LateStep(s).Some?
  {
    hide OfSts, OfCpu, OfWorkers, ConfigOk;
  }

  lemma StsSucceeds(c: Config, s: State)
    requires ConfigOk(c) && Enabled(c, s, StsGoesOn) && Agreement(c, s)
    ensures StsStep(c, s).Some?
  {
    hide OfConn, OfLate, OfCpu, OfWorkers;
  }

  lemma WorkerSucceeds(c: Config, s: State, w: nat)
    requires ConfigOk(c) && Enabled(c, s, WorkerGoesOn(w)) && Agreement(c, s)
    ensures WorkerStep(s, w).Some?
  {
    hide OfConn, OfLate, OfSts, ConfigOk;
    if s.workers[w] == WCleared {
      WorkerShare(LpbTaken, s.workers, w);
    }
  }

  /** No pop meets an empty queue and no search an empty list. */
  lemma NoCrash(c: Config, s: State, step: Step)
    requires ConfigOk(c) && Inv(c, s) && Enabled(c, s, step)
    ensures Apply(c, s, step).Some?
  {
    hide SharedInv, Enabled, Apply, ConfigOk;
    OnlyReadyPopFails(c, s, step);
  }

  lemma RestoringHasSuspended(s: State)
    requires OnePlace(s) && ProtocolOk(s) && s.conn.CRestoring?
    ensures s.lps != []
  {
    AnswerFindsItsProcess(s);
  }

  lemma {:induction false} WorkerShare(share: Share, ws: seq<Worker>, w: nat)
    requires w < |ws|
    ensures OfWorkers(share, ws) >= OfWorker(share, ws[w])
  {
    if w > 0 {
      WorkerShare(share, ws[1..], w - 1);
    }
  }

  /** The surplus of wake-ups only grows, by one whenever STS fails to match a feed's token. */
  lemma StepSurplus(c: Config, s: State, step: Step, t: State)
    requires ConfigOk(c) && Enabled(c, s, step) && Apply(c, s, step) == Some(t)
    ensures Surplus(c, t) == Surplus(c, s) + if FailsToMatch(s, step) then 1 else 0
  {
    hide ConnStep, LateStep, StsStep, CpuStep, WorkerStep, Surplus, ConfigOk;
    match step
    case ConnGoesOn => ConnSurplus(c, s, t);
    case LateGoesOn => LateSurplus(c, s, t);
    case StsGoesOn => StsSurplus(c, s, t);
    case CpuGoesOn => CpuSurplus(c, s, t);
    case WorkerGoesOn(w) => WorkerSurplus(c, s, w, t);
    case _ => ChoiceSurplus(c, s, step, t);
  }

  lemma StepKeepsCounts(c: Config, s: State, step: Step, t: State)
    requires ConfigOk(c) && SharedInv(c, s) && Enabled(c, s, step) && Apply(c, s, step) == Some(t)
    ensures Counted(c, t) && (ReadyAgrees(c, s) ==> ReadyAgrees(c, t))
  {
    hide ConnStep, LateStep, StsStep, CpuStep, WorkerStep, OnePlace, Agreement, ReadyAgrees, MmpBalance,
         MpsBalance, Surplus, Pool, FailsToMatch;
    TenantsAreConnected(s);
    StepSurplus(c, s, step, t);
    match step
    case ConnGoesOn =>
      ConnAgreement(c, s, t); ConnMmpBalance(c, s, t); ConnMpsBalance(c, s, t); ConnPool(c, s, t);
    case LateGoesOn =>
      LateAgreement(c, s, t); LateMmpBalance(c, s, t); LateMpsBalance(c, s, t); LatePool(c, s, t);
    case StsGoesOn =>
      StsAgreement(c, s, t); StsMmpBalance(c, s, t); StsMpsBalance(c, s, t); StsPool(c, s, t);
    case CpuGoesOn =>
      CpuAgreement(c, s, t); CpuMmpBalance(c, s, t); CpuMpsBalance(c, s, t); CpuPool(c, s, t);
    case WorkerGoesOn(w) =>
      WorkerAgreement(c, s, w, t); WorkerMmpBalance(c, s, w, t); WorkerMpsBalance(c, s, w, t);
      WorkerPool(c, s, w, t);
    case _ =>
      RunningIsLive(c, s, step);
      ChoiceAgreement(c, s, step, t); ChoiceMmpBalance(c, s, step, t); ChoiceMpsBalance(c, s, step, t);
      ChoicePool(c, s, step, t);
  }

  lemma RunningIsLive(c: Config, s: State, step: Step)
    requires OnePlace(s)
    requires ConfigOk(c) && Enabled(c, s, step)
    ensures step == CpuFinishes ==> s.cpu.p.fd in s.net.live
  {
    hide InWorkers, InRequests, In;
    if step == CpuFinishes {
      HeldOnce(s, s.cpu.p);
    }
  }

  lemma StepDrops(c: Config, s: State, step: Step, t: State)
    requires ConfigOk(c) && Enabled(c, s, step) && Apply(c, s, step) == Some(t)
    ensures t.dropped == if step == CpuLoses then s.dropped + [s.cpu.p] else s.dropped
    ensures step == CpuLoses ==> c.quantum < 0
  {
    hide Apply, Copies, ConfigOk;
    StepMoves(c, s, step, t, Proc(0, 0));
  }

  /** Every step keeps what does not depend on the order of the ready list. */
  lemma StepKeepsShared(c: Config, s: State, step: Step, t: State)
    requires ConfigOk(c) && SharedInv(c, s) && Enabled(c, s, step) && Apply(c, s, step) == Some(t)
    ensures SharedInv(c, t) && (ReadyAgrees(c, s) ==> ReadyAgrees(c, t))
  {
    hide Apply, Enabled, OnePlace, Counted, ReadyAgrees, Matched, Tenancy, InOrder;
    TenantsAreConnected(s);
    StepKeepsPlaces(c, s, step, t);
    StepKeepsProtocol(c, s, step, t);
    StepKeepsCounts(c, s, step, t);
  }

  lemma StepKeepsInv(c: Config, s: State, step: Step, t: State)
    requires ConfigOk(c) && Inv(c, s) && Enabled(c, s, step) && Apply(c, s, step) == Some(t)
    ensures Inv(c, t)
  {
    hide Apply, Enabled, SharedInv, ReadyAgrees;
    StepDrops(c, s, step, t);
    StepKeepsShared(c, s, step, t);
  }

  // ----- all runs

  lemma {:induction false} RunKeepsInv(c: Config, s: State, steps: seq<Step>)
    requires ConfigOk(c) && Inv(c, s) && CanRun(c, s, steps)
    ensures Run(c, s, steps).Some? && Inv(c, Run(c, s, steps).value)
    decreases |steps|
  {
    hide Apply, Enabled, Inv, ConfigOk;
    if steps != [] {
      NoCrash(c, s, steps[0]);
      StepKeepsInv(c, s, steps[0], Apply(c, s, steps[0]).value);
      RunKeepsInv(c, Apply(c, s, steps[0]).value, steps[1..]);
    }
  }

  /** Whatever the clients, the user, the scripts, the quantum and the interleaving do, no thread ever
      pops an empty queue, and the state keeps every property below. */
  lemma EveryRunIsSafe(c: Config, steps: seq<Step>)
    requires ConfigOk(c) && CanRun(c, Start(c), steps)
    ensures Run(c, Start(c), steps).Some? && Inv(c, Run(c, Start(c), steps).value)
  {
    StartPlaces(c);
    StartAgreement(c);
    StartBalances(c);
    RunKeepsInv(c, Start(c), steps);
  }

  // ----- what reachable states are like

  /** Exactly one place for every admitted, unfinished process that was not let go of, none for
      anything else; and only a negative quantum lets go of any. */
  lemma LiveProcessHasOnePlace(c: Config, s: State, p: Proc)
    requires ConfigOk(c) && Inv(c, s)
    ensures Copies(s, p) == 1 <==> IsLive(s, p) && p !in s.dropped
    ensures Copies(s, p) == 0 <==> !IsLive(s, p) || p in s.dropped
    ensures p in s.dropped ==> IsLive(s, p)
    ensures c.quantum >= 0 ==> s.dropped == []
  {
    hide InRequests, InWorkers;
    HeldOnce(s, p);
    assert p in s.dropped <==> In(s.dropped, p) > 0;
  }

  /** At most MMP processes are active and at most MPS are in the system, and the live processes are
      exactly those accounted for; a process let go of keeps its share of both for ever. */
  lemma AdmissionBounds(c: Config, s: State)
    requires ConfigOk(c) && SharedInv(c, s)
    ensures Active(c, s) + |s.dropped| <= c.mmp
    ensures |s.net.live| == InSystem(c, s) + |s.dropped| <= c.mps
  {
    hide OfConn, OfLate, OfSts, OfCpu, OfWorkers, Owning, OnePlace, ProtocolOk, Agreement;
  }

  /** The exit test of the SIGINT handler: a full MPS_sem means that no process is left, whichever
      thread is where. */
  lemma ExitTestIsSafe(c: Config, s: State)
    requires ConfigOk(c) && SharedInv(c, s) && s.sem.mps == c.mps
    ensures s.net.live == map[] && InSystem(c, s) == 0 && s.dropped == []
    ensures s.lfifo == [] && s.lpl == [] && s.lps == [] && Owning(s.lpb) == 0 && !s.cpu.PRun?
    ensures s.feeds == Four([], [], [], [])
  {
    AdmissionBounds(c, s);
  }

  /** When STS would sleep, every feed token still pending belongs to a producer that has not posted
      STS_in_empty yet; with no such producer nothing is pending, and what lies in the feeds is
      still being pushed. */
  lemma StsSleepsOnlyWhenIdle(c: Config, s: State)
    requires ConfigOk(c) && SharedInv(c, s) && s.sts == SWait && s.sem.stsIn == 0
    ensures FeedTokens(s) <= HalfPosts(s)
    ensures forall f: Feed :: s.sem.feed.Get(f) <= HalfPosts(s)
  {
    hide OfConn, OfLate, OfCpu, OfWorkers, Owning, OnePlace, ProtocolOk, Agreement, MmpBalance;
  }

  /** A worker that took a request's token never waits for io_threads. */
  lemma WorkerNeverWaitsForPool(c: Config, s: State, w: nat)
    requires ConfigOk(c) && SharedInv(c, s) && w < |s.workers| && s.workers[w] == WToken
    ensures s.sem.ioFree > 0
  {
    hide Agreement, MmpBalance, MpsBalance, Wakeable, OnePlace, ProtocolOk;
    PoolTokens(s.workers, w);
  }

  lemma {:induction false} PoolTokens(ws: seq<Worker>, w: nat)
    requires w < |ws| && ws[w] == WToken
    ensures OfWorkers(PoolToken, ws) < |ws|
  {
    ServingHoldPoolTokens(ws[1..]);
    if w > 0 {
      PoolTokens(ws[1..], w - 1);
    }
  }

  /** Right after a non-blocking request was accepted, there are as many threads not serving as
      requests in LPB: it starts without any other request having to finish. */
  lemma AcceptedRequestStarts(c: Config, s: State, t: State)
    requires ConfigOk(c) && SharedInv(c, s) && s.cpu.PCounted? && CpuStep(s) == Some(t) && t.cpu.PAsked?
    ensures t.lpb == s.lpb + [Request(s.cpu.p, false)]
    ensures |t.lpb| + OfWorkers(Serving, t.workers) <= c.ioThreads == |t.workers|
  {
    hide Agreement, MmpBalance, MpsBalance, Wakeable, OnePlace, ProtocolOk, OfWorkers;
  }

  /** The state a run ends in, and what holds of it: every conclusion above, from the start state alone. */
  lemma EveryReachableState(c: Config, steps: seq<Step>, p: Proc)
    requires ConfigOk(c) && CanRun(c, Start(c), steps)
    ensures Run(c, Start(c), steps).Some?
    ensures var s := Run(c, Start(c), steps).value;
            && Copies(s, p) == (if IsLive(s, p) && p !in s.dropped then 1 else 0)
            && (c.quantum >= 0 ==> s.dropped == [])
            && Active(c, s) + |s.dropped| <= c.mmp && |s.net.live| == InSystem(c, s) + |s.dropped| <= c.mps
            && (s.sem.mps == c.mps ==>
                 s.net.live == map[] && s.lfifo == [] && s.lpl == [] && s.lps == [] && !s.cpu.PRun?)
            && (s.sts == SWait && s.sem.stsIn == 0 ==> FeedTokens(s) <= HalfPosts(s))
            && (forall w :: 0 <= w < |s.workers| && s.workers[w] == WToken ==> s.sem.ioFree > 0)
            && (s.conn.CRestoring? ==> FindsItsProcess(s, s.conn.fd))
            && InOrder(s)
  {
    EveryRunIsSafe(c, steps);
    var s := Run(c, Start(c), steps).value;
    hide *;
    LiveProcessHasOnePlace(c, s, p);
    InvIsShared(c, s);
    AdmissionBounds(c, s);
    if s.sem.mps == c.mps {
      ExitTestIsSafe(c, s);
    }
    if s.sts == SWait && s.sem.stsIn == 0 {
      StsSleepsOnlyWhenIdle(c, s);
    }
    forall w | 0 <= w < |s.workers| && s.workers[w] == WToken ensures s.sem.ioFree > 0 {
      WorkerNeverWaitsForPool(c, s, w);
    }
    RestoreFinds(c, s);
  }

  lemma InvIsShared(c: Config, s: State)
    requires ConfigOk(c) && Inv(c, s)
    ensures SharedInv(c, s)
  {
    hide SharedInv, ReadyAgrees;
  }

  /** The search of restoreSuspended finds the client's own process. */
  predicate FindsItsProcess(s: State, fd: nat) {
    var i := FindProc(s.lps, fd);
    i < |s.lps| && fd in s.net.live && s.lps[i] == Proc(fd, s.net.live[fd])
  }

  lemma RestoreFinds(c: Config, s: State)
    requires ConfigOk(c) && SharedInv(c, s)
    ensures InOrder(s) && (s.conn.CRestoring? ==> FindsItsProcess(s, s.conn.fd))
  {
    hide Counted, OnePlace;
    if s.conn.CRestoring? {
      AnswerFindsItsProcess(s);
    }
  }
}
