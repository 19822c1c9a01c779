/** Semaphores count what they are meant to count, in every reachable state: the queue a token
    stands for, the processes admitted, the free I/O threads, and the work STS must wake up for. */
module Tokens {
  import opened Options
  import opened Scheduler
  import opened Conservation

  function B(b: bool): nat {
    if b then 1 else 0
  }

  /** What a thread can be accountable for at the point where it stands. */
  datatype Share =
    | FifoTaken | FeedTaken(feed: Feed) | LplTaken | LpbTaken       // tokens taken, element not yet popped
    | FifoPushed | FeedPushed(feed: Feed) | LplPushed | LpbPushed   // elements pushed, token not yet posted
    | Carried | Entering                // an active process in its hand; one not yet active
    | MmpToken | MpsToken | PoolToken   // tokens of MMP_sem, MPS_sem and io_threads
    | HalfPosted                        // posted a feed, has not posted STS_in_empty
    | Borrowed | Unmatched              // STS only: its own STS_in_empty token; a feed token to match
    | Serving                           // an I/O thread that popped a request and has not released

  function OfConn(share: Share, conn: Conn): nat {
    match share
    case FifoPushed => B(conn == CDelayed)
    case FeedPushed(PLPN) => B(conn == CNewPushed)
    case FeedPushed(PLPR) => B(conn == CResPushed)
    case Carried => B(conn.CNew? || conn.CResumed?)
    case Entering => B(conn.CAdmitted? || conn.CDelaying?)
    case MmpToken => B(conn.CReading? || conn.CRestoring? || conn == CNobody)
    case HalfPosted => B(conn == CNewPosted || conn == CResPosted)
    case _ => 0
  }

  function OfLate(share: Share, late: Late): nat {
    match share
    case FifoTaken => B(late == LToken || late == LBoth)
    case FeedPushed(PLPN) => B(late == LPushed)
    case Carried => B(late.LHand?)
    case MmpToken => B(late == LBoth)
    case HalfPosted => B(late == LPosted)
    case _ => 0
  }

  function OfSts(c: Config, share: Share, sts: Sts): nat
    requires ConfigOk(c)
  {
    match share
    case FeedTaken(f) => B((sts.SMatch? || sts.SPop?) && sts.i < 4 && c.order[sts.i] == f)
    case LplPushed => B(sts.SPushed?)
    case Carried => B(sts.SHand?)
    case Borrowed => B(sts == SBorrowed)
    case Unmatched => B(sts.SMatch?)
    case _ => 0
  }

  function OfCpu(share: Share, cpu: Cpu): nat {
    match share
    case LplTaken => B(cpu == PToken)
    case LpbPushed => B(cpu.PAsked? || cpu == PBlocked)
    case FeedPushed(PLFQ) => B(cpu == PQuantum)
    case Carried => B(cpu.PRun? || cpu.PAsking? || cpu.PCounted? || cpu.PAsked? || cpu.PBlocking?)
    case MmpToken => B(cpu.PSuspended? || cpu == PDone)
    case MpsToken => B(cpu == PDone || cpu == PDonePosted)
    case HalfPosted => B(cpu == PQuantumPosted)
    case _ => 0
  }

  function OfWorker(share: Share, w: Worker): nat {
    match share
    case LpbTaken => B(w.WToken? || w.WCleared?)
    case FeedPushed(PLFIO) => B(w.WPushed?)
    case Carried => B(w.WBusy? && w.r.blocking)
    case PoolToken => B(!w.WWait? && !w.WToken?)
    case HalfPosted => B(w.WPosted?)
    case Serving => B(w.WBusy? || w.WPushed? || w.WPosted? || w.WReleasing?)
    case _ => 0
  }

  function OfWorkers(share: Share, ws: seq<Worker>): nat {
    if ws == [] then 0 else OfWorker(share, ws[0]) + OfWorkers(share, ws[1..])
  }

  lemma {:induction false} WorkersChanged(share: Share, ws: seq<Worker>, w: nat, x: Worker)
    requires w < |ws|
    ensures OfWorkers(share, ws[w := x]) + OfWorker(share, ws[w]) == OfWorkers(share, ws) + OfWorker(share, x)
  {
    if w > 0 {
      assert ws[w := x][1..] == ws[1..][w - 1 := x];
      WorkersChanged(share, ws[1..], w - 1, x);
    } else {
      assert ws[0 := x][1..] == ws[1..];
    }
  }

  /** How many requests own the process they name. */
  function Owning(q: seq<Request>): nat {
    if q == [] then 0 else B(q[0].blocking) + Owning(q[1..])
  }

  lemma {:induction false} OwningPushed(q: seq<Request>, r: Request)
    ensures Owning(q + [r]) == Owning(q) + B(r.blocking)
  {
    if q != [] {
      assert (q + [r])[1..] == q[1..] + [r];
      OwningPushed(q[1..], r);
    }
  }

  // ----- the four statements

  predicate StsInRange(sts: Sts) {
    match sts
    case STry(i) => i <= 4
    case SMatch(i) => i < 4
    case SPop(i) => i < 4
    case SHand(_, i) => i < 4
    case SPushed(i) => i < 4
    case _ => true
  }

  /** Each queue holds one element for every token of its semaphore, every token taken but not yet
      popped, and every element pushed but not yet posted. LPL holds at most that many: a merge that
      overtakes the dispatcher posts one process twice. */
  predicate Agreement(c: Config, s: State)
    requires ConfigOk(c)
  {
    && StsInRange(s.sts)
    && |s.lfifo| == s.sem.fifo + OfLate(FifoTaken, s.late) + OfConn(FifoPushed, s.conn)
    && |s.feeds.pn| == s.sem.feed.pn + OfSts(c, FeedTaken(PLPN), s.sts)
                       + OfConn(FeedPushed(PLPN), s.conn) + OfLate(FeedPushed(PLPN), s.late)
    && |s.feeds.pr| == s.sem.feed.pr + OfSts(c, FeedTaken(PLPR), s.sts) + OfConn(FeedPushed(PLPR), s.conn)
    && |s.feeds.fq| == s.sem.feed.fq + OfSts(c, FeedTaken(PLFQ), s.sts) + OfCpu(FeedPushed(PLFQ), s.cpu)
    && |s.feeds.fio| == s.sem.feed.fio + OfSts(c, FeedTaken(PLFIO), s.sts) + OfWorkers(FeedPushed(PLFIO), s.workers)
    && |s.lpl| <= s.sem.lpl + OfCpu(LplTaken, s.cpu) + OfSts(c, LplPushed, s.sts)
    && |s.lpb| == s.sem.lpb + OfWorkers(LpbTaken, s.workers) + OfCpu(LpbPushed, s.cpu)
  }

  /** Under FIFO and RR, LPL holds exactly that many. */
  predicate ReadyAgrees(c: Config, s: State)
    requires ConfigOk(c)
  {
    |s.lpl| == s.sem.lpl + OfCpu(LplTaken, s.cpu) + OfSts(c, LplPushed, s.sts)
  }

  /** Processes that run under a token of MMP_sem. */
  function Active(c: Config, s: State): nat
    requires ConfigOk(c)
  {
    |s.feeds.pn| + |s.feeds.pr| + |s.feeds.fq| + |s.feeds.fio| + |s.lpl| + Owning(s.lpb)
    + OfConn(Carried, s.conn) + OfLate(Carried, s.late) + OfSts(c, Carried, s.sts) + OfCpu(Carried, s.cpu)
    + OfWorkers(Carried, s.workers)
  }

  /** Every process in the system: active, suspended, or waiting to become active. */
  function InSystem(c: Config, s: State): nat
    requires ConfigOk(c)
  {
    Active(c, s) + |s.lps| + |s.lfifo| + OfConn(Entering, s.conn)
  }

  /** Tokens of MMP_sem in a thread's hand. */
  function MmpInHand(s: State): nat {
    OfConn(MmpToken, s.conn) + OfLate(MmpToken, s.late) + OfCpu(MmpToken, s.cpu)
  }

  /** MMP_sem plus the active processes plus the tokens in hand, and those a dropped process never
      gives back, are the configured MMP. */
  predicate MmpBalance(c: Config, s: State)
    requires ConfigOk(c)
  {
    s.sem.mmp + Active(c, s) + MmpInHand(s) + |s.dropped| == c.mmp
  }

  /** MPS_sem plus the live processes plus the tokens in hand are the configured MPS; a live process
      without a token of MMP_sem is suspended, in LFIFO, or about to be tried. */
  predicate MpsBalance(c: Config, s: State) {
    && s.sem.mps + |s.net.live| + OfCpu(MpsToken, s.cpu) == c.mps
    && |s.net.live| + s.sem.mmp + MmpInHand(s) == c.mmp + |s.lps| + |s.lfifo| + OfConn(Entering, s.conn)
  }

  /** Producers that posted a feed but not yet STS_in_empty. */
  function HalfPosts(s: State): nat {
    OfConn(HalfPosted, s.conn) + OfLate(HalfPosted, s.late) + OfCpu(HalfPosted, s.cpu)
    + OfWorkers(HalfPosted, s.workers)
  }

  function FeedTokens(s: State): nat {
    s.sem.feed.pn + s.sem.feed.pr + s.sem.feed.fq + s.sem.feed.fio
  }

  /** By how much STS_in_empty, with the posts still to come and the token STS has borrowed, exceeds
      what the feeds announce and STS has still to match. */
  function Surplus(c: Config, s: State): int
    requires ConfigOk(c)
  {
    s.sem.stsIn + HalfPosts(s) + OfSts(c, Borrowed, s.sts) - FeedTokens(s) - OfSts(c, Unmatched, s.sts)
  }

  predicate Wakeable(c: Config, s: State)
    requires ConfigOk(c)
  {
    Surplus(c, s) >= 0
  }

  /** STS has taken a feed's token before the producer posted STS_in_empty: its sem_trywait fails. */
  predicate FailsToMatch(s: State, step: Step) {
    step.StsGoesOn? && s.sts.SMatch? && s.sem.stsIn == 0
  }

  /** io_threads is the number of threads that have not taken it; what the dispatcher read of it
      stays a lower bound for the threads not serving while it holds LPB_mutex. */
  predicate Pool(c: Config, s: State) {
    && |s.workers| == c.ioThreads
    && s.sem.ioFree + OfWorkers(PoolToken, s.workers) == c.ioThreads
    && (s.cpu.PCounted? ==> s.cpu.free + OfWorkers(Serving, s.workers) <= c.ioThreads)
  }

  predicate Counted(c: Config, s: State)
    requires ConfigOk(c)
  {
    Agreement(c, s) && MmpBalance(c, s) && MpsBalance(c, s) && Wakeable(c, s) && Pool(c, s)
  }

  lemma {:induction false} ServingHoldPoolTokens(ws: seq<Worker>)
    ensures OfWorkers(Serving, ws) <= OfWorkers(PoolToken, ws) <= |ws|
    ensures OfWorkers(LpbTaken, ws) + OfWorkers(Serving, ws) <= |ws|
  {
    if ws != [] {
      ServingHoldPoolTokens(ws[1..]);
    }
  }

  // ----- every step keeps them

  predicate IsChoice(step: Step) {
    !step.ConnGoesOn? && !step.LateGoesOn? && !step.StsGoesOn? && !step.CpuGoesOn? && !step.WorkerGoesOn?
  }

  lemma ConnAgreement(c: Config, s: State, t: State)
    requires ConfigOk(c) && s.conn != CIdle && ConnStep(s) == Some(t) && Agreement(c, s)
    ensures Agreement(c, t) && (ReadyAgrees(c, s) ==> ReadyAgrees(c, t))
  {
    hide OfLate, OfSts, OfCpu, OfWorkers, Owning, FindProc, ConfigOk;
  }

  lemma LateAgreement(c: Config, s: State, t: State)
    requires ConfigOk(c) && Enabled(c, s, LateGoesOn) && LateStep(s) == Some(t) && Agreement(c, s)
    ensures Agreement(c, t) && (ReadyAgrees(c, s) ==> ReadyAgrees(c, t))
  {
    hide OfConn, OfSts, OfCpu, OfWorkers, Owning;
  }

  lemma StsAgreement(c: Config, s: State, t: State)
    requires ConfigOk(c) && Enabled(c, s, StsGoesOn) && StsStep(c, s) == Some(t) && Agreement(c, s)
    ensures Agreement(c, t) && (ReadyAgrees(c, s) ==> ReadyAgrees(c, t))
  {
    hide OfConn, OfLate, OfCpu, OfWorkers, Owning;
    if s.sts.STry? || s.sts.SMatch? || s.sts.SPop? {
      StsFeedAgreement(c, s, t);
    }
  }

  // trying, matching and popping a feed
  lemma StsFeedAgreement(c: Config, s: State, t: State)
    requires ConfigOk(c) && (s.sts.STry? || s.sts.SMatch? || s.sts.SPop?)
    requires StsStep(c, s) == Some(t) && Agreement(c, s)
    ensures Agreement(c, t) && (ReadyAgrees(c, s) ==> ReadyAgrees(c, t))
  {
    hide OfConn, OfLate, OfCpu, OfWorkers, Owning, ConfigOk;
  }

  lemma CpuAgreement(c: Config, s: State, t: State)
    requires ConfigOk(c) && Enabled(c, s, CpuGoesOn) && CpuStep(s) == Some(t) && Agreement(c, s)
    ensures Agreement(c, t) && (ReadyAgrees(c, s) ==> ReadyAgrees(c, t))
  {
    hide OfConn, OfLate, OfSts, OfWorkers, Owning, StsInRange, ConfigOk, Enqueue;
    SendingAside(s);
  }

  lemma SendingAside(s: State)
    ensures forall m: Msg :: Enqueue(s, m) == s.(net := Enqueue(s, m).net)
  {
  }

  lemma WorkerAgreement(c: Config, s: State, w: nat, t: State)
    requires ConfigOk(c) && Enabled(c, s, WorkerGoesOn(w)) && WorkerStep(s, w) == Some(t) && Agreement(c, s)
    ensures Agreement(c, t) && (ReadyAgrees(c, s) ==> ReadyAgrees(c, t))
  {
    hide OfConn, OfLate, OfSts, OfCpu, OfWorkers, ConfigOk, HoldsLpb, StsInRange;
    WorkersChanged(LpbTaken, s.workers, w, t.workers[w]);
    WorkersChanged(FeedPushed(PLFIO), s.workers, w, t.workers[w]);
  }

  lemma ChoiceAgreement(c: Config, s: State, step: Step, t: State)
    requires ConfigOk(c) && IsChoice(step) && Enabled(c, s, step) && Apply(c, s, step) == Some(t) && Agreement(c, s)
    ensures Agreement(c, t) && (ReadyAgrees(c, s) ==> ReadyAgrees(c, t))
  {
    hide OfLate, OfSts, OfWorkers, Owning, ConnStep, LateStep, StsStep, CpuStep, WorkerStep;
  }

  lemma ConnMmpBalance(c: Config, s: State, t: State)
    requires ConfigOk(c) && s.conn != CIdle && ConnStep(s) == Some(t) && MmpBalance(c, s)
    ensures MmpBalance(c, t)
  {
    hide OfLate, OfSts, OfCpu, OfWorkers, Owning, FindProc, ConfigOk;
  }

  lemma LateMmpBalance(c: Config, s: State, t: State)
    requires ConfigOk(c) && Enabled(c, s, LateGoesOn) && LateStep(s) == Some(t) && MmpBalance(c, s)
    ensures MmpBalance(c, t)
  {
    hide OfConn, OfSts, OfCpu, OfWorkers, Owning;
  }

  lemma StsMmpBalance(c: Config, s: State, t: State)
    requires ConfigOk(c) && Enabled(c, s, StsGoesOn) && StsStep(c, s) == Some(t) && MmpBalance(c, s)
    ensures MmpBalance(c, t)
  {
    hide OfConn, OfLate, OfCpu, OfWorkers, Owning;
  }

  lemma CpuMmpBalance(c: Config, s: State, t: State)
    requires ConfigOk(c) && Enabled(c, s, CpuGoesOn) && CpuStep(s) == Some(t) && MmpBalance(c, s)
    ensures MmpBalance(c, t)
  {
    hide OfConn, OfLate, OfSts, OfWorkers, Owning;
    match s.cpu
    case PCounted(x, _) => OwningPushed(s.lpb, Request(x, false));
    case PBlocking(x) => OwningPushed(s.lpb, Request(x, true));
    case _ =>
  }

  lemma WorkerMmpBalance(c: Config, s: State, w: nat, t: State)
    requires ConfigOk(c) && Enabled(c, s, WorkerGoesOn(w)) && WorkerStep(s, w) == Some(t) && MmpBalance(c, s)
    ensures MmpBalance(c, t)
  {
    hide OfConn, OfLate, OfSts, OfCpu, OfWorkers;
    WorkersChanged(Carried, s.workers, w, t.workers[w]);
  }

  lemma ChoiceMmpBalance(c: Config, s: State, step: Step, t: State)
    requires ConfigOk(c) && IsChoice(step) && Enabled(c, s, step) && Apply(c, s, step) == Some(t) && MmpBalance(c, s)
    ensures MmpBalance(c, t)
  {
    hide OfLate, OfSts, OfWorkers, Owning, ConnStep, LateStep, StsStep, CpuStep, WorkerStep;
  }

  lemma ConnMpsBalance(c: Config, s: State, t: State)
    requires ConfigOk(c) && s.conn != CIdle && ConnStep(s) == Some(t) && MpsBalance(c, s)
    ensures MpsBalance(c, t)
  {
    hide OfLate, OfSts, OfCpu, OfWorkers, Owning, FindProc, ConfigOk;
  }

  lemma LateMpsBalance(c: Config, s: State, t: State)
    requires ConfigOk(c) && Enabled(c, s, LateGoesOn) && LateStep(s) == Some(t) && MpsBalance(c, s)
    ensures MpsBalance(c, t)
  {
    hide OfConn, OfSts, OfCpu, OfWorkers, Owning;
  }

  lemma StsMpsBalance(c: Config, s: State, t: State)
    requires ConfigOk(c) && Enabled(c, s, StsGoesOn) && StsStep(c, s) == Some(t) && MpsBalance(c, s)
    ensures MpsBalance(c, t)
  {
    hide OfConn, OfLate, OfCpu, OfWorkers, Owning;
  }

  lemma CpuMpsBalance(c: Config, s: State, t: State)
    requires ConfigOk(c) && Enabled(c, s, CpuGoesOn) && CpuStep(s) == Some(t) && MpsBalance(c, s)
    ensures MpsBalance(c, t)
  {
    hide OfConn, OfLate, OfSts, OfWorkers, Owning;
  }

  lemma WorkerMpsBalance(c: Config, s: State, w: nat, t: State)
    requires ConfigOk(c) && Enabled(c, s, WorkerGoesOn(w)) && WorkerStep(s, w) == Some(t) && MpsBalance(c, s)
    ensures MpsBalance(c, t)
  {
    hide OfConn, OfLate, OfSts, OfCpu, OfWorkers;
  }

  lemma LiveGrows(live: map<nat, nat>, fd: nat, pid: nat)
    requires fd !in live
    ensures |live[fd := pid]| == |live| + 1
  {
    assert live[fd := pid].Keys == live.Keys + {fd};
  }

  lemma LiveShrinks(live: map<nat, nat>, fd: nat)
    requires fd in live
    ensures |live - {fd}| == |live| - 1
  {
    assert (live - {fd}).Keys == live.Keys - {fd};
  }

  lemma ChoiceMpsBalance(c: Config, s: State, step: Step, t: State)
    requires ConfigOk(c) && IsChoice(step) && Enabled(c, s, step) && Apply(c, s, step) == Some(t) && MpsBalance(c, s)
    requires LiveConnected(s) && (step == CpuFinishes ==> s.cpu.p.fd in s.net.live)
    ensures MpsBalance(c, t)
  {
    hide OfLate, OfSts, OfWorkers, Owning, ConnStep, LateStep, StsStep, CpuStep, WorkerStep;
    match step
    case Connect(fd) => ConnectMpsBalance(c, s, fd);
    case CpuFinishes => FinishMpsBalance(c, s, t);
    case _ =>
  }

  lemma FinishMpsBalance(c: Config, s: State, t: State)
    requires ConfigOk(c) && Enabled(c, s, CpuFinishes) && Apply(c, s, CpuFinishes) == Some(t) && MpsBalance(c, s)
    requires s.cpu.p.fd in s.net.live
    ensures MpsBalance(c, t)
  {
    hide OfConn, OfLate, OfSts, OfWorkers, Owning, ConfigOk;
    LiveShrinks(s.net.live, s.cpu.p.fd);
  }

  lemma ConnectMpsBalance(c: Config, s: State, fd: nat)
    requires ConfigOk(c) && Enabled(c, s, Connect(fd)) && MpsBalance(c, s) && LiveConnected(s)
    ensures MpsBalance(c, ConnectStep(s, fd))
  {
    hide OfLate, OfSts, OfWorkers, Owning, ConfigOk;
    LiveGrows(s.net.live, fd, s.net.nextPid);
  }

  lemma ConnSurplus(c: Config, s: State, t: State)
    requires ConfigOk(c) && s.conn != CIdle && ConnStep(s) == Some(t)
    ensures Surplus(c, t) == Surplus(c, s)
  {
    hide OfLate, OfSts, OfCpu, OfWorkers, Owning, FindProc, ConfigOk;
  }

  lemma LateSurplus(c: Config, s: State, t: State)
    requires ConfigOk(c) && Enabled(c, s, LateGoesOn) && LateStep(s) == Some(t)
    ensures Surplus(c, t) == Surplus(c, s)
  {
    hide OfConn, OfSts, OfCpu, OfWorkers, Owning;
  }

  lemma StsSurplus(c: Config, s: State, t: State)
    requires ConfigOk(c) && Enabled(c, s, StsGoesOn) && StsStep(c, s) == Some(t)
    ensures Surplus(c, t) == Surplus(c, s) + if FailsToMatch(s, StsGoesOn) then 1 else 0
  {
    hide OfConn, OfLate, OfCpu, OfWorkers, Owning;
  }

  lemma CpuSurplus(c: Config, s: State, t: State)
    requires ConfigOk(c) && Enabled(c, s, CpuGoesOn) && CpuStep(s) == Some(t)
    ensures Surplus(c, t) == Surplus(c, s)
  {
    hide OfConn, OfLate, OfSts, OfWorkers, Owning;
  }

  lemma WorkerSurplus(c: Config, s: State, w: nat, t: State)
    requires ConfigOk(c) && Enabled(c, s, WorkerGoesOn(w)) && WorkerStep(s, w) == Some(t)
    ensures Surplus(c, t) == Surplus(c, s)
  {
    hide OfConn, OfLate, OfSts, OfCpu, OfWorkers;
    WorkersChanged(HalfPosted, s.workers, w, t.workers[w]);
  }

  lemma ChoiceSurplus(c: Config, s: State, step: Step, t: State)
    requires ConfigOk(c) && IsChoice(step) && Enabled(c, s, step) && Apply(c, s, step) == Some(t)
    ensures Surplus(c, t) == Surplus(c, s)
  {
    hide OfLate, OfSts, OfWorkers, Owning, ConnStep, LateStep, StsStep, CpuStep, WorkerStep;
  }

  lemma ConnPool(c: Config, s: State, t: State)
    requires ConfigOk(c) && s.conn != CIdle && ConnStep(s) == Some(t) && Pool(c, s)
    ensures Pool(c, t)
  {
    hide OfLate, OfSts, OfCpu, OfWorkers, Owning, FindProc, ConfigOk;
  }

  lemma LatePool(c: Config, s: State, t: State)
    requires ConfigOk(c) && Enabled(c, s, LateGoesOn) && LateStep(s) == Some(t) && Pool(c, s)
    ensures Pool(c, t)
  {
    hide OfConn, OfSts, OfCpu, OfWorkers, Owning;
  }

  lemma StsPool(c: Config, s: State, t: State)
    requires ConfigOk(c) && Enabled(c, s, StsGoesOn) && StsStep(c, s) == Some(t) && Pool(c, s)
    ensures Pool(c, t)
  {
    hide OfConn, OfLate, OfCpu, OfWorkers, Owning;
  }

  lemma CpuPool(c: Config, s: State, t: State)
    requires ConfigOk(c) && Enabled(c, s, CpuGoesOn) && CpuStep(s) == Some(t) && Pool(c, s)
    ensures Pool(c, t)
  {
    hide OfConn, OfLate, OfSts, OfWorkers, Owning;
    ServingHoldPoolTokens(s.workers);
  }

  lemma WorkerPool(c: Config, s: State, w: nat, t: State)
    requires ConfigOk(c) && Enabled(c, s, WorkerGoesOn(w)) && WorkerStep(s, w) == Some(t) && Pool(c, s)
    ensures Pool(c, t)
  {
    hide OfConn, OfLate, OfSts, OfCpu, OfWorkers;
    WorkersChanged(PoolToken, s.workers, w, t.workers[w]);
    WorkersChanged(Serving, s.workers, w, t.workers[w]);
  }

  lemma ChoicePool(c: Config, s: State, step: Step, t: State)
    requires ConfigOk(c) && IsChoice(step) && Enabled(c, s, step) && Apply(c, s, step) == Some(t) && Pool(c, s)
    ensures Pool(c, t)
  {
    hide OfLate, OfSts, OfWorkers, Owning, ConnStep, LateStep, StsStep, CpuStep, WorkerStep;
  }
}
