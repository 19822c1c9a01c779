/** Exactly one place for every admitted, unfinished process, in every reachable state. */
module Conservation {
  import opened Options
  import opened Scheduler

  function InHand(held: Option<Proc>, p: Proc): nat {
    if held == Some(p) then 1 else 0
  }

  function ConnHand(conn: Conn): Option<Proc> {
    match conn
    case CAdmitted(p) => Some(p)
    case CDelaying(p) => Some(p)
    case CNew(p) => Some(p)
    case CResumed(p) => Some(p)
    case _ => None
  }

  function LateHand(late: Late): Option<Proc> {
    if late.LHand? then Some(late.p) else None
  }

  function StsHand(sts: Sts): Option<Proc> {
    if sts.SHand? then Some(sts.p) else None
  }

  function CpuHand(cpu: Cpu): Option<Proc> {
    match cpu
    case PRun(p) => Some(p)
    case PAsking(p) => Some(p)
    case PCounted(p, _) => Some(p)
    case PAsked(p) => Some(p)
    case PBlocking(p) => Some(p)
    case _ => None
  }

  function WorkerHand(w: Worker): Option<Proc> {
    if w.WBusy? && w.r.blocking then Some(w.r.proc) else None
  }

  function InWorkers(ws: seq<Worker>, p: Proc): nat {
    if ws == [] then 0 else InHand(WorkerHand(ws[0]), p) + InWorkers(ws[1..], p)
  }

  /** Blocking requests own their process; non-blocking ones only point at it. */
  function InRequests(q: seq<Request>, p: Proc): nat {
    if q == [] then 0 else (if q[0] == Request(p, true) then 1 else 0) + InRequests(q[1..], p)
  }

  function In(q: seq<Proc>, p: Proc): nat {
    multiset(q)[p]
  }

  /** In how many places process `p` is. */
  function Copies(s: State, p: Proc): nat {
    In(s.lfifo, p) + In(s.feeds.pn, p) + In(s.feeds.pr, p) + In(s.feeds.fq, p) + In(s.feeds.fio, p)
    + In(s.lpl, p) + In(s.lps, p) + InRequests(s.lpb, p) + InWorkers(s.workers, p)
    + InHand(ConnHand(s.conn), p) + InHand(LateHand(s.late), p) + InHand(StsHand(s.sts), p)
    + InHand(CpuHand(s.cpu), p)
  }

  /** `p` has been admitted and has not finished. */
  predicate IsLive(s: State, p: Proc) {
    p.fd in s.net.live && s.net.live[p.fd] == p.pid
  }

  /** Every live process is in exactly one place or was let go of once, and nothing else is anywhere. */
  ghost predicate OnePlace(s: State) {
    forall p :: Copies(s, p) + In(s.dropped, p) == if IsLive(s, p) then 1 else 0
  }

  /** A live process has a connected client. */
  predicate LiveConnected(s: State) {
    forall fd :: fd in s.net.live ==> Alive(s, fd)
  }

  // ----- lists

  lemma Popped(q: seq<Proc>, p: Proc)
    requires q != []
    ensures In(q, p) == In(q[1..], p) + (if q[0] == p then 1 else 0)
  {
    assert q == [q[0]] + q[1..];
  }

  lemma Pushed(q: seq<Proc>, x: Proc, p: Proc)
    ensures In(q + [x], p) == In(q, p) + (if x == p then 1 else 0)
  {
  }

  lemma Taken(q: seq<Proc>, i: nat, p: Proc)
    requires i < |q|
    ensures In(q, p) == In(Without(q, i), p) + (if q[i] == p then 1 else 0)
  {
    assert q == q[..i] + [q[i]] + q[i + 1..];
  }

  lemma {:induction false} RequestPushed(q: seq<Request>, r: Request, p: Proc)
    ensures InRequests(q + [r], p) == InRequests(q, p) + (if r == Request(p, true) then 1 else 0)
  {
    if q != [] {
      assert (q + [r])[1..] == q[1..] + [r];
      RequestPushed(q[1..], r, p);
    }
  }

  lemma {:induction false} WorkerChanged(ws: seq<Worker>, w: nat, x: Worker, p: Proc)
    requires w < |ws|
    ensures InWorkers(ws[w := x], p) + InHand(WorkerHand(ws[w]), p) == InWorkers(ws, p) + InHand(WorkerHand(x), p)
  {
    if w > 0 {
      assert ws[w := x][1..] == ws[1..][w - 1 := x];
      WorkerChanged(ws[1..], w - 1, x, p);
    } else {
      assert ws[0 := x][1..] == ws[1..];
    }
  }

  // ----- steps move processes, they do not copy or drop them

  lemma ConnMoves(s: State, t: State, p: Proc)
    requires s.conn != CIdle && ConnStep(s) == Some(t)
    ensures Copies(t, p) == Copies(s, p) && t.net.live == s.net.live && t.dropped == s.dropped
  {
    hide In, InRequests, InWorkers;
    match s.conn
    case CDelaying(x) => Pushed(s.lfifo, x, p);
    case CNew(x) => Pushed(s.feeds.pn, x, p);
    case CResumed(x) => Pushed(s.feeds.pr, x, p);
    case CRestoring(fd) =>
      if FindProc(s.lps, fd) < |s.lps| {
        Taken(s.lps, FindProc(s.lps, fd), p);
      }
    case _ =>
  }

  lemma LateMoves(s: State, t: State, p: Proc)
    requires (s.late == LWait ==> s.sem.fifo > 0) && (s.late == LToken ==> s.sem.mmp > 0) && LateStep(s) == Some(t)
    ensures Copies(t, p) == Copies(s, p) && t.net.live == s.net.live && t.dropped == s.dropped
  {
    hide In, InRequests, InWorkers;
    match s.late
    case LBoth => Popped(s.lfifo, p);
    case LHand(x) => Pushed(s.feeds.pn, x, p);
    case _ =>
  }

  lemma StsMoves(c: Config, s: State, t: State, p: Proc)
    requires ConfigOk(c) && (s.sts == SWait ==> s.sem.stsIn > 0) && StsStep(c, s) == Some(t)
    ensures Copies(t, p) == Copies(s, p) && t.net.live == s.net.live && t.dropped == s.dropped
  {
    hide In, InRequests, InWorkers;
    match s.sts
    case SPop(i) =>
      if i < 4 {
        Popped(s.feeds.Get(c.order[i]), p);
      }
    case SHand(x, _) => Pushed(s.lpl, x, p);
    case _ =>
  }

  lemma CpuMoves(s: State, t: State, p: Proc)
    requires !s.cpu.PRun? && (s.cpu == PWait ==> s.sem.lpl > 0) && CpuStep(s) == Some(t)
    ensures Copies(t, p) == Copies(s, p) && t.net.live == s.net.live && t.dropped == s.dropped
  {
    hide In, InRequests, InWorkers;
    match s.cpu
    case PToken => Popped(s.lpl, p);
    case PCounted(x, _) => RequestPushed(s.lpb, Request(x, false), p);
    case PBlocking(x) => RequestPushed(s.lpb, Request(x, true), p);
    case _ =>
  }

  lemma RequestPopped(q: seq<Request>, p: Proc)
    requires q != []
    ensures InRequests(q, p) == InRequests(q[1..], p) + InHand(WorkerHand(WBusy(q[0])), p)
  {
  }

  lemma WorkerMoves(s: State, w: nat, t: State, p: Proc)
    requires w < |s.workers|
    requires (s.workers[w] == WWait ==> s.sem.lpb > 0) && (s.workers[w] == WToken ==> s.sem.ioFree > 0)
    requires WorkerStep(s, w) == Some(t)
    ensures Copies(t, p) == Copies(s, p) && t.net.live == s.net.live && t.dropped == s.dropped
  {
    hide In, InRequests, InWorkers;
    WorkerChanged(s.workers, w, t.workers[w], p);
    match s.workers[w]
    case WCleared => RequestPopped(s.lpb, p);
    case WBusy(r) => Pushed(s.feeds.fio, r.proc, p);
    case _ =>
  }

  // the choices the running process makes
  lemma RunningMoves(c: Config, s: State, step: Step, t: State, p: Proc)
    requires ConfigOk(c) && s.cpu.PRun? && Enabled(c, s, step) && Apply(c, s, step) == Some(t)
    requires step.CpuPrints? || step.CpuAsks? || step.CpuBlocks? || step.CpuEndsQuantum? || step.CpuSuspends?
    ensures Copies(t, p) == Copies(s, p) && t.net.live == s.net.live && t.dropped == s.dropped
  {
    hide In, InRequests, InWorkers, ConfigOk;
    match step
    case CpuEndsQuantum => Pushed(s.feeds.fq, s.cpu.p, p);
    case CpuSuspends => Pushed(s.lps, s.cpu.p, p);
    case _ =>
  }

  lemma StepMoves(c: Config, s: State, step: Step, t: State, p: Proc)
    requires ConfigOk(c) && Enabled(c, s, step) && Apply(c, s, step) == Some(t)
    ensures !step.Connect? && step != CpuFinishes ==>
              t.net.live == s.net.live && Copies(t, p) + In(t.dropped, p) == Copies(s, p) + In(s.dropped, p)
    ensures t.dropped == if step == CpuLoses then s.dropped + [s.cpu.p] else s.dropped
  {
    hide In, InRequests, InWorkers, ConfigOk, ConnStep, LateStep, StsStep, CpuStep, WorkerStep;
    match step
    case ConnGoesOn => ConnMoves(s, t, p);
    case LateGoesOn => LateMoves(s, t, p);
    case StsGoesOn => StsMoves(c, s, t, p);
    case CpuGoesOn => CpuMoves(s, t, p);
    case WorkerGoesOn(w) => WorkerMoves(s, w, t, p);
    case Connect(_) =>
    case CpuFinishes =>
    case CpuLoses => Pushed(s.dropped, s.cpu.p, p);
    case Answer(_) =>
    case Deliver(_) =>
    case ClientResumes(_) =>
    case _ => RunningMoves(c, s, step, t, p);
  }

  lemma StepKeepsPlaces(c: Config, s: State, step: Step, t: State)
    requires ConfigOk(c) && Enabled(c, s, step) && Apply(c, s, step) == Some(t)
    requires OnePlace(s) && LiveConnected(s)
    ensures OnePlace(t)
  {
    hide In, InRequests, InWorkers, ConfigOk, ConnStep, LateStep, StsStep, CpuStep, WorkerStep;
    forall p
      ensures Copies(t, p) + In(t.dropped, p) == if IsLive(t, p) then 1 else 0
    {
      assert Copies(s, p) + In(s.dropped, p) == if IsLive(s, p) then 1 else 0;
      StepMoves(c, s, step, t, p);
      match step
      case Connect(fd) =>
      case CpuFinishes => assert Copies(s, s.cpu.p) + In(s.dropped, s.cpu.p) == if IsLive(s, s.cpu.p) then 1 else 0;
      case _ =>
    }
  }
}
