/** Every queue of the system is first in, first out, over whole runs: what was taken out of it so
    far, in order, followed by what it holds, is what was put into it, in order. Who enters and who
    leaves is read off the hand of the thread that pushes or pops. */
module FirstInFirstOut {
  import opened Options
  import opened Scheduler
  import opened Tokens
  import opened Runs

  datatype Queue = LFIFO | Of(feed: Feed) | LPL

  function Content(s: State, q: Queue): seq<Proc> {
    match q
    case LFIFO => s.lfifo
    case Of(f) => s.feeds.Get(f)
    case LPL => s.lpl
  }

  /** The process a step pushes to `q`: the thread had it in hand. */
  function Entering(s: State, step: Step, q: Queue): seq<Proc> {
    match q
    case LFIFO => if step.ConnGoesOn? && s.conn.CDelaying? then [s.conn.p] else []
    case Of(PLPN) =>
      if step.ConnGoesOn? && s.conn.CNew? then [s.conn.p]
      else if step.LateGoesOn? && s.late.LHand? then [s.late.p]
      else []
    case Of(PLPR) => if step.ConnGoesOn? && s.conn.CResumed? then [s.conn.p] else []
    case Of(PLFQ) => if step.CpuEndsQuantum? && s.cpu.PRun? then [s.cpu.p] else []
    case Of(PLFIO) =>
      if step.WorkerGoesOn? && step.w < |s.workers| && s.workers[step.w].WBusy? && s.workers[step.w].r.blocking
      then [s.workers[step.w].r.proc]
      else []
    case LPL => if step.StsGoesOn? && s.sts.SHand? then [s.sts.p] else []
  }

  /** The process a step from `s` to `t` pops from `q`: the thread has it in hand. */
  function Leaving(c: Config, s: State, step: Step, t: State, q: Queue): seq<Proc>
    requires ConfigOk(c)
  {
    match q
    case LFIFO => if step.LateGoesOn? && t.late.LHand? then [t.late.p] else []
    case Of(f) =>
      if step.StsGoesOn? && s.sts.SPop? && s.sts.i < 4 && c.order[s.sts.i] == f && t.sts.SHand? then [t.sts.p] else []
    case LPL => if step.CpuGoesOn? && s.cpu == PToken && t.cpu.PRun? then [t.cpu.p] else []
  }

  ghost predicate InTurn(c: Config, s: State, step: Step, t: State, q: Queue)
    requires ConfigOk(c)
  {
    Leaving(c, s, step, t, q) + Content(t, q) == Content(s, q) + Entering(s, step, q)
  }

  lemma ConnInTurn(c: Config, s: State, t: State, q: Queue)
    requires ConfigOk(c) && Enabled(c, s, ConnGoesOn) && ConnStep(s) == Some(t)
    ensures InTurn(c, s, ConnGoesOn, t, q)
  {
    hide FindProc, Without, ConfigOk;
  }

  lemma LateInTurn(c: Config, s: State, t: State, q: Queue)
    requires ConfigOk(c) && Enabled(c, s, LateGoesOn) && LateStep(s) == Some(t)
    ensures InTurn(c, s, LateGoesOn, t, q)
  {
    hide ConfigOk;
    assert s.late == LBoth ==> s.lfifo == [s.lfifo[0]] + s.lfifo[1..];
  }

  lemma StsInTurn(c: Config, s: State, t: State, q: Queue)
    requires ConfigOk(c) && Enabled(c, s, StsGoesOn) && StsStep(c, s) == Some(t)
    ensures InTurn(c, s, StsGoesOn, t, q)
  {
    if s.sts.SPop? {
      var queue := s.feeds.Get(c.order[s.sts.i]);
      assert queue == [queue[0]] + queue[1..];
    }
  }

  lemma CpuInTurn(c: Config, s: State, t: State, q: Queue)
    requires ConfigOk(c) && Enabled(c, s, CpuGoesOn) && CpuStep(s) == Some(t)
    ensures InTurn(c, s, CpuGoesOn, t, q)
  {
    hide ConfigOk;
    assert s.cpu == PToken ==> s.lpl == [s.lpl[0]] + s.lpl[1..];
  }

  lemma WorkerInTurn(c: Config, s: State, w: nat, t: State, q: Queue)
    requires ConfigOk(c) && Enabled(c, s, WorkerGoesOn(w)) && WorkerStep(s, w) == Some(t)
    ensures InTurn(c, s, WorkerGoesOn(w), t, q)
  {
    hide ConfigOk;
  }

  lemma ChoiceInTurn(c: Config, s: State, step: Step, t: State, q: Queue)
    requires ConfigOk(c) && IsChoice(step) && Enabled(c, s, step) && Apply(c, s, step) == Some(t)
    ensures InTurn(c, s, step, t, q)
  {
    hide ConfigOk, ConnStep, LateStep, StsStep, CpuStep, WorkerStep;
    if !step.CpuEndsQuantum? {
      hide Apply, Enabled;
      ChoiceLeavesQueues(c, s, step, t);
    }
  }

  lemma ChoiceLeavesQueues(c: Config, s: State, step: Step, t: State)
    requires ConfigOk(c) && IsChoice(step) && Enabled(c, s, step) && Apply(c, s, step) == Some(t)
    requires !step.CpuEndsQuantum?
    ensures t.lfifo == s.lfifo && t.feeds == s.feeds && t.lpl == s.lpl && t.lpb == s.lpb
  {
    hide ConfigOk, ConnStep, LateStep, StsStep, CpuStep, WorkerStep;
  }

  /** What leaves was at the head and what enters goes to the end. */
  lemma StepInTurn(c: Config, s: State, step: Step, t: State, q: Queue)
    requires ConfigOk(c) && Enabled(c, s, step) && Apply(c, s, step) == Some(t)
    ensures InTurn(c, s, step, t, q)
  {
    hide InTurn, Enabled, ConfigOk;
    match step
    case ConnGoesOn => ConnInTurn(c, s, t, q);
    case LateGoesOn => LateInTurn(c, s, t, q);
    case StsGoesOn => StsInTurn(c, s, t, q);
    case CpuGoesOn => CpuInTurn(c, s, t, q);
    case WorkerGoesOn(w) => WorkerInTurn(c, s, w, t, q);
    case _ => ChoiceInTurn(c, s, step, t, q);
  }

  // ----- requests in LPB

  function RequestEntering(s: State, step: Step, t: State): seq<Request> {
    if step.CpuGoesOn? && s.cpu.PCounted? && t.cpu.PAsked? then [Request(s.cpu.p, false)]
    else if step.CpuGoesOn? && s.cpu.PBlocking? then [Request(s.cpu.p, true)]
    else []
  }

  function RequestLeaving(s: State, step: Step, t: State): seq<Request> {
    if step.WorkerGoesOn? && step.w < |s.workers| == |t.workers| && s.workers[step.w] == WCleared
       && t.workers[step.w].WBusy?
    then [t.workers[step.w].r]
    else []
  }

  ghost predicate RequestInTurn(s: State, step: Step, t: State) {
    RequestLeaving(s, step, t) + t.lpb == s.lpb + RequestEntering(s, step, t)
  }

  lemma StepServesInTurn(c: Config, s: State, step: Step, t: State)
    requires ConfigOk(c) && Enabled(c, s, step) && Apply(c, s, step) == Some(t)
    ensures RequestInTurn(s, step, t)
  {
    hide ConfigOk, ConnStep, LateStep, StsStep, CpuStep, WorkerStep;
    match step
    case ConnGoesOn => ConnLeavesLpb(s, t);
    case LateGoesOn => LateLeavesLpb(s, t);
    case StsGoesOn => StsLeavesLpb(c, s, t);
    case CpuGoesOn => CpuAsksInTurn(s, t);
    case WorkerGoesOn(w) => WorkerServesInTurn(s, w, t);
    case CpuEndsQuantum =>
    case _ => ChoiceLeavesQueues(c, s, step, t);
  }

  lemma ConnLeavesLpb(s: State, t: State)
    requires s.conn != CIdle && ConnStep(s) == Some(t)
    ensures t.lpb == s.lpb
  {
  }

  lemma LateLeavesLpb(s: State, t: State)
    requires (s.late == LWait ==> s.sem.fifo > 0) && (s.late == LToken ==> s.sem.mmp > 0) && LateStep(s) == Some(t)
    ensures t.lpb == s.lpb
  {
  }

  lemma StsLeavesLpb(c: Config, s: State, t: State)
    requires ConfigOk(c) && (s.sts == SWait ==> s.sem.stsIn > 0) && StsStep(c, s) == Some(t)
    ensures t.lpb == s.lpb
  {
  }

  lemma CpuAsksInTurn(s: State, t: State)
    requires !s.cpu.PRun? && (s.cpu == PWait ==> s.sem.lpl > 0) && CpuStep(s) == Some(t)
    ensures RequestInTurn(s, CpuGoesOn, t)
  {
  }

  lemma WorkerServesInTurn(s: State, w: nat, t: State)
    requires w < |s.workers|
    requires (s.workers[w] == WWait ==> s.sem.lpb > 0) && (s.workers[w] == WToken ==> s.sem.ioFree > 0)
    requires WorkerStep(s, w) == Some(t)
    ensures RequestInTurn(s, WorkerGoesOn(w), t)
  {
    assert s.workers[w] == WCleared ==> s.lpb == [s.lpb[0]] + s.lpb[1..];
  }

  // ----- whole runs

  /** Everything pushed to `q` during a run, in order. */
  function Entered(c: Config, s: State, steps: seq<Step>, q: Queue): seq<Proc>
    requires ConfigOk(c) && CanRun(c, s, steps) && Run(c, s, steps).Some?
    decreases |steps|
  {
    if steps == [] then []
    else Entering(s, steps[0], q) + Entered(c, Apply(c, s, steps[0]).value, steps[1..], q)
  }

  /** Everything popped from `q` during a run, in order. */
  function Left(c: Config, s: State, steps: seq<Step>, q: Queue): seq<Proc>
    requires ConfigOk(c) && CanRun(c, s, steps) && Run(c, s, steps).Some?
    decreases |steps|
  {
    if steps == [] then []
    else
      var t := Apply(c, s, steps[0]).value;
      Leaving(c, s, steps[0], t, q) + Left(c, t, steps[1..], q)
  }

  function Asked(c: Config, s: State, steps: seq<Step>): seq<Request>
    requires ConfigOk(c) && CanRun(c, s, steps) && Run(c, s, steps).Some?
    decreases |steps|
  {
    if steps == [] then []
    else
      var t := Apply(c, s, steps[0]).value;
      RequestEntering(s, steps[0], t) + Asked(c, t, steps[1..])
  }

  function Served(c: Config, s: State, steps: seq<Step>): seq<Request>
    requires ConfigOk(c) && CanRun(c, s, steps) && Run(c, s, steps).Some?
    decreases |steps|
  {
    if steps == [] then []
    else
      var t := Apply(c, s, steps[0]).value;
      RequestLeaving(s, steps[0], t) + Served(c, t, steps[1..])
  }

  lemma Chained<T>(left: seq<T>, was: seq<T>, entered: seq<T>, now: seq<T>,
                   lefts: seq<T>, enters: seq<T>, end: seq<T>)
    requires left + now == was + entered && lefts + end == now + enters
    ensures (left + lefts) + end == was + (entered + enters)
  {
    calc {
      (left + lefts) + end;
      left + (lefts + end);
      left + (now + enters);
      (left + now) + enters;
      (was + entered) + enters;
      was + (entered + enters);
    }
  }

  lemma {:induction false} RunInTurn(c: Config, s: State, steps: seq<Step>, q: Queue)
    requires ConfigOk(c) && CanRun(c, s, steps) && Run(c, s, steps).Some?
    ensures Left(c, s, steps, q) + Content(Run(c, s, steps).value, q) == Content(s, q) + Entered(c, s, steps, q)
    decreases |steps|
  {
    hide Apply, Enabled, ConfigOk, Content, Entering, Leaving;
    if steps != [] {
      var t := Apply(c, s, steps[0]).value;
      var end := Content(Run(c, s, steps).value, q);
      StepInTurn(c, s, steps[0], t, q);
      RunInTurn(c, t, steps[1..], q);
      Chained(Leaving(c, s, steps[0], t, q), Content(s, q), Entering(s, steps[0], q), Content(t, q),
              Left(c, t, steps[1..], q), Entered(c, t, steps[1..], q), end);
    }
  }

  lemma {:induction false} RunServesInTurn(c: Config, s: State, steps: seq<Step>)
    requires ConfigOk(c) && CanRun(c, s, steps) && Run(c, s, steps).Some?
    ensures Served(c, s, steps) + Run(c, s, steps).value.lpb == s.lpb + Asked(c, s, steps)
    decreases |steps|
  {
    hide Apply, Enabled, ConfigOk, RequestEntering, RequestLeaving;
    if steps != [] {
      var t := Apply(c, s, steps[0]).value;
      StepServesInTurn(c, s, steps[0], t);
      RunServesInTurn(c, t, steps[1..]);
      Chained(RequestLeaving(s, steps[0], t), s.lpb, RequestEntering(s, steps[0], t), t.lpb,
              Served(c, t, steps[1..]), Asked(c, t, steps[1..]), Run(c, s, steps).value.lpb);
    }
  }

  /**
   * Every run under FIFO or RR: what was taken out of LFIFO, of each feed and of LPL, in order,
   * followed by what is there, is what was put in, in order; and so for the requests in LPB.
   */
  lemma EveryQueueIsFifo(c: Config, steps: seq<Step>, q: Queue)
    requires ConfigOk(c) && CanRun(c, Start(c), steps)
    ensures Run(c, Start(c), steps).Some?
    ensures var s := Run(c, Start(c), steps).value;
            && Left(c, Start(c), steps, q) + Content(s, q) == Entered(c, Start(c), steps, q)
            && Served(c, Start(c), steps) + s.lpb == Asked(c, Start(c), steps)
  {
    hide CanRun, Run, ConfigOk, Left, Entered, Served, Asked, Inv;
    EveryRunIsSafe(c, steps);
    RunInTurn(c, Start(c), steps, q);
    RunServesInTurn(c, Start(c), steps);
    assert Content(Start(c), q) == [] && Start(c).lpb == [];
  }
}
