/** When a non-blocking request is accepted or refused at all, by the configuration. */
module Requests {
  import opened Options
  import opened Scheduler
  import opened Tokens
  import opened Runs
  import opened Traces
  import opened Losses

  /** The dispatcher has just pushed a non-blocking request. */
  predicate Accepted(s: State) {
    s.cpu.PAsked?
  }

  /** The dispatcher is about to refuse one: as many requests wait as it counted free threads. */
  predicate Refusing(s: State) {
    s.cpu.PCounted? && s.cpu.free <= |s.lpb|
  }

  /** Requests are made only under a positive quantum, and accepted only where there are threads. */
  predicate RequestsMakeSense(c: Config, s: State) {
    && (HoldsLpb(s.cpu) ==> c.quantum > 0)
    && (s.cpu.PAsked? ==> c.ioThreads > 0)
  }

  lemma StepMakesSense(c: Config, s: State, step: Step, t: State)
    requires ConfigOk(c) && Enabled(c, s, step) && Apply(c, s, step) == Some(t) && Pool(c, s) && RequestsMakeSense(c, s)
    ensures RequestsMakeSense(c, t)
  {
    hide ConfigOk, ConnStep, LateStep, StsStep, WorkerStep;
    if step.ConnGoesOn? || step.LateGoesOn? || step.StsGoesOn? || step.WorkerGoesOn? {
      OthersLeaveCpu(c, s, step, t);
    }
  }

  lemma OthersLeaveCpu(c: Config, s: State, step: Step, t: State)
    requires ConfigOk(c) && Enabled(c, s, step) && Apply(c, s, step) == Some(t)
    requires step.ConnGoesOn? || step.LateGoesOn? || step.StsGoesOn? || step.WorkerGoesOn?
    ensures t.cpu == s.cpu
  {
    hide ConfigOk, CpuStep;
  }

  lemma {:induction false} RunMakesSense(c: Config, s: State, steps: seq<Step>)
    requires ConfigOk(c) && Inv(c, s) && RequestsMakeSense(c, s) && CanRun(c, s, steps)
    ensures Run(c, s, steps).Some? && RequestsMakeSense(c, Run(c, s, steps).value)
    decreases |steps|
  {
    hide Apply, Enabled, Inv, ConfigOk, RequestsMakeSense;
    if steps != [] {
      NoCrash(c, s, steps[0]);
      var t := Apply(c, s, steps[0]).value;
      PoolOf(c, s);
      StepMakesSense(c, s, steps[0], t);
      StepKeepsInv(c, s, steps[0], t);
      RunMakesSense(c, t, steps[1..]);
    }
  }

  lemma PoolOf(c: Config, s: State)
    requires ConfigOk(c) && Inv(c, s)
    ensures Pool(c, s)
  {
    hide Agreement, ReadyAgrees, MmpBalance, MpsBalance, Wakeable, Pool;
  }

  lemma ReachableMakesSense(c: Config, s: State)
    requires ConfigOk(c) && Reachable(c, s)
    ensures RequestsMakeSense(c, s)
  {
    hide Inv, ConfigOk, CanRun, Run;
    var steps :| CanRun(c, Start(c), steps) && Run(c, Start(c), steps) == Some(s);
    StartInv(c);
    RunMakesSense(c, Start(c), steps);
  }

  lemma SomebodyRuns(c: Config, s: State)
    requires ConfigOk(c) && Inv(c, s) && (Accepted(s) || s.cpu.PCounted?)
    ensures c.mps > 0 && c.mmp > 0
  {
    InvIsShared(c, s);
    AdmissionBounds(c, s);
    hide OfConn, OfLate, OfSts, OfWorkers, Owning, Inv, SharedInv;
  }

  /** One more request while no thread looks: it is accepted as long as fewer wait than there are threads. */
  lemma {:induction false} FillsLpb(c: Config, from: State, s: State, p: Proc, k: nat) returns (t: State)
    requires ConfigOk(c) && Leads(c, from, s) && c.quantum > 0
    requires s.cpu == PRun(p) && |s.lpb| + k <= s.sem.ioFree
    ensures Leads(c, from, t) && |t.lpb| == |s.lpb| + k
    ensures t == s.(lpb := t.lpb, sem := s.sem.(lpb := s.sem.lpb + k))
    decreases k
  {
    hide Leads, ConfigOk;
    t := s;
    if k > 0 {
      t := AsksOnce(c, from, s, p);
      var a := t;
      t := t.(sem := t.sem.(lpb := t.sem.lpb + 1), cpu := PRun(p));
      Next(c, from, a, CpuGoesOn, t);
      t := FillsLpb(c, from, t, p, k - 1);
    }
  }

  lemma Counts(c: Config, from: State, s: State, p: Proc) returns (t: State)
    requires ConfigOk(c) && Leads(c, from, s) && c.quantum > 0 && s.cpu == PRun(p)
    ensures Leads(c, from, t) && t == s.(cpu := PCounted(p, s.sem.ioFree))
  {
    hide Leads, ConfigOk;
    var a := s.(cpu := PAsking(p));
    Next(c, from, s, CpuAsks, a);
    t := s.(cpu := PCounted(p, s.sem.ioFree));
    Next(c, from, a, CpuGoesOn, t);
  }

  lemma AsksOnce(c: Config, from: State, s: State, p: Proc) returns (t: State)
    requires ConfigOk(c) && Leads(c, from, s) && c.quantum > 0 && s.cpu == PRun(p) && |s.lpb| < s.sem.ioFree
    ensures Leads(c, from, t) && t == s.(lpb := s.lpb + [Request(p, false)], cpu := PAsked(p))
  {
    hide Leads, ConfigOk;
    var a := Counts(c, from, s, p);
    t := s.(lpb := s.lpb + [Request(p, false)], cpu := PAsked(p));
    Next(c, from, a, CpuGoesOn, t);
  }

  lemma FirstRuns(c: Config) returns (p: Proc, from: State, s: State)
    requires ConfigOk(c) && c.mps > 0 && c.mmp > 0
    ensures Reachable(c, from) && Leads(c, from, s)
    ensures s.cpu == PRun(p) && s.lpb == [] && s.sem.ioFree == c.ioThreads
  {
    hide Reachable, Leads;
    var k;
    p, k, from := FirstProcessReady(c);
    Stays(c, from);
    s := Dispatches(c, from, from);
  }

  /** Some run accepts a non-blocking request, if and only if a process can run statements and there are
      I/O threads. */
  lemma AcceptedExactlyWhen(c: Config)
    requires ConfigOk(c)
    ensures (exists s :: Reachable(c, s) && Accepted(s)) <==> c.mps > 0 && c.mmp > 0 && c.quantum > 0 && c.ioThreads > 0
  {
    hide Reachable, Leads, Inv, ConfigOk;
    if c.mps > 0 && c.mmp > 0 && c.quantum > 0 && c.ioThreads > 0 {
      var p, from, s := FirstRuns(c);
      var t := AsksOnce(c, from, s, p);
      LeadsToReachable(c, from, t);
    }
    forall s | Reachable(c, s) && Accepted(s)
      ensures c.mps > 0 && c.mmp > 0 && c.quantum > 0 && c.ioThreads > 0
    {
      ReachableKeepsInv(c, s);
      ReachableMakesSense(c, s);
      SomebodyRuns(c, s);
    }
  }

  /** Some run refuses one, if and only if a process can run statements, however many threads there are. */
  lemma RefusedExactlyWhen(c: Config)
    requires ConfigOk(c)
    ensures (exists s :: Reachable(c, s) && Refusing(s)) <==> c.mps > 0 && c.mmp > 0 && c.quantum > 0
  {
    hide Reachable, Leads, Inv, ConfigOk;
    if c.mps > 0 && c.mmp > 0 && c.quantum > 0 {
      var p, from, s := FirstRuns(c);
      var t := FillsLpb(c, from, s, p, c.ioThreads);
      t := Counts(c, from, t, p);
      LeadsToReachable(c, from, t);
    }
    forall s | Reachable(c, s) && Refusing(s)
      ensures c.mps > 0 && c.mmp > 0 && c.quantum > 0
    {
      ReachableKeepsInv(c, s);
      ReachableMakesSense(c, s);
      SomebodyRuns(c, s);
    }
  }

  /** Refusing is telling the client, and the process goes on; accepting is queueing, and it goes on too. */
  lemma AnsweredEitherWay(c: Config, s: State, t: State)
    requires ConfigOk(c) && s.cpu.PCounted? && CpuStep(s) == Some(t)
    ensures Refusing(s) <==> t.cpu == PRun(s.cpu.p)
    ensures Refusing(s) ==> t == Enqueue(s, Msg(s.cpu.p.fd, Note)).(cpu := t.cpu)
    ensures !Refusing(s) <==> Accepted(t) && t.lpb == s.lpb + [Request(s.cpu.p, false)]
  {
  }
}
