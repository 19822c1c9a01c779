/** Clients that use one descriptor one after the other: what was sent to the first never reaches the second. */
module Isolation {
  import opened Options
  import opened Scheduler
  import opened Conservation
  import opened Protocol
  import opened Runs

  /** What waits for a client whose process has ended closes with 'T'; nothing waits for one that is gone. */
  predicate Settled(s: State, fd: nat) {
    var q := For(s.net.sending, fd);
    && (Alive(s, fd) && fd !in s.net.live ==> q != [] && q[|q| - 1] == Msg(fd, Finished))
    && (!Alive(s, fd) ==> q == [])
  }

  ghost predicate AllSettled(s: State) {
    forall fd :: Settled(s, fd)
  }

  lemma {:induction false} ForKeepsMessages(q: seq<Msg>, fd: nat, m: Msg)
    requires m.fd == fd
    ensures multiset(For(q, fd))[m] == multiset(q)[m]
  {
    if q != [] {
      ForKeepsMessages(q[1..], fd, m);
      assert q == [q[0]] + q[1..];
    }
  }

  lemma FirstAndLast<T>(q: seq<T>, x: T)
    requires |q| > 1 && q[0] == x == q[|q| - 1]
    ensures multiset(q)[x] >= 2
  {
    assert q == [q[0]] + q[1..|q| - 1] + [q[|q| - 1]];
  }

  /** Delivering a 'T' is delivering the last message that waits for its client. */
  lemma FinishedIsLast(s: State, fd: nat)
    requires Tenant(s, fd) && Settled(s, fd) && FindMsg(s.net.sending, fd) < |s.net.sending|
    requires s.net.sending[FindMsg(s.net.sending, fd)].kind == Finished
    ensures For(Without(s.net.sending, FindMsg(s.net.sending, fd)), fd) == []
  {
    var q, m := For(s.net.sending, fd), Msg(fd, Finished);
    ForWithout(s.net.sending, fd, fd);
    ForKeepsMessages(s.net.sending, fd, m);
    assert m in multiset(q);
    if |q| > 1 {
      FirstAndLast(q, m);
    }
  }

  lemma DeliverSettles(s: State, fd: nat, to: nat)
    requires Tenant(s, fd) && Settled(s, fd) && Settled(s, to)
    requires Alive(s, fd) && FindMsg(s.net.sending, fd) < |s.net.sending|
    ensures Settled(DeliverStep(s, fd), to)
  {
    hide For, Without, Tenant;
    ForWithout(s.net.sending, fd, to);
    if s.net.sending[FindMsg(s.net.sending, fd)].kind == Finished {
      FinishedIsLast(s, fd);
      FinishedOfEnded(s, fd);
    }
  }

  lemma FinishedOfEnded(s: State, fd: nat)
    requires Tenant(s, fd) && FindMsg(s.net.sending, fd) < |s.net.sending|
    requires s.net.sending[FindMsg(s.net.sending, fd)].kind == Finished
    ensures fd !in s.net.live
  {
    assert s.net.sending[FindMsg(s.net.sending, fd)] == Msg(fd, Finished);
    assert Msg(fd, Finished) in multiset(s.net.sending);
  }

  /** The dispatcher sends only to a live process's client. */
  lemma SendsToTheLiving(c: Config, s: State, step: Step)
    requires ConfigOk(c) && IsCpu(step) && Enabled(c, s, step) && OnePlace(s) && Matched(s)
    ensures Queues(s, step).Some? ==> Queues(s, step).value.fd in s.net.live
  {
    hide InRequests, InWorkers, In, Messages;
    match s.cpu
    case PTelling(fd) => assert Pending(s, fd) == OnLps(s, fd);
    case PRun(p) => HeldOnce(s, p);
    case PCounted(p, _) => HeldOnce(s, p);
    case _ =>
  }

  lemma CpuSettles(c: Config, s: State, step: Step, t: State, fd: nat)
    requires ConfigOk(c) && IsCpu(step) && Enabled(c, s, step) && Apply(c, s, step) == Some(t)
    requires OnePlace(s) && ProtocolOk(s) && Settled(s, fd)
    ensures Settled(t, fd)
  {
    TenantsAreConnected(s);
    hide Apply, For, ConfigOk, OnePlace, Matched, Tenancy, InOrder, CpuTells;
    CpuQueues(c, s, step, t);
    SendsToTheLiving(c, s, step);
    if Queues(s, step).Some? {
      ForAppends(s.net.sending, Queues(s, step).value, fd);
    }
  }

  // connecting, answering and reading an answer
  lemma SameMessagesSettle(s: State, t: State, fd: nat)
    requires Settled(s, fd) && t.net.sending == s.net.sending
    requires Alive(t, fd) == Alive(s, fd) && (fd in t.net.live) == (fd in s.net.live)
    ensures Settled(t, fd)
  {
  }

  lemma OthersLeaveAlone(c: Config, s: State, step: Step, t: State, fd: nat)
    requires ConfigOk(c) && Enabled(c, s, step) && Apply(c, s, step) == Some(t) && AnswersFound(s)
    requires !IsCpu(step) && !step.Deliver?
    ensures t.net.sending == s.net.sending
    ensures step == Connect(fd) || (Alive(t, fd) == Alive(s, fd) && (fd in t.net.live) == (fd in s.net.live))
    ensures step == Connect(fd) ==> t == s || (Alive(t, fd) && fd in t.net.live)
  {
    hide StsStep, CpuStep, WorkerStep, LateStep;
    if step.StsGoesOn? || step.WorkerGoesOn? || step.LateGoesOn? {
      OthersKeepProtocol(c, s, step, t);
    }
  }

  lemma StepSettles(c: Config, s: State, step: Step, t: State)
    requires ConfigOk(c) && Enabled(c, s, step) && Apply(c, s, step) == Some(t)
    requires OnePlace(s) && ProtocolOk(s) && AllSettled(s)
    ensures AllSettled(t)
  {
    hide ConnStep, LateStep, StsStep, CpuStep, WorkerStep, For, ConfigOk, Settled;
    forall fd
      ensures Settled(t, fd)
    {
      assert Settled(s, fd);
      if IsCpu(step) {
        CpuSettles(c, s, step, t, fd);
      } else if step.Deliver? {
        assert Tenant(s, step.fd) && Settled(s, step.fd);
        DeliverSettles(s, step.fd, fd);
      } else {
        OthersLeaveAlone(c, s, step, t, fd);
        OthersSettle(s, t, fd);
      }
    }
  }

  lemma OthersSettle(s: State, t: State, fd: nat)
    requires Settled(s, fd) && t.net.sending == s.net.sending
    requires (Alive(t, fd) == Alive(s, fd) && (fd in t.net.live) == (fd in s.net.live))
            || (Alive(t, fd) && fd in t.net.live)
    ensures Settled(t, fd)
  {
  }

  lemma {:induction false} RunSettles(c: Config, s: State, steps: seq<Step>)
    requires ConfigOk(c) && Inv(c, s) && AllSettled(s) && CanRun(c, s, steps)
    ensures Run(c, s, steps).Some? && AllSettled(Run(c, s, steps).value)
    decreases |steps|
  {
    hide Apply, Enabled, ConfigOk, AllSettled, OnePlace, ProtocolOk;
    if steps != [] {
      NoCrash(c, s, steps[0]);
      var t := Apply(c, s, steps[0]).value;
      StepKeepsInv(c, s, steps[0], t);
      StepSettles(c, s, steps[0], t);
      RunSettles(c, t, steps[1..]);
    }
  }

  lemma EveryRunSettles(c: Config, steps: seq<Step>, fd: nat)
    requires ConfigOk(c) && CanRun(c, Start(c), steps)
    ensures Run(c, Start(c), steps).Some?
    ensures var s := Run(c, Start(c), steps).value; Settled(s, fd) && Tenant(s, fd) && InOrder(s)
  {
    hide CanRun, Run, ConfigOk, Settled, Tenant, InOrder;
    forall to ensures Settled(Start(c), to) {
      NothingWaits(c, to);
    }
    EveryRunIsSafe(c, []);
    assert Run(c, Start(c), []) == Some(Start(c)) by { EmptyRun(c); }
    EveryRunIsSafe(c, steps);
    RunSettles(c, Start(c), steps);
  }

  lemma NothingWaits(c: Config, fd: nat)
    ensures Settled(Start(c), fd)
  {
  }

  lemma EmptyRun(c: Config)
    requires ConfigOk(c)
    ensures CanRun(c, Start(c), []) && Run(c, Start(c), []) == Some(Start(c))
  {
  }

  /** When a client connects, everything ever sent to the descriptor was delivered before, in order. */
  lemma NextClientStartsClean(c: Config, steps: seq<Step>, fd: nat)
    requires ConfigOk(c) && CanRun(c, Start(c), steps)
    ensures Run(c, Start(c), steps).Some?
    ensures var s := Run(c, Start(c), steps).value;
            Enabled(c, s, Connect(fd)) ==>
              For(s.net.sending, fd) == [] && For(s.net.delivered, fd) == For(s.net.enqueued, fd)
  {
    hide CanRun, Run, ConfigOk, For, Start;
    EveryRunSettles(c, steps, fd);
    var s := Run(c, Start(c), steps).value;
    assert For(s.net.delivered, fd) + For(s.net.sending, fd) == For(s.net.enqueued, fd);
  }

  /** The message a client gets next is 'T', if and only if its process has ended and nothing else waits for it. */
  lemma FinishedExactlyWhenLast(c: Config, steps: seq<Step>, fd: nat)
    requires ConfigOk(c) && CanRun(c, Start(c), steps)
    ensures Run(c, Start(c), steps).Some?
    ensures var s := Run(c, Start(c), steps).value;
            Enabled(c, s, Deliver(fd)) ==>
              var m := s.net.sending[FindMsg(s.net.sending, fd)];
              m.kind == Finished <==> fd !in s.net.live && For(s.net.sending, fd) == [m]
  {
    hide CanRun, Run, ConfigOk, For, Start, Without, Messages;
    EveryRunSettles(c, steps, fd);
    var s := Run(c, Start(c), steps).value;
    if Enabled(c, s, Deliver(fd)) {
      ForWithout(s.net.sending, fd, fd);
      if s.net.sending[FindMsg(s.net.sending, fd)].kind == Finished {
        FinishedIsLast(s, fd);
        FinishedOfEnded(s, fd);
      }
    }
  }
}
