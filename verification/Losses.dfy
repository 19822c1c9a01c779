/** Exactly which configurations let the dispatcher lose a process. */
module Losses {
  import opened Options
  import opened Scheduler
  import opened Conservation
  import opened Protocol
  import opened Runs
  import opened Traces

  /** In every reachable state every live process is in exactly one place, and nothing else is anywhere. */
  ghost predicate AlwaysConserved(c: Config)
    requires ConfigOk(c)
  {
    forall s, p :: Reachable(c, s) ==> Copies(s, p) == if IsLive(s, p) then 1 else 0
  }

  lemma ReachableKeepsInv(c: Config, s: State)
    requires ConfigOk(c) && Reachable(c, s)
    ensures Inv(c, s)
  {
    hide Inv, Start, ConfigOk;
    var steps :| CanRun(c, Start(c), steps) && Run(c, Start(c), steps) == Some(s);
    EveryRunIsSafe(c, steps);
  }

  // Room for nobody, or a quantum that is not negative: nothing is ever let go of.
  lemma NothingDropped(c: Config, s: State)
    requires ConfigOk(c) && Inv(c, s) && (c.quantum >= 0 || c.mps == 0 || c.mmp == 0)
    ensures s.dropped == []
  {
    hide Inv;
    InvIsShared(c, s);
    AdmissionBounds(c, s);
    LiveProcessHasOnePlace(c, s, Proc(0, 0));
  }

  // With room for one process, a negative quantum loses the first.
  lemma FirstProcessDropped(c: Config) returns (s: State, p: Proc)
    requires ConfigOk(c) && c.quantum < 0 && c.mps > 0 && c.mmp > 0
    ensures Reachable(c, s) && IsLive(s, p) && s.dropped == [p]
  {
    hide Reachable, Leads;
    var k;
    p, k, s := FirstProcessReady(c);
    var ready := s;
    Stays(c, ready);
    s := Dispatches(c, ready, s);
    s := Loses(c, ready, s);
    LeadsToReachable(c, ready, s);
  }

  /**
   * Conservation holds in every run, if and only if the configured quantum is not negative, except
   * that with MPS or MMP zero no process ever runs.
   */
  lemma ConservedExactlyWhen(c: Config)
    requires ConfigOk(c)
    ensures AlwaysConserved(c) <==> c.quantum >= 0 || c.mps == 0 || c.mmp == 0
  {
    hide ConfigOk, Reachable, Inv, Copies;
    if c.quantum >= 0 || c.mps == 0 || c.mmp == 0 {
      forall s, p | Reachable(c, s) ensures Copies(s, p) == if IsLive(s, p) then 1 else 0 {
        ReachableKeepsInv(c, s);
        NothingDropped(c, s);
        LiveProcessHasOnePlace(c, s, p);
        HeldOnceOf(c, s, p);
      }
    } else {
      var s, p := FirstProcessDropped(c);
      ReachableKeepsInv(c, s);
      LiveProcessHasOnePlace(c, s, p);
      assert p in s.dropped;
    }
  }

  lemma HeldOnceOf(c: Config, s: State, p: Proc)
    requires ConfigOk(c) && Inv(c, s) && s.dropped == []
    ensures Copies(s, p) == if IsLive(s, p) then 1 else 0
  {
    hide Copies;
    HeldOnce(s, p);
  }

  /** How often the dispatcher falls through its four tests in a run. */
  function Lost(steps: seq<Step>): nat {
    if steps == [] then 0 else (if steps[0] == CpuLoses then 1 else 0) + Lost(steps[1..])
  }

  lemma {:induction false} RunDrops(c: Config, s: State, steps: seq<Step>)
    requires ConfigOk(c) && Inv(c, s) && CanRun(c, s, steps)
    ensures Run(c, s, steps).Some? && |Run(c, s, steps).value.dropped| == |s.dropped| + Lost(steps)
    decreases |steps|
  {
    hide Apply, Enabled, Inv, ConfigOk;
    if steps != [] {
      NoCrash(c, s, steps[0]);
      var t := Apply(c, s, steps[0]).value;
      StepDrops(c, s, steps[0], t);
      StepKeepsInv(c, s, steps[0], t);
      RunDrops(c, t, steps[1..]);
    }
  }

  /** A run loses as many processes as it takes the step that loses one: without that step, every
      live process is in exactly one place at its end. */
  lemma RunLosesExactly(c: Config, steps: seq<Step>)
    requires ConfigOk(c) && CanRun(c, Start(c), steps)
    ensures Run(c, Start(c), steps).Some? && |Run(c, Start(c), steps).value.dropped| == Lost(steps)
    ensures var s := Run(c, Start(c), steps).value;
            (forall p :: IsLive(s, p) ==> Copies(s, p) == 1) <==> Lost(steps) == 0
  {
    hide Copies, ConfigOk, Inv, CanRun, Run;
    StartInv(c);
    RunDrops(c, Start(c), steps);
    EveryRunIsSafe(c, steps);
    var s := Run(c, Start(c), steps).value;
    forall p ensures (Copies(s, p) == 1 <==> IsLive(s, p) && p !in s.dropped) && (p in s.dropped ==> IsLive(s, p)) {
      LiveProcessHasOnePlace(c, s, p);
    }
    if Lost(steps) > 0 {
      assert s.dropped[0] in s.dropped;
    }
  }

  lemma StartInv(c: Config)
    requires ConfigOk(c)
    ensures Inv(c, Start(c))
  {
    hide Inv, ConfigOk;
    EveryRunIsSafe(c, []);
  }
}
