/** Process identifiers are given out in order and never twice. */
module Pids {
  import opened Options
  import opened Scheduler
  import opened Protocol
  import opened Runs

  /** The identifier a step gives out, if it admits a client. */
  function Given(s: State, step: Step, t: State): seq<nat> {
    if step.Connect? && t != s && step.fd in t.net.live then [t.net.live[step.fd]] else []
  }

  /** All those a run gives out, in order. */
  function AllGiven(c: Config, s: State, steps: seq<Step>): seq<nat>
    requires ConfigOk(c) && CanRun(c, s, steps) && Run(c, s, steps).Some?
    decreases |steps|
  {
    if steps == [] then []
    else
      var t := Apply(c, s, steps[0]).value;
      Given(s, steps[0], t) + AllGiven(c, t, steps[1..])
  }

  /** Live processes have identifiers given out before, all different. */
  ghost predicate PidsOk(s: State) {
    && (forall fd :: fd in s.net.live ==> s.net.live[fd] < s.net.nextPid)
    && (forall a, b :: a in s.net.live && b in s.net.live && a != b ==> s.net.live[a] != s.net.live[b])
  }

  lemma OthersKeepProcesses(c: Config, s: State, step: Step, t: State)
    requires ConfigOk(c) && Enabled(c, s, step) && Apply(c, s, step) == Some(t) && !step.Connect?
    ensures t.net.nextPid == s.net.nextPid
    ensures if step.CpuFinishes? then t.net.live == s.net.live - {s.cpu.p.fd} else t.net.live == s.net.live
  {
    hide LateStep, StsStep, CpuStep, WorkerStep, ConfigOk;
    if step.LateGoesOn? || step.StsGoesOn? || step.WorkerGoesOn? {
      OthersKeepProtocol(c, s, step, t);
    } else if IsCpu(step) {
      CpuQueues(c, s, step, t);
    }
  }

  lemma StepGives(c: Config, s: State, step: Step, t: State)
    requires ConfigOk(c) && Enabled(c, s, step) && Apply(c, s, step) == Some(t) && PidsOk(s)
    ensures PidsOk(t) && t.net.nextPid == s.net.nextPid + |Given(s, step, t)|
    ensures Given(s, step, t) != [] ==> Given(s, step, t) == [s.net.nextPid]
  {
    hide ConfigOk;
    if !step.Connect? {
      hide Apply, Enabled;
      OthersKeepProcesses(c, s, step, t);
    }
  }

  lemma {:induction false} RunGives(c: Config, s: State, steps: seq<Step>)
    requires ConfigOk(c) && CanRun(c, s, steps) && Run(c, s, steps).Some? && PidsOk(s)
    ensures var end, given := Run(c, s, steps).value, AllGiven(c, s, steps);
            && PidsOk(end) && end.net.nextPid == s.net.nextPid + |given|
            && forall i :: 0 <= i < |given| ==> given[i] == s.net.nextPid + i
    decreases |steps|
  {
    hide Apply, Enabled, ConfigOk, PidsOk, Given;
    if steps != [] {
      var t := Apply(c, s, steps[0]).value;
      StepGives(c, s, steps[0], t);
      RunGives(c, t, steps[1..]);
    }
  }

  /** In every run the clients admitted get 11, 12, 13, … in this order, and no two live processes share one. */
  lemma PidsCountFromEleven(c: Config, steps: seq<Step>)
    requires ConfigOk(c) && CanRun(c, Start(c), steps)
    ensures Run(c, Start(c), steps).Some? && PidsOk(Run(c, Start(c), steps).value)
    ensures forall i :: 0 <= i < |AllGiven(c, Start(c), steps)| ==> AllGiven(c, Start(c), steps)[i] == 11 + i
  {
    hide CanRun, Run, ConfigOk, AllGiven, Inv;
    EveryRunIsSafe(c, steps);
    RunGives(c, Start(c), steps);
  }
}
