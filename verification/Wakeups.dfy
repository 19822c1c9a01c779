/**
 * When the short-term scheduler wakes with nothing to take. It puts back the token it woke on and
 * takes one token per item instead, so a token it failed to take stays in STS_in_empty for ever.
 */
module Wakeups {
  import opened Scheduler
  import opened Tokens
  import opened Runs
  import opened Traces
  import opened Losses

  /** How often STS took a feed's token before its producer had posted STS_in_empty. */
  function FailedMatches(c: Config, s: State, steps: seq<Step>): nat
    requires ConfigOk(c) && CanRun(c, s, steps)
    decreases |steps|
  {
    if steps == [] then 0
    else
      (if FailsToMatch(s, steps[0]) then 1 else 0)
      + (if Apply(c, s, steps[0]).Some? then FailedMatches(c, Apply(c, s, steps[0]).value, steps[1..]) else 0)
  }

  lemma {:induction false} RunSurplus(c: Config, s: State, steps: seq<Step>)
    requires ConfigOk(c) && CanRun(c, s, steps) && Run(c, s, steps).Some?
    ensures Surplus(c, Run(c, s, steps).value) == Surplus(c, s) + FailedMatches(c, s, steps)
    decreases |steps|
  {
    hide Apply, Enabled, ConfigOk, Surplus, FailsToMatch;
    if steps != [] {
      var t := Apply(c, s, steps[0]).value;
      StepSurplus(c, s, steps[0], t);
      RunSurplus(c, t, steps[1..]);
    }
  }

  /**
   * Whenever STS is about to wait and no producer stands between its two posts, STS_in_empty
   * announces what the feeds announce plus one wake-up for nothing per failed match of the run;
   * so it will wake with nothing to take, if and only if some match has failed.
   */
  lemma WakesForNothingExactlyWhen(c: Config, steps: seq<Step>)
    requires ConfigOk(c) && CanRun(c, Start(c), steps)
    ensures Run(c, Start(c), steps).Some?
    ensures var s := Run(c, Start(c), steps).value;
            s.sts == SWait && HalfPosts(s) == 0 ==>
              && s.sem.stsIn == FeedTokens(s) + FailedMatches(c, Start(c), steps)
              && (s.sem.stsIn > FeedTokens(s) <==> FailedMatches(c, Start(c), steps) > 0)
  {
    hide CanRun, Run, FailedMatches, ConfigOk, Inv;
    EveryRunIsSafe(c, steps);
    StartSurplus(c);
    RunSurplus(c, Start(c), steps);
  }

  lemma {:induction false} RunAdds(c: Config, s: State, steps: seq<Step>, more: seq<Step>)
    requires ConfigOk(c) && CanRun(c, s, steps) && Run(c, s, steps).Some?
    requires CanRun(c, Run(c, s, steps).value, more)
    ensures CanRun(c, s, steps + more) && Run(c, s, steps + more) == Run(c, Run(c, s, steps).value, more)
    ensures FailedMatches(c, s, steps + more)
            == FailedMatches(c, s, steps) + FailedMatches(c, Run(c, s, steps).value, more)
    decreases |steps|
  {
    hide Apply, Enabled, ConfigOk, FailsToMatch;
    if steps == [] {
      assert [] + more == more;
    } else {
      assert (steps + more)[0] == steps[0] && (steps + more)[1..] == steps[1..] + more;
      RunAdds(c, Apply(c, s, steps[0]).value, steps[1..], more);
    }
  }

  /** After one failed match STS never sleeps again, except while a producer is between its posts. */
  lemma NeverSleepsAgain(c: Config, steps: seq<Step>, more: seq<Step>)
    requires ConfigOk(c) && CanRun(c, Start(c), steps) && Run(c, Start(c), steps).Some?
    requires FailedMatches(c, Start(c), steps) > 0 && CanRun(c, Run(c, Start(c), steps).value, more)
    ensures Run(c, Run(c, Start(c), steps).value, more).Some?
    ensures var s := Run(c, Run(c, Start(c), steps).value, more).value;
            s.sts == SWait && HalfPosts(s) == 0 ==> s.sem.stsIn > 0
  {
    hide CanRun, Run, FailedMatches, ConfigOk, Start;
    RunAdds(c, Start(c), steps, more);
    WakesForNothingExactlyWhen(c, steps + more);
  }

  // The first process finishes while STS is still in its pass, and the next one comes in its place.
  lemma WakesOverReadyProcess(c: Config) returns (s: State)
    requires ConfigOk(c) && c.mps > 0 && c.mmp > 0
    ensures Reachable(c, s)
    ensures s.sts == SWait && s.sem.stsIn > 0 && FeedTokens(s) == 0 && s.lpl != []
  {
    hide Reachable, Leads;
    var p, k, q;
    p, k, s := FirstProcessReady(c);
    var from := s;
    Stays(c, from);
    s := Dispatches(c, from, s);
    s := Finishes(c, from, s);
    q, s := UnmatchedProcess(c, from, s, k, 1);
    LeadsToReachable(c, from, s);
    s := MovesNew(c, s, k);
    from := s;
    Stays(c, from);
    s := Skips(c, from, s, k, 4);
    LeadsToReachable(c, from, s);
    var t := s.(sts := SWait);
    Then(c, s, StsGoesOn, t);
    s := t;
  }

  /** STS can be about to wake with nothing to take while a process is ready. */
  ghost predicate CanWakeForNothing(c: Config)
    requires ConfigOk(c)
  {
    exists s :: Reachable(c, s) && s.sts == SWait && s.sem.stsIn > 0 && FeedTokens(s) == 0 && s.lpl != []
  }

  /**
   * Read off the configuration: STS wakes with nothing to take over a ready process, in some run, if
   * and only if any process can run at all. Room for one is enough.
   */
  lemma WakesForNothingIffAnyoneRuns(c: Config)
    requires ConfigOk(c)
    ensures CanWakeForNothing(c) <==> c.mps > 0 && c.mmp > 0
  {
    hide Reachable, Inv, ConfigOk;
    if c.mps > 0 && c.mmp > 0 {
      var s := WakesOverReadyProcess(c);
    } else {
      forall s | Reachable(c, s) ensures s.lpl == [] {
        ReachableKeepsInv(c, s);
        InvIsShared(c, s);
        AdmissionBounds(c, s);
      }
    }
  }
}
