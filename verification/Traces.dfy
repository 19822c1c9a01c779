/** Reachable states, one step after another, and the way of a new process through the system. */
module Traces {
  import opened Options
  import opened Scheduler

  ghost predicate Reachable(c: Config, s: State)
    requires ConfigOk(c)
  {
    exists steps :: CanRun(c, Start(c), steps) && Run(c, Start(c), steps) == Some(s)
  }

  lemma {:induction false} RunOneMore(c: Config, s: State, steps: seq<Step>, step: Step)
    requires ConfigOk(c) && CanRun(c, s, steps) && Run(c, s, steps).Some?
    requires Enabled(c, Run(c, s, steps).value, step)
    ensures CanRun(c, s, steps + [step]) && Run(c, s, steps + [step]) == Apply(c, Run(c, s, steps).value, step)
    decreases |steps|
  {
    hide Apply, Enabled, ConfigOk;
    var more := steps + [step];
    if steps == [] {
      assert more == [step] && more[1..] == [];
    } else {
      assert more[0] == steps[0] && more[1..] == steps[1..] + [step];
      RunOneMore(c, Apply(c, s, steps[0]).value, steps[1..], step);
    }
  }

  lemma StartIsReachable(c: Config)
    requires ConfigOk(c)
    ensures Reachable(c, Start(c))
  {
    hide Start;
    assert CanRun(c, Start(c), []) && Run(c, Start(c), []) == Some(Start(c));
  }

  lemma Then(c: Config, s: State, step: Step, t: State)
    requires ConfigOk(c) && Reachable(c, s) && Enabled(c, s, step) && Apply(c, s, step) == Some(t)
    ensures Reachable(c, t)
  {
    hide Apply, Enabled, ConfigOk, CanRun, Run, Start;
    var steps :| CanRun(c, Start(c), steps) && Run(c, Start(c), steps) == Some(s);
    RunOneMore(c, Start(c), steps, step);
  }

  // ----- the steps that do not depend on the algorithm

  /** STS stands where the algorithms differ: with a process to pop or to push, or at the end of its pass. */
  predicate AtAlgorithm(sts: Sts) {
    sts.SPop? || sts.SHand? || sts.SPushed? || (sts.STry? && sts.i >= 4)
  }

  predicate Common(c: Config, s: State, step: Step)
    requires ConfigOk(c)
  {
    Enabled(c, s, step) && (step == StsGoesOn ==> !AtAlgorithm(s.sts))
  }

  /** Some `n` steps, none of which depends on the algorithm, take `s` to `t`. */
  ghost predicate LeadsIn(c: Config, s: State, t: State, n: nat)
    requires ConfigOk(c)
    decreases n
  {
    if n == 0 then s == t
    else exists r, step :: LeadsIn(c, s, r, n - 1) && Common(c, r, step) && Apply(c, r, step) == Some(t)
  }

  ghost predicate Leads(c: Config, s: State, t: State)
    requires ConfigOk(c)
  {
    exists n: nat :: LeadsIn(c, s, t, n)
  }

  lemma Stays(c: Config, s: State)
    requires ConfigOk(c)
    ensures Leads(c, s, s)
  {
    assert LeadsIn(c, s, s, 0);
  }

  lemma Next(c: Config, from: State, s: State, step: Step, t: State)
    requires ConfigOk(c) && Leads(c, from, s) && Common(c, s, step) && Apply(c, s, step) == Some(t)
    ensures Leads(c, from, t)
  {
    hide Apply, Common, ConfigOk;
    var n: nat :| LeadsIn(c, from, s, n);
    assert LeadsIn(c, from, t, n + 1);
  }

  lemma {:induction false} LeadsInReachable(c: Config, s: State, t: State, n: nat)
    requires ConfigOk(c) && Reachable(c, s) && LeadsIn(c, s, t, n)
    ensures Reachable(c, t)
    decreases n
  {
    hide Apply, Enabled, ConfigOk, Reachable;
    if n > 0 {
      var r, step :| LeadsIn(c, s, r, n - 1) && Common(c, r, step) && Apply(c, r, step) == Some(t);
      LeadsInReachable(c, s, r, n - 1);
      Then(c, r, step, t);
    }
  }

  lemma LeadsToReachable(c: Config, s: State, t: State)
    requires ConfigOk(c) && Reachable(c, s) && Leads(c, s, t)
    ensures Reachable(c, t)
  {
    hide LeadsIn, Reachable, ConfigOk;
    var n: nat :| LeadsIn(c, s, t, n);
    LeadsInReachable(c, s, t, n);
  }

  // ----- what single threads can do, from any state

  /** A client connects, its process is pushed to LPN and announced there. */
  lemma Arrives(c: Config, from: State, s: State, fd: nat) returns (p: Proc, t: State)
    requires ConfigOk(c) && Leads(c, from, s)
    requires s.conn == CIdle && s.late == LWait && !Alive(s, fd) && s.sem.mps > 0 && s.sem.mmp > 0
    ensures Leads(c, from, t) && p == Proc(fd, s.net.nextPid)
    ensures t == s.(sem := s.sem.(mps := s.sem.mps - 1, mmp := s.sem.mmp - 1,
                                  feed := s.sem.feed.(pn := s.sem.feed.pn + 1)),
                    conn := CNewPosted, feeds := s.feeds.(pn := s.feeds.pn + [p]), net := t.net)
    ensures forall other :: other != fd ==> Alive(t, other) == Alive(s, other)
    ensures t.net.live == s.net.live[fd := p.pid]
  {
    hide Leads, ConfigOk;
    p := Proc(fd, s.net.nextPid);
    var a := ConnectStep(s, fd);
    Next(c, from, s, Connect(fd), a);
    var b := a.(sem := a.sem.(mmp := a.sem.mmp - 1), conn := CNew(p));
    Next(c, from, a, ConnGoesOn, b);
    var d := b.(feeds := b.feeds.Set(PLPN, b.feeds.pn + [p]), conn := CNewPushed);
    Next(c, from, b, ConnGoesOn, d);
    t := d.(sem := d.sem.(feed := d.sem.feed.Set(PLPN, d.sem.feed.pn + 1)), conn := CNewPosted);
    Next(c, from, d, ConnGoesOn, t);
  }

  /** Its producer posts STS_in_empty. */
  lemma Announces(c: Config, from: State, s: State) returns (t: State)
    requires ConfigOk(c) && Leads(c, from, s) && s.conn == CNewPosted
    ensures Leads(c, from, t) && t == s.(sem := s.sem.(stsIn := s.sem.stsIn + 1), conn := CIdle)
  {
    hide Leads, ConfigOk;
    t := s.(sem := s.sem.(stsIn := s.sem.stsIn + 1), conn := CIdle);
    Next(c, from, s, ConnGoesOn, t);
  }

  /** STS wakes and puts its token back. */
  lemma Wakes(c: Config, from: State, s: State) returns (t: State)
    requires ConfigOk(c) && Leads(c, from, s) && s.sts == SWait && s.sem.stsIn > 0
    ensures Leads(c, from, t) && t == s.(sts := STry(0))
  {
    hide Leads, ConfigOk;
    var a := s.(sem := s.sem.(stsIn := s.sem.stsIn - 1), sts := SBorrowed);
    Next(c, from, s, StsGoesOn, a);
    t := s.(sts := STry(0));
    Next(c, from, a, StsGoesOn, t);
  }

  /** STS finds nothing announced by the feeds from `i` up to `k`. */
  lemma {:induction false} Skips(c: Config, from: State, s: State, i: nat, k: nat) returns (t: State)
    requires ConfigOk(c) && Leads(c, from, s) && s.sts == STry(i) && i <= k <= 4
    requires forall j :: i <= j < k ==> s.sem.feed.Get(c.order[j]) == 0
    ensures Leads(c, from, t) && t == s.(sts := STry(k))
    decreases k - i
  {
    hide Leads;
    t := s;
    if i < k {
      var a := s.(sts := STry(i + 1));
      Next(c, from, s, StsGoesOn, a);
      t := Skips(c, from, a, i + 1, k);
    }
  }

  /** STS takes the token of a new process and tries to match it. */
  lemma TakesNew(c: Config, from: State, s: State, k: nat) returns (t: State)
    requires ConfigOk(c) && Leads(c, from, s) && s.sts == STry(k) && k < 4 && c.order[k] == PLPN
    requires s.sem.feed.pn > 0
    ensures Leads(c, from, t)
    ensures t == s.(sem := s.sem.(feed := s.sem.feed.(pn := s.sem.feed.pn - 1),
                                  stsIn := if s.sem.stsIn > 0 then s.sem.stsIn - 1 else 0), sts := SPop(k))
  {
    hide Leads;
    var a := s.(sem := s.sem.(feed := s.sem.feed.(pn := s.sem.feed.pn - 1)), sts := SMatch(k));
    Next(c, from, s, StsGoesOn, a);
    t := a.(sem := a.sem.(stsIn := if a.sem.stsIn > 0 then a.sem.stsIn - 1 else 0), sts := SPop(k));
    Next(c, from, a, StsGoesOn, t);
  }

  /** The dispatcher waits, pops and runs the first ready process. */
  lemma Dispatches(c: Config, from: State, s: State) returns (t: State)
    requires ConfigOk(c) && Leads(c, from, s)
    requires s.cpu == PWait && s.sem.lpl > 0 && s.lpl != [] && !s.sts.SPushed?
    ensures Leads(c, from, t)
    ensures t == s.(sem := s.sem.(lpl := s.sem.lpl - 1), lpl := s.lpl[1..], cpu := PRun(s.lpl[0]))
  {
    hide Leads, ConfigOk;
    var a := s.(sem := s.sem.(lpl := s.sem.lpl - 1), cpu := PToken);
    Next(c, from, s, CpuGoesOn, a);
    t := a.(lpl := a.lpl[1..], cpu := PRun(a.lpl[0]));
    Next(c, from, a, CpuGoesOn, t);
  }

  /** The running process finishes and gives its tokens back. */
  lemma Finishes(c: Config, from: State, s: State) returns (t: State)
    requires ConfigOk(c) && Leads(c, from, s) && s.cpu.PRun?
    ensures Leads(c, from, t)
    ensures t == s.(sem := s.sem.(mmp := s.sem.mmp + 1, mps := s.sem.mps + 1), cpu := PWait, net := t.net)
    ensures forall fd :: Alive(t, fd) == Alive(s, fd)
  {
    hide Leads, ConfigOk;
    var told := Enqueue(s, Msg(s.cpu.p.fd, Finished));
    var a := told.(net := told.net.(live := told.net.live - {s.cpu.p.fd}), cpu := PDone);
    Next(c, from, s, CpuFinishes, a);
    var b := a.(sem := a.sem.(mmp := a.sem.mmp + 1), cpu := PDonePosted);
    Next(c, from, a, CpuGoesOn, b);
    t := b.(sem := b.sem.(mps := b.sem.mps + 1), cpu := PWait);
    Next(c, from, b, CpuGoesOn, t);
  }

  /** The running process is let go of, which a negative quantum allows. */
  lemma Loses(c: Config, from: State, s: State) returns (t: State)
    requires ConfigOk(c) && c.quantum < 0 && Leads(c, from, s) && s.cpu.PRun?
    ensures Leads(c, from, t) && t == s.(cpu := PWait, dropped := s.dropped + [s.cpu.p])
  {
    hide Leads, ConfigOk;
    t := s.(cpu := PWait, dropped := s.dropped + [s.cpu.p]);
    Next(c, from, s, CpuLoses, t);
  }

  /** FIFO and RR: the process STS has matched goes to LPL. */
  lemma MovesNew(c: Config, s: State, k: nat) returns (t: State)
    requires ConfigOk(c) && Reachable(c, s) && s.sts == SPop(k) && k < 4 && c.order[k] == PLPN
    requires s.feeds.pn != [] && !FeedHeld(s, PLPN)
    ensures Reachable(c, t)
    ensures t == s.(sem := s.sem.(lpl := s.sem.lpl + 1), feeds := s.feeds.(pn := s.feeds.pn[1..]),
                    lpl := s.lpl + [s.feeds.pn[0]], sts := STry(k))
  {
    hide Reachable;
    var p := s.feeds.pn[0];
    var a := s.(feeds := s.feeds.(pn := s.feeds.pn[1..]), sts := SHand(p, k));
    Then(c, s, StsGoesOn, a);
    var b := a.(lpl := a.lpl + [p], sts := SPushed(k));
    Then(c, a, StsGoesOn, b);
    t := b.(sem := b.sem.(lpl := b.sem.lpl + 1), sts := STry(k));
    Then(c, b, StsGoesOn, t);
  }

  // ----- the first process

  predicate IsNewFeed(c: Config, k: nat)
    requires ConfigOk(c)
  {
    k < 4 && c.order[k] == PLPN && forall j :: 0 <= j < 4 && j != k ==> c.order[j] != PLPN
  }

  /** Where the feed of new processes stands in the configured order. */
  lemma NewFeed(c: Config) returns (k: nat)
    requires ConfigOk(c)
    ensures IsNewFeed(c, k)
  {
    assert PLPN in c.order;
    k :| 0 <= k < 4 && c.order[k] == PLPN;
    OrderIsDistinct(c, k);
  }

  // four names in four places stand once each
  lemma OrderIsDistinct(c: Config, k: nat)
    requires ConfigOk(c) && k < 4 && c.order[k] == PLPN
    ensures forall j :: 0 <= j < 4 && j != k ==> c.order[j] != PLPN
  {
    assert PLPR in c.order && PLFQ in c.order && PLFIO in c.order;
  }

  /** The first process of all, connected and announced, with STS about to pop it. */
  lemma FirstProcessMatched(c: Config) returns (p: Proc, k: nat, t: State)
    requires ConfigOk(c) && c.mps > 0 && c.mmp > 0
    ensures Leads(c, Start(c), t) && IsNewFeed(c, k) && p == Proc(0, 11)
    ensures var s := Start(c);
            t == s.(sem := s.sem.(mps := c.mps - 1, mmp := c.mmp - 1), feeds := s.feeds.(pn := [p]),
                    sts := SPop(k), net := t.net)
    ensures t.net.live == map[0 := 11] && !Alive(t, 1)
  {
    hide Leads;
    var s := Start(c);
    Stays(c, s);
    k := NewFeed(c);
    p, t := Arrives(c, s, s, 0);
    assert s.feeds.pn + [p] == [p];
    assert !Alive(s, 1) && !Alive(t, 1);
    t := Announces(c, s, t);
    t := Wakes(c, s, t);
    t := Skips(c, s, t, 0, k);
    t := TakesNew(c, s, t, k);
  }

  /** Another one, announced to STS only after STS has taken its token: the match fails. */
  lemma UnmatchedProcess(c: Config, from: State, s: State, k: nat, fd: nat) returns (p: Proc, t: State)
    requires ConfigOk(c) && Leads(c, from, s) && IsNewFeed(c, k) && s.sts == STry(k) && s.sem.stsIn == 0
    requires s.conn == CIdle && s.late == LWait && !Alive(s, fd) && s.sem.mps > 0 && s.sem.mmp > 0
    requires s.feeds.pn == [] && s.sem.feed.pn == 0
    ensures Leads(c, from, t) && p == Proc(fd, s.net.nextPid)
    ensures t == s.(sem := s.sem.(mps := s.sem.mps - 1, mmp := s.sem.mmp - 1, stsIn := 1),
                    feeds := s.feeds.(pn := [p]), sts := SPop(k), net := t.net)
    ensures t.net.live == s.net.live[fd := p.pid]
  {
    hide Leads, ConfigOk;
    p, t := Arrives(c, from, s, fd);
    assert s.feeds.pn + [p] == [p];
    t := TakesNew(c, from, t, k);
    t := Announces(c, from, t);
  }

  /** FIFO and RR: the first process of all is ready, with STS still at its feed. */
  lemma FirstProcessReady(c: Config) returns (p: Proc, k: nat, t: State)
    requires ConfigOk(c) && c.mps > 0 && c.mmp > 0
    ensures Reachable(c, t) && IsNewFeed(c, k) && p == Proc(0, 11)
    ensures var s := Start(c);
            t == s.(sem := s.sem.(mps := c.mps - 1, mmp := c.mmp - 1, lpl := 1), lpl := [p],
                    sts := STry(k), net := t.net)
    ensures t.net.live == map[0 := 11] && !Alive(t, 1)
  {
    hide Reachable, Leads;
    p, k, t := FirstProcessMatched(c);
    StartIsReachable(c);
    LeadsToReachable(c, Start(c), t);
    assert t.feeds.pn[1..] == [] && t.lpl + [p] == [p];
    t := MovesNew(c, t, k);
  }
}
