/** When is an interrupted and resumed process indistinguishable from one that ran through?
    Exactly as long as no live caller has a callee while different frames are parked. */
module Transparency {
  import opened Script
  import opened Machine

  /** The configuration a dispatch state stands for: parked frames below live ones. */
  function View(s: State): Config {
    Config(s.pc, s.memory, s.list + s.host)
  }

  predicate AllSame(s: seq<Frame>) {
    forall i :: 0 <= i < |s| ==> s[i] == s[0]
  }

  /** A caller is live above a parked frame that is not the same as it. */
  predicate Displaced(s: State) {
    s.list != [] && |s.host| >= 2 && !AllSame(s.list + Front(s.host))
  }

  // Frames that are all the same can be put together in any order.
  lemma SameJoin(a: seq<Frame>, b: seq<Frame>)
    requires AllSame(a + b)
    ensures a + b == b + a
  {
    if a != [] && b != [] {
      assert (a + b)[|a|] == b[0];
      forall i | 0 <= i < |a + b|
        ensures (b + a)[i] == (a + b)[0]
      {
        if i < |b| { assert b[i] == (a + b)[|a| + i]; } else { assert a[i - |b|] == (a + b)[i - |b|]; }
      }
    }
  }

  lemma Uniform(a: seq<Frame>, b: seq<Frame>, x: Frame)
    requires AllSame(a + b) && a != [] && a[0] == x
    ensures forall i :: 0 <= i < |a| ==> a[i] == x
    ensures forall i :: 0 <= i < |b| ==> b[i] == x
    ensures forall i :: 0 <= i < |a + b| ==> (a + b)[i] == x
  {
    forall i | 0 <= i < |a| ensures a[i] == x { assert (a + b)[i] == (a + b)[0]; }
    forall i | 0 <= i < |b| ensures b[i] == x { assert (a + b)[|a| + i] == (a + b)[0]; }
  }

  lemma AllOf(s: seq<Frame>, x: Frame)
    requires forall i :: 0 <= i < |s| ==> s[i] == x
    ensures AllSame(s)
  {
  }

  // Conversely, one more frame that commutes with them is the same frame again.
  lemma JoinIsSame(list: seq<Frame>, front: seq<Frame>, f: Frame)
    requires list != [] && (front != [] ==> AllSame(list + front))
    requires list + (front + [f]) == (front + [f]) + list
    ensures AllSame(list + (front + [f]))
  {
    var n, p := |list|, |front|;
    var all := list + (front + [f]);
    assert all == (front + [f]) + list;
    if front == [] {
      assert front + [f] == [f];
      RotationIsSame(list, f, n);
    } else {
      var x := list[0];
      Uniform(list, front, x);
      hide AllSame;
      assert all[p] == (front + [f])[p] == f;
      assert all[p] == if p < n then list[p] else front[p - n];
      assert forall i :: 0 <= i < |all| ==> all[i] == x;
      AllOf(all, x);
    }
  }

  lemma {:induction false} RotationIsSame(list: seq<Frame>, f: Frame, k: nat)
    requires list + [f] == [f] + list && k <= |list|
    ensures forall i :: 0 <= i <= k ==> (list + [f])[i] == f
  {
    if k > 0 {
      RotationIsSame(list, f, k - 1);
      assert (list + [f])[k] == ([f] + list)[k] == list[k - 1] == (list + [f])[k - 1];
    } else {
      assert (list + [f])[0] == ([f] + list)[0];
    }
  }

  lemma ImageIsView(s: State)
    requires !Displaced(s)
    ensures Image(s) == View(s)
  {
    if s.host != [] {
      var front := Front(s.host);
      assert s.list + s.host == (s.list + front) + [Last(s.host)];
      if s.list != [] && |s.host| >= 2 {
        SameJoin(s.list, front);
      } else {
        assert s.list + front == front + s.list;
      }
    } else {
      assert s.list + s.host == s.list;
    }
  }

  // Coming back to a caller whose frame is the same as the parked ones disturbs nothing.
  lemma ReturnIsView(s: State)
    requires s.host != [] && s.list != [] ==> AllSame(s.list + s.host)
    ensures View(Returned(s)) == View(s)
    ensures !Displaced(Returned(s))
  {
    if s.host != [] && s.list != [] {
      var r := Returned(s);
      var x := s.list[0];
      Uniform(s.list, s.host, x);
      var all, now := s.list + s.host, r.list + r.host;
      assert forall i :: 0 <= i < |r.list| ==> r.list[i] == x;
      assert forall i :: 0 <= i < |r.host| ==> r.host[i] == x;
      assert forall i :: 0 <= i < |now| ==> now[i] == x == all[i];
    }
  }

  /** As long as no frame is displaced, one step of the dispatch is one step of the reference. */
  lemma StepIsRefStep(env: Env, s: State)
    requires StateOk(env.code, s) && !Stopped(env, s) && !Displaced(s)
    ensures View(Step(env, s)) == RefStep(env.code, env.accepts, View(s))
  {
    hide DecodeFunction, DecodeMain, Execute, EndsFunction, StackOk, WellFormed, Target;
    var r := Resumed(s);
    assert r.list + r.host == s.list + s.host;
    if r.host == [] {
      assert s.list + s.host == [];
      MainStepIs(env, s);
    } else {
      ResumedStep(env, s);
      assert r.host == Front(r.host) + [Last(r.host)];
      FunctionStepIsRefStep(env, r, Front(r.host), Last(r.host));
    }
  }

  lemma ViewIs(s: State)
    ensures View(s) == Config(s.pc, s.memory, s.list + s.host)
  {
  }

  lemma ViewOk(env: Env, s: State)
    requires StateOk(env.code, s) && !Stopped(env, s)
    ensures ConfigOk(env.code, View(s)) && !Finished(env.code, View(s))
  {
    hide PlaceOk;
  }

  lemma ChargeKeepsFrames(env: Env, s: State, e: Effect)
    ensures var t := Charge(env, s, e); t.list == s.list && t.host == s.host && t.pc == s.pc && t.memory == e.memory
  {
  }

  lemma CallersAreTheSame(s: State, outer: seq<Frame>, e: Frame)
    requires s.host == outer + [e]
    ensures !Displaced(s) <==> (s.list != [] && outer != [] ==> AllSame(s.list + outer))
  {
    assert Front(s.host) == outer;
  }

  lemma FunctionStepIsRefStep(env: Env, s: State, outer: seq<Frame>, e: Frame)
    requires StateOk(env.code, s) && !Stopped(env, s) && !Displaced(s) && s.host == outer + [e]
    ensures View(Step(env, s)) == RefStep(env.code, env.accepts, View(s))
  {
    hide *;
    LiveStep(env, s, outer, e);
    CallersAreTheSame(s, outer, e);
    ViewOk(env, s);
    ViewIs(s);
    Assoc(s.list, outer, [e]);
    RefLiveStep(env.code, env.accepts, View(s), s.list + outer, e);
    var t := Step(env, s);
    ViewIs(t);
    var f := e.(pc := e.pc + 1);
    var instr := DecodeFunction(env.code[f.pc]);
    Assoc(s.list, outer, [f]);
    if instr.Call? {
      Assoc(s.list, outer + [f], [Entered(env.code, instr.name, f.pc)]);
    } else {
      var moved := s.(host := outer + [f], ticks := s.ticks + 1);
      var effect := Execute(env.accepts, instr, env.code[f.pc], f.pc, s.memory);
      ChargeKeepsFrames(env, moved, effect);
      var u := Charge(env, moved, effect).(host := outer);
      ViewIs(u);
      if AtEnd(env.code, f) {
        ReturnIsView(u);
      }
    }
  }

  // If unwinding a call over parked frames leaves them in order, the caller is the same as they are.
  lemma CallAbove(list: seq<Frame>, outer: seq<Frame>, f: Frame, g: Frame)
    requires list != [] && (outer != [] ==> AllSame(list + outer))
    requires Unwound(list, outer + [f] + [g]) == list + (outer + [f] + [g])
    ensures AllSame(list + (outer + [f]))
  {
    assert Front(outer + [f] + [g]) == outer + [f];
    var a, b := (outer + [f]) + list, list + (outer + [f]);
    assert a + [g] == b + [g];
    assert a == (a + [g])[..|a|] == (b + [g])[..|b|] == b;
    JoinIsSame(list, outer, f);
  }

  /** One more call is open than before, and not all callers are the same frame. */
  predicate CallsOutOfOrder(before: Config, after: Config) {
    |after.stack| > |before.stack| && |after.stack| >= 3 && !AllSame(Front(after.stack))
  }

  lemma CallDisplaces(s: State, t: State, outer: seq<Frame>, e: Frame, f: Frame, g: Frame)
    requires s.host == outer + [e] && !Displaced(s)
    requires t.list == s.list && t.host == outer + [f] + [g]
    ensures Displaced(t) ==> CallsOutOfOrder(View(s), View(t)) && Image(t) != View(t)
    ensures !Displaced(t) && t.list != [] ==> AllSame(Front(View(t).stack))
  {
    hide AllSame, Unwound, Displaced;
    CallersAreTheSame(s, outer, e);
    CallersAreTheSame(t, outer + [f], g);
    TopOf(t.list, t.host);
    assert Front(t.host) == outer + [f];
    if t.list != [] && Image(t) == View(t) {
      CallAbove(s.list, outer, f, g);
    }
  }

  lemma StatementDisplaces(s: State, t: State, outer: seq<Frame>, e: Frame, f: Frame)
    requires s.host == outer + [e] && !Displaced(s)
    requires t.list == s.list && (t.host == outer + [f] || t.host == outer)
    ensures t.host == outer + [f] ==> !Displaced(t)
    ensures t.host == outer ==> !Displaced(Returned(t)) && View(Returned(t)) == View(t)
  {
    hide AllSame, Displaced, Returned;
    CallersAreTheSame(s, outer, e);
    if t.host == outer {
      ReturnIsView(t);
    } else {
      CallersAreTheSame(t, outer, f);
    }
  }

  lemma FunctionStepDisplaces(env: Env, s: State, outer: seq<Frame>, e: Frame, t: State)
    requires StateOk(env.code, s) && !Stopped(env, s) && s.host == outer + [e] && !Displaced(s) && t == Step(env, s)
    ensures Displaced(t) ==> CallsOutOfOrder(View(s), View(t)) && Image(t) != View(t)
    ensures !Displaced(t) && s.list != [] && |View(t).stack| > |View(s).stack| ==> AllSame(Front(View(t).stack))
  {
    hide *;
    LiveStep(env, s, outer, e);
    var f := e.(pc := e.pc + 1);
    var instr := DecodeFunction(env.code[f.pc]);
    var effect := Execute(env.accepts, instr, env.code[f.pc], f.pc, s.memory);
    var moved := s.(host := outer + [f], ticks := s.ticks + 1);
    ChargeKeepsFrames(env, moved, effect);
    ViewIs(s);
    ViewIs(t);
    if instr.Call? {
      CallDisplaces(s, t, outer, e, f, Entered(env.code, instr.name, f.pc));
    } else if AtEnd(env.code, f) {
      var u := Charge(env, moved, effect).(host := outer);
      StatementDisplaces(s, u, outer, e, f);
      ViewIs(u);
    } else {
      StatementDisplaces(s, Charge(env, moved, effect), outer, e, f);
    }
  }

  /**
   * A call over different parked frames is the only step that displaces, and displacing shows:
   * unwound at once, the frames are not in call order.
   */
  lemma DisplacingStep(env: Env, s: State)
    requires StateOk(env.code, s) && !Stopped(env, s) && !Displaced(s)
    ensures var t := Step(env, s);
            Displaced(t) ==> CallsOutOfOrder(View(s), View(t)) && Image(t) != View(t)
  {
    hide DecodeFunction, DecodeMain, Execute, EndsFunction, StateOk, Stopped, Step, AllSame, CallsOutOfOrder;
    ResumedStep(env, s);
    var r := Resumed(s);
    if r.host == [] {
      MainStepIs(env, s);
    } else {
      assert r.host == Front(r.host) + [Last(r.host)];
      FunctionStepDisplaces(env, r, Front(r.host), Last(r.host), Step(env, s));
      ResumedView(s);
    }
  }

  lemma ResumedView(s: State)
    ensures View(Resumed(s)) == View(s) && (s.host == [] ==> !Displaced(Resumed(s)))
  {
    assert Resumed(s).list + Resumed(s).host == s.list + s.host;
  }

  // ----- every moment at which a dispatch can be stopped

  /** The dispatch of image `c`, stopped after at most `n` statements. */
  function StoppedAfter(env: Env, c: Config, n: nat): (r: State)
    requires ConfigOk(env.code, c)
    ensures StateOk(env.code, r)
  {
    assert Begin(c).list + Begin(c).host == c.stack;
    Run(env.(alarm := n), Begin(c))
  }

  function StepOrStop(env: Env, s: State): (r: State)
    requires StateOk(env.code, s)
    ensures StateOk(env.code, r)
  {
    if Stopped(env, s) then s else Step(env, s)
  }

  // Letting the signal come one statement later runs at most one statement more.
  lemma {:induction false} OneMoreStatement(env: Env, s: State, n: nat)
    requires StateOk(env.code, s) && s.ticks <= n
    ensures var next := env.(alarm := n + 1);
            Run(next, s) == StepOrStop(next, Run(env.(alarm := n), s))
    decreases n - s.ticks
  {
    hide DecodeFunction, DecodeMain, Execute, EndsFunction, StackOk, WellFormed, PlaceOk, FunctionStep, MainStep;
    var ea, eb := env.(alarm := n), env.(alarm := n + 1);
    if !Stopped(eb, s) {
      if s.ticks < n {
        SameStep(ea, eb, s);
        OneMoreStatement(env, Step(eb, s), n);
      }
    }
  }

  // The alarm decides when a dispatch stops, not what a statement does.
  lemma SameStep(env: Env, other: Env, s: State)
    requires StateOk(env.code, s) && other == env.(alarm := other.alarm)
    requires !Stopped(env, s) && !Stopped(other, s)
    ensures Step(env, s) == Step(other, s)
  {
    hide DecodeFunction, DecodeMain, Execute, EndsFunction, StackOk, WellFormed, PlaceOk;
  }

  /** The configuration the reference reaches when the dispatch stopped after at most `n` statements. */
  function Reference(env: Env, c: Config, n: nat): Config
    requires ConfigOk(env.code, c)
  {
    RefRun(env.code, env.accepts, c, StoppedAfter(env, c, n).ticks)
  }

  lemma {:induction false} RefRunOneMore(code: seq<string>, accepts: nat -> bool, c: Config, n: nat)
    requires ConfigOk(code, c)
    ensures RefRun(code, accepts, c, n + 1) == RefStep(code, accepts, RefRun(code, accepts, c, n))
    decreases n
  {
    if n > 0 {
      RefRunOneMore(code, accepts, RefStep(code, accepts, c), n - 1);
    }
  }

  // While nothing is displaced, the dispatch state is the reference configuration.
  lemma InStep(env: Env, c: Config, n: nat)
    requires ConfigOk(env.code, c)
    requires forall i :: 0 <= i < n ==> !Displaced(StoppedAfter(env, c, i))
    ensures View(StoppedAfter(env, c, n)) == Reference(env, c, n)
  {
    hide DecodeFunction, DecodeMain, Execute, EndsFunction, StackOk, WellFormed, PlaceOk, Step, RefStep, Displaced,
         Stopped;
    assert c.stack + [] == c.stack;
    if n == 0 {
      RunWithoutSignal(env, Begin(c));
    } else {
      InStep(env, c, n - 1);
      var s := StoppedAfter(env, c, n - 1);
      OneMoreStatement(env, Begin(c), n - 1);
      var next := env.(alarm := n);
      if !Stopped(next, s) {
        StepIsRefStep(next, s);
        RefRunOneMore(env.code, env.accepts, c, s.ticks);
      }
    }
  }

  lemma RunWithoutSignal(env: Env, s: State)
    requires StateOk(env.code, s) && s.ticks == 0
    ensures Run(env.(alarm := 0), s) == s
  {
  }

  /** For one dispatch, in terms of its own states: stopped anywhere within `limit` statements it
      leaves the image an uninterrupted run would have, if and only if no caller is ever live above
      parked frames other than its own. */
  lemma TransparentExactlyWhenInOrder(env: Env, c: Config, limit: nat)
    requires ConfigOk(env.code, c)
    ensures (forall n :: 0 <= n <= limit ==> Image(StoppedAfter(env, c, n)) == Reference(env, c, n))
        <==> (forall n :: 0 <= n <= limit ==> !Displaced(StoppedAfter(env, c, n)))
  {
    hide DecodeFunction, DecodeMain, Execute, EndsFunction, StackOk, WellFormed, PlaceOk, Step, RefStep, Displaced,
         Stopped, StoppedAfter, Image;
    if forall n :: 0 <= n <= limit ==> !Displaced(StoppedAfter(env, c, n)) {
      forall n | 0 <= n <= limit
        ensures Image(StoppedAfter(env, c, n)) == Reference(env, c, n)
      {
        InStep(env, c, n);
        ImageIsView(StoppedAfter(env, c, n));
      }
    }
    if forall n :: 0 <= n <= limit ==> Image(StoppedAfter(env, c, n)) == Reference(env, c, n) {
      NeverDisplaced(env, c, limit);
    }
  }

  lemma {:induction false} NeverDisplaced(env: Env, c: Config, limit: nat)
    requires ConfigOk(env.code, c)
    requires forall n :: 0 <= n <= limit ==> Image(StoppedAfter(env, c, n)) == Reference(env, c, n)
    ensures forall n :: 0 <= n <= limit ==> !Displaced(StoppedAfter(env, c, n))
    decreases limit
  {
    hide DecodeFunction, DecodeMain, Execute, EndsFunction, StackOk, WellFormed, PlaceOk, Step, RefStep, Stopped,
         Image, CallsOutOfOrder;
    assert c.stack + [] == c.stack;
    if limit == 0 {
      RunWithoutSignal(env, Begin(c));
    } else {
      NeverDisplaced(env, c, limit - 1);
      InStep(env, c, limit);
      var s := StoppedAfter(env, c, limit - 1);
      OneMoreStatement(env, Begin(c), limit - 1);
      if !Stopped(env.(alarm := limit), s) {
        DisplacingStep(env.(alarm := limit), s);
      }
    }
  }
}
