/** Whole lives of a process: any sequence of dispatches, each cut short by a signal, the quantum
    or a blocking request, against one uninterrupted run. */
module Histories {
  import opened Script
  import opened Machine
  import opened Transparency

  /** What can differ from dispatch to dispatch. */
  datatype Dispatch = Dispatch(roundRobin: bool, quantum: int, alarm: nat)

  function EnvOf(code: seq<string>, accepts: nat -> bool, d: Dispatch): Env {
    Env(code, accepts, d.roundRobin, d.quantum, d.alarm)
  }

  lemma BeginOk(code: seq<string>, c: Config)
    requires ConfigOk(code, c)
    ensures StateOk(code, Begin(c))
  {
    assert c.stack + [] == c.stack;
  }

  lemma ImageOk(code: seq<string>, s: State)
    requires StateOk(code, s)
    ensures ConfigOk(code, Image(s))
  {
    hide DecodeFunction, DecodeMain, EndsFunction, StackOk, WellFormed;
    FoldedKeepsOk(code, s);
    assert s.host[0..] == s.host;
    assert Folded(s, 0).list + Folded(s, 0).host == Unwound(s.list, s.host);
  }

  function Dispatched(env: Env, c: Config): (s: State)
    requires ConfigOk(env.code, c)
    ensures StateOk(env.code, s) && ConfigOk(env.code, Image(s))
  {
    BeginOk(env.code, c);
    ImageOk(env.code, Run(env, Begin(c)));
    Run(env, Begin(c))
  }

  /** The process image after all the dispatches `ds`. */
  function History(code: seq<string>, accepts: nat -> bool, c: Config, ds: seq<Dispatch>): (r: Config)
    requires ConfigOk(code, c)
    ensures ConfigOk(code, r)
    decreases |ds|
  {
    if ds == [] then c
    else History(code, accepts, Image(Dispatched(EnvOf(code, accepts, ds[0]), c)), ds[1..])
  }

  /** How many statements the dispatches `ds` executed. */
  function Statements(code: seq<string>, accepts: nat -> bool, c: Config, ds: seq<Dispatch>): nat
    requires ConfigOk(code, c)
    decreases |ds|
  {
    if ds == [] then 0
    else
      var s := Dispatched(EnvOf(code, accepts, ds[0]), c);
      s.ticks + Statements(code, accepts, Image(s), ds[1..])
  }

  /** Whenever the uninterrupted run makes a call that leaves three or more open, the callers are
      all the same frame. */
  ghost predicate CallsInOrder(code: seq<string>, accepts: nat -> bool, c: Config)
    requires ConfigOk(code, c)
  {
    forall n: nat :: !CallsOutOfOrder(RefRun(code, accepts, c, n), RefRun(code, accepts, c, n + 1))
  }

  /** The reference run never has more than two calls open. */
  ghost predicate DepthTwo(code: seq<string>, accepts: nat -> bool, c: Config)
    requires ConfigOk(code, c)
  {
    forall n: nat :: |RefRun(code, accepts, c, n).stack| <= 2
  }

  // ----- one dispatch

  lemma {:induction false} NothingDisplaced(env: Env, c: Config, n: nat)
    requires ConfigOk(env.code, c) && CallsInOrder(env.code, env.accepts, c)
    ensures forall i :: 0 <= i <= n ==> !Displaced(StoppedAfter(env, c, i))
    decreases n
  {
    hide DecodeFunction, DecodeMain, EndsFunction, Execute, ConfigOk, StateOk, PlaceOk, RefRun, AllSame,
         CallsOutOfOrder, Step, Stopped, Image;
    BeginOk(env.code, c);
    if n == 0 {
      RunWithoutSignal(env, Begin(c));
    } else {
      NothingDisplaced(env, c, n - 1);
      InStep(env, c, n - 1);
      InStep(env, c, n);
      OneMoreStatement(env, Begin(c), n - 1);
      var next := env.(alarm := n);
      var s := StoppedAfter(env, c, n - 1);
      if !Stopped(next, s) {
        DisplacingStep(next, s);
        assert !CallsOutOfOrder(RefRun(env.code, env.accepts, c, s.ticks),
            RefRun(env.code, env.accepts, c, s.ticks + 1));
      }
    }
  }

  /** A dispatch of such a process leaves exactly the configuration an uninterrupted run reaches
      after as many statements, wherever it was interrupted. */
  lemma DispatchInOrder(env: Env, c: Config)
    requires ConfigOk(env.code, c) && CallsInOrder(env.code, env.accepts, c)
    ensures var s := Dispatched(env, c); Image(s) == RefRun(env.code, env.accepts, c, s.ticks)
  {
    hide DecodeFunction, DecodeMain, EndsFunction, ConfigOk, StateOk, RefRun, Run, Displaced, CallsInOrder;
    NothingDisplaced(env, c, env.alarm);
    assert env.(alarm := env.alarm) == env;
    InStep(env, c, env.alarm);
    ImageIsView(StoppedAfter(env, c, env.alarm));
  }

  lemma DepthTwoIsInOrder(code: seq<string>, accepts: nat -> bool, c: Config)
    requires ConfigOk(code, c) && DepthTwo(code, accepts, c)
    ensures CallsInOrder(code, accepts, c)
  {
    hide ConfigOk, RefRun, AllSame;
  }

  /** With at most two open calls, a dispatch leaves what an uninterrupted run would. */
  lemma DispatchUpToDepthTwo(env: Env, c: Config)
    requires ConfigOk(env.code, c) && DepthTwo(env.code, env.accepts, c)
    ensures var s := Dispatched(env, c); Image(s) == RefRun(env.code, env.accepts, c, s.ticks)
  {
    DepthTwoIsInOrder(env.code, env.accepts, c);
    DispatchInOrder(env, c);
  }

  /** Nothing is parked, or a single frame that has not been resumed yet. */
  predicate Flat(s: State) {
    s.list == [] || (|s.list| == 1 && s.host == [])
  }

  lemma StepStaysFlat(env: Env, s: State)
    requires StateOk(env.code, s) && !Stopped(env, s) && Flat(s)
    ensures Flat(Step(env, s))
  {
    hide DecodeFunction, DecodeMain, Execute, EndsFunction, StateOk, Stopped, Step;
    ResumedStep(env, s);
    var r := Resumed(s);
    if r.host == [] {
      MainStepIs(env, s);
    } else {
      assert r.host == Front(r.host) + [Last(r.host)];
      LiveStep(env, r, Front(r.host), Last(r.host));
    }
  }

  lemma {:induction false} RunStaysFlat(env: Env, s: State)
    requires StateOk(env.code, s) && Flat(s)
    ensures Flat(Run(env, s))
    decreases env.alarm - s.ticks
  {
    hide DecodeFunction, DecodeMain, Execute, EndsFunction, StackOk, WellFormed, PlaceOk, MainStep, FunctionStep, Flat;
    if !Stopped(env, s) {
      StepStaysFlat(env, s);
      RunStaysFlat(env, Step(env, s));
    }
  }

  /** Starting with at most one parked frame, the unwinding recursion leaves the whole chain of
      open calls in order, each with its own line, however deep the calls went. */
  lemma DispatchFromFlatStack(env: Env, c: Config)
    requires ConfigOk(env.code, c) && |c.stack| <= 1
    ensures var s := Dispatched(env, c); Image(s) == RefRun(env.code, env.accepts, c, s.ticks)
    ensures c.stack == [] ==> Image(Dispatched(env, c)).stack == Dispatched(env, c).host
  {
    hide DecodeFunction, DecodeMain, EndsFunction, ConfigOk, StateOk, RefRun, Run;
    BeginOk(env.code, c);
    assert forall n :: StoppedAfter(env, c, n) == Run(env.(alarm := n), Begin(c));
    forall n: nat
      ensures Flat(StoppedAfter(env, c, n))
    {
      RunStaysFlat(env.(alarm := n), Begin(c));
    }
    assert env.(alarm := env.alarm) == env;
    InStep(env, c, env.alarm);
    var s := StoppedAfter(env, c, env.alarm);
    ImageIsView(s);
    if c.stack == [] {
      RunKeepsListEmpty(env, Begin(c));
      assert s.list + s.host == s.host;
    }
  }

  lemma {:induction false} RunKeepsListEmpty(env: Env, s: State)
    requires StateOk(env.code, s) && s.list == []
    ensures Run(env, s).list == []
    decreases env.alarm - s.ticks
  {
    hide DecodeFunction, DecodeMain, Execute, EndsFunction, StackOk, WellFormed, PlaceOk, MainStep, FunctionStep;
    if !Stopped(env, s) {
      if s.host == [] {
        MainStepIs(env, s);
      } else {
        assert s.host == Front(s.host) + [Last(s.host)];
        LiveStep(env, s, Front(s.host), Last(s.host));
      }
      RunKeepsListEmpty(env, Step(env, s));
    }
  }

  // ----- many dispatches

  lemma {:induction false} RefRunAdds(code: seq<string>, accepts: nat -> bool, c: Config, m: nat, n: nat)
    requires ConfigOk(code, c)
    ensures RefRun(code, accepts, RefRun(code, accepts, c, m), n) == RefRun(code, accepts, c, m + n)
    decreases m
  {
    hide DecodeFunction, DecodeMain, EndsFunction, RefStep, PlaceOk;
    if m > 0 {
      RefRunAdds(code, accepts, RefStep(code, accepts, c), m - 1, n);
    }
  }

  lemma {:induction false} InOrderHistory(code: seq<string>, accepts: nat -> bool, c: Config, ds: seq<Dispatch>)
    requires ConfigOk(code, c) && CallsInOrder(code, accepts, c)
    ensures Transparent(code, accepts, c, ds)
    decreases |ds|
  {
    hide DecodeFunction, DecodeMain, EndsFunction, RefRun, PlaceOk, Dispatched, Image, CallsOutOfOrder;
    if ds == [] {
      RefRunNothing(code, accepts, c);
    } else {
      var env := EnvOf(code, accepts, ds[0]);
      var s := Dispatched(env, c);
      DispatchInOrder(env, c);
      forall n: nat
        ensures !CallsOutOfOrder(RefRun(code, accepts, Image(s), n), RefRun(code, accepts, Image(s), n + 1))
      {
        RefRunAdds(code, accepts, c, s.ticks, n);
        RefRunAdds(code, accepts, c, s.ticks, n + 1);
        assert s.ticks + (n + 1) == (s.ticks + n) + 1;
      }
      InOrderHistory(code, accepts, Image(s), ds[1..]);
      RefRunAdds(code, accepts, c, s.ticks, Statements(code, accepts, Image(s), ds[1..]));
    }
  }

  /** After the dispatches `ds` the process is where one uninterrupted run of as many statements
      would be: the same line, the same variables, the same open calls, and the same prints and
      requests in the same order. */
  predicate Transparent(code: seq<string>, accepts: nat -> bool, c: Config, ds: seq<Dispatch>)
    requires ConfigOk(code, c)
  {
    History(code, accepts, c, ds) == RefRun(code, accepts, c, Statements(code, accepts, c, ds))
  }

  // ----- the converse: dispatches of one statement each

  const ONE := Dispatch(false, 1, 1)

  function Ones(n: nat): seq<Dispatch> {
    if n == 0 then [] else Ones(n - 1) + [ONE]
  }

  // A dispatch that the first statement ends executes that statement, or none at the end.
  lemma OneStatement(code: seq<string>, accepts: nat -> bool, c: Config)
    requires ConfigOk(code, c)
    ensures var env := EnvOf(code, accepts, ONE); var b := Begin(c); var s := Dispatched(env, c);
            && env.code == code && env.accepts == accepts
            && StateOk(code, b) && View(b) == c && !Displaced(b) && Image(b) == c && b.host == []
            && (Finished(code, c) <==> Stopped(env, b))
            && s == (if Stopped(env, b) then b else Step(env, b)) && s.ticks == (if Finished(code, c) then 0 else 1)
  {
    hide DecodeFunction, DecodeMain, Execute, EndsFunction, StackOk, WellFormed, PlaceOk, Step;
    var env, b := EnvOf(code, accepts, ONE), Begin(c);
    BeginOk(code, c);
    assert b.list + b.host == c.stack;
    OneMoreStatement(env, b, 0);
    RunWithoutSignal(env, b);
    assert env.(alarm := 1) == env;
  }

  lemma {:induction false} HistoryAdds(code: seq<string>, accepts: nat -> bool, c: Config, ds: seq<Dispatch>,
      d: Dispatch)
    requires ConfigOk(code, c)
    ensures var h := History(code, accepts, c, ds); var s := Dispatched(EnvOf(code, accepts, d), h);
            && History(code, accepts, c, ds + [d]) == Image(s)
            && Statements(code, accepts, c, ds + [d]) == Statements(code, accepts, c, ds) + s.ticks
    decreases |ds|
  {
    hide ConfigOk, Dispatched, Image;
    if ds == [] {
      var s := Dispatched(EnvOf(code, accepts, d), c);
      assert [] + [d] == [d] && [d][1..] == [];
      assert History(code, accepts, Image(s), []) == Image(s) && Statements(code, accepts, Image(s), []) == 0;
    } else {
      assert (ds + [d])[0] == ds[0] && (ds + [d])[1..] == ds[1..] + [d];
      HistoryAdds(code, accepts, Image(Dispatched(EnvOf(code, accepts, ds[0]), c)), ds[1..], d);
    }
  }

  lemma {:induction false} OneByOne(code: seq<string>, accepts: nat -> bool, c: Config, n: nat)
    requires ConfigOk(code, c) && forall ds :: Transparent(code, accepts, c, ds)
    ensures History(code, accepts, c, Ones(n)) == RefRun(code, accepts, c, n)
  {
    hide ConfigOk, Dispatched, Image, EnvOf, History, Statements, RefRun, StepOrStop, Finished;
    if n == 0 {
      assert Transparent(code, accepts, c, []);
      NoDispatch(code, accepts, c);
    } else {
      OneByOne(code, accepts, c, n - 1);
      var h := History(code, accepts, c, Ones(n - 1));
      HistoryAdds(code, accepts, c, Ones(n - 1), ONE);
      OneStatement(code, accepts, h);
      assert Transparent(code, accepts, c, Ones(n - 1)) && Transparent(code, accepts, c, Ones(n));
      var m := Statements(code, accepts, c, Ones(n - 1));
      if Finished(code, h) {
        FinishedStays(code, accepts, h, 1);
        RefRunAdds(code, accepts, c, n - 1, 1);
      } else {
        RefRunAdds(code, accepts, c, m, 1);
        RefRunAdds(code, accepts, c, n - 1, 1);
      }
    }
  }

  lemma NoDispatch(code: seq<string>, accepts: nat -> bool, c: Config)
    requires ConfigOk(code, c)
    ensures History(code, accepts, c, []) == c == RefRun(code, accepts, c, 0) && Statements(code, accepts, c, []) == 0
  {
  }

  // If stopping right after this statement leaves the frames in call order, its call was in order.
  lemma StoppedInOrder(env: Env, a: Config, next: Config)
    requires ConfigOk(env.code, a) && StateOk(env.code, Begin(a)) && !Stopped(env, Begin(a))
    requires View(Begin(a)) == a && !Displaced(Begin(a)) && Begin(a).host == []
    requires next == RefStep(env.code, env.accepts, a) && Image(Step(env, Begin(a))) == next
    ensures !CallsOutOfOrder(a, next)
  {
    hide *;
    StepIsRefStep(env, Begin(a));
    FirstStepInOrder(env, Begin(a));
  }

  lemma NoCallNoDisorder(c: Config)
    ensures !CallsOutOfOrder(c, c)
  {
  }

  lemma RefRunOne(code: seq<string>, accepts: nat -> bool, c: Config)
    requires ConfigOk(code, c)
    ensures RefRun(code, accepts, c, 1) == RefStep(code, accepts, c)
  {
    RefRunNothing(code, accepts, RefStep(code, accepts, c));
  }

  lemma FirstStepInOrder(env: Env, b: State)
    requires StateOk(env.code, b) && !Stopped(env, b) && b.host == []
    requires Image(Step(env, b)) == View(Step(env, b))
    ensures !CallsOutOfOrder(View(b), View(Step(env, b)))
  {
    hide DecodeFunction, DecodeMain, Execute, EndsFunction, StateOk, Stopped, Step, AllSame, Image, Displaced;
    ResumedStep(env, b);
    ResumedView(b);
    var r := Resumed(b);
    if r.host == [] {
      MainStepIs(env, b);
    } else {
      assert r.host == Front(r.host) + [Last(r.host)];
      FunctionStepDisplaces(env, r, Front(r.host), Last(r.host), Step(env, r));
      OneAtATime(env, r);
    }
  }

  // With nothing parked and one frame live, a call leaves two.
  lemma OneAtATime(env: Env, r: State)
    requires StateOk(env.code, r) && !Stopped(env, r) && |r.host| == 1
    ensures |View(Step(env, r)).stack| <= |r.list| + 2
  {
    hide DecodeFunction, DecodeMain, Execute, EndsFunction, StateOk, Stopped, Step;
    assert r.host == [] + [r.host[0]];
    LiveStep(env, r, [], r.host[0]);
  }

  /**
   * Preemption transparency, exactly: no sequence of dispatches, whatever ends each of them (the
   * quantum, a signal, a blocking request), can be told from one uninterrupted run, if and only
   * if every call of that run that leaves three or more open has callers that are all the same.
   */
  lemma TransparentExactlyWhenCallsInOrder(code: seq<string>, accepts: nat -> bool, c: Config)
    requires ConfigOk(code, c)
    ensures (forall ds :: Transparent(code, accepts, c, ds)) <==> CallsInOrder(code, accepts, c)
  {
    hide ConfigOk, History, Statements, RefRun, CallsOutOfOrder, Dispatched, Image, Transparent;
    if CallsInOrder(code, accepts, c) {
      forall ds ensures Transparent(code, accepts, c, ds) {
        InOrderHistory(code, accepts, c, ds);
      }
    }
    if forall ds :: Transparent(code, accepts, c, ds) {
      forall n: nat
        ensures !CallsOutOfOrder(RefRun(code, accepts, c, n), RefRun(code, accepts, c, n + 1))
      {
        OneByOne(code, accepts, c, n);
        OneByOne(code, accepts, c, n + 1);
        HistoryAdds(code, accepts, c, Ones(n), ONE);
        RefRunAdds(code, accepts, c, n, 1);
        var a := RefRun(code, accepts, c, n);
        OneStatement(code, accepts, a);
        RefRunOne(code, accepts, a);
        if Finished(code, a) {
          FinishedStays(code, accepts, a, 1);
          NoCallNoDisorder(a);
        } else {
          StoppedInOrder(EnvOf(code, accepts, ONE), a, RefRun(code, accepts, c, n + 1));
        }
      }
    }
  }

  lemma {:induction false} InOrderAtEveryMoment(code: seq<string>, accepts: nat -> bool, c: Config, n: nat)
    requires ConfigOk(code, c) && |c.stack| <= 2 && CallsInOrder(code, accepts, c)
    ensures var s := RefRun(code, accepts, c, n).stack; |s| >= 3 ==> AllSame(Front(s))
  {
    hide ConfigOk, RefRun, RefStep;
    if n == 0 {
      RefRunNothing(code, accepts, c);
    } else {
      InOrderAtEveryMoment(code, accepts, c, n - 1);
      RefRunOneMore(code, accepts, c, n - 1);
      var before, after := RefRun(code, accepts, c, n - 1), RefRun(code, accepts, c, n);
      assert n - 1 + 1 == n && !CallsOutOfOrder(before, RefRun(code, accepts, c, n - 1 + 1));
      RefStepCallers(code, accepts, before);
      if |after.stack| <= |before.stack| && |after.stack| >= 3 {
        FewerCallers(Front(before.stack), Front(after.stack));
      }
    }
  }

  lemma FewerCallers(more: seq<Frame>, fewer: seq<Frame>)
    requires AllSame(more) && fewer <= more
    ensures AllSame(fewer)
  {
  }

  // Unless it calls, a statement leaves the callers of the running function alone, or drops the last.
  lemma RefStepCallers(code: seq<string>, accepts: nat -> bool, c: Config)
    requires ConfigOk(code, c)
    ensures var t := RefStep(code, accepts, c);
            |t.stack| <= |c.stack| && t.stack != [] ==> c.stack != [] && Front(t.stack) <= Front(c.stack)
  {
    hide DecodeFunction, DecodeMain, Execute, EndsFunction, StackOk, WellFormed;
    if c.stack != [] && !Finished(code, c) {
      assert c.stack == Front(c.stack) + [Last(c.stack)];
      RefLiveStep(code, accepts, c, Front(c.stack), Last(c.stack));
    }
  }

  /** Whenever the uninterrupted run has three or more calls open, the callers are all the same frame. */
  ghost predicate UniformCallers(code: seq<string>, accepts: nat -> bool, c: Config)
    requires ConfigOk(code, c)
  {
    forall n: nat :: |RefRun(code, accepts, c, n).stack| >= 3 ==> AllSame(Front(RefRun(code, accepts, c, n).stack))
  }

  lemma UniformIsInOrder(code: seq<string>, accepts: nat -> bool, c: Config)
    requires ConfigOk(code, c) && |c.stack| <= 2
    ensures CallsInOrder(code, accepts, c) <==> UniformCallers(code, accepts, c)
  {
    hide ConfigOk, RefRun, AllSame;
    if CallsInOrder(code, accepts, c) {
      forall n: nat
        ensures |RefRun(code, accepts, c, n).stack| >= 3 ==> AllSame(Front(RefRun(code, accepts, c, n).stack))
      {
        InOrderAtEveryMoment(code, accepts, c, n);
      }
    }
  }

  /** The same moment by moment, for a process with at most two calls open at the start. */
  lemma TransparentExactlyWhenUniform(code: seq<string>, accepts: nat -> bool, c: Config)
    requires ConfigOk(code, c) && |c.stack| <= 2
    ensures (forall ds :: Transparent(code, accepts, c, ds)) <==> UniformCallers(code, accepts, c)
  {
    hide *;
    TransparentExactlyWhenCallsInOrder(code, accepts, c);
    UniformIsInOrder(code, accepts, c);
  }

  /** Transparency up to depth two. */
  lemma HistoryIsUninterrupted(code: seq<string>, accepts: nat -> bool, c: Config, ds: seq<Dispatch>)
    requires ConfigOk(code, c) && DepthTwo(code, accepts, c)
    ensures History(code, accepts, c, ds) == RefRun(code, accepts, c, Statements(code, accepts, c, ds))
  {
    hide ConfigOk, History, Statements, RefRun;
    DepthTwoIsInOrder(code, accepts, c);
    TransparentExactlyWhenCallsInOrder(code, accepts, c);
    assert Transparent(code, accepts, c, ds);
  }

  lemma RefRunNothing(code: seq<string>, accepts: nat -> bool, c: Config)
    requires ConfigOk(code, c)
    ensures RefRun(code, accepts, c, 0) == c
  {
  }

  lemma {:induction false} FinishedStays(code: seq<string>, accepts: nat -> bool, c: Config, n: nat)
    requires ConfigOk(code, c) && Finished(code, c)
    ensures RefRun(code, accepts, c, n) == c
    decreases n
  {
    hide DecodeFunction, DecodeMain, EndsFunction, PlaceOk;
    if n > 0 {
      FinishedStays(code, accepts, c, n - 1);
    }
  }

  /** Two complete histories of the same process print the same values, make the same requests and
      end with the same variables, however differently they were scheduled. */
  lemma CompleteHistoriesAgree(code: seq<string>, accepts: nat -> bool, c: Config, ds: seq<Dispatch>, es: seq<Dispatch>)
    requires ConfigOk(code, c) && CallsInOrder(code, accepts, c)
    requires Finished(code, History(code, accepts, c, ds)) && Finished(code, History(code, accepts, c, es))
    ensures History(code, accepts, c, ds) == History(code, accepts, c, es)
  {
    hide DecodeFunction, DecodeMain, EndsFunction, RefRun, ConfigOk, History, Statements, CallsInOrder;
    InOrderHistory(code, accepts, c, ds);
    InOrderHistory(code, accepts, c, es);
    var m, n := Statements(code, accepts, c, ds), Statements(code, accepts, c, es);
    if m <= n {
      RefRunAdds(code, accepts, c, m, n - m);
      FinishedStays(code, accepts, RefRun(code, accepts, c, m), n - m);
    } else {
      RefRunAdds(code, accepts, c, n, m - n);
      FinishedStays(code, accepts, RefRun(code, accepts, c, n), m - n);
    }
  }

  // ----- scripts whose call depth is two by their text

  /** Line `i` stands in the body of `name`, before its first end line. */
  predicate InBody(code: seq<string>, name: string, i: nat) {
    FunctionLine(code, name) < i < |code|
    && forall j :: FunctionLine(code, name) < j <= i ==> !EndsFunction(code[j], name)
  }

  predicate Leaf(code: seq<string>, name: string) {
    forall i :: 0 <= i < |code| && InBody(code, name, i) ==> !DecodeFunction(code[i]).Call?
  }

  /** Whatever a called function calls is a leaf. */
  predicate CallsLeaves(code: seq<string>, name: string) {
    forall i :: 0 <= i < |code| && InBody(code, name, i) && DecodeFunction(code[i]).Call?
      ==> Leaf(code, DecodeFunction(code[i]).name)
  }

  predicate ShallowScript(code: seq<string>) {
    forall i :: 0 <= i < |code| && DecodeFunction(code[i]).Call? ==> CallsLeaves(code, DecodeFunction(code[i]).name)
  }

  predicate InPlace(code: seq<string>, f: Frame) {
    f.pc == FunctionLine(code, f.name) || InBody(code, f.name, f.pc)
  }

  predicate ShallowStack(code: seq<string>, stack: seq<Frame>) {
    && |stack| <= 2
    && (forall i :: 0 <= i < |stack| ==> InPlace(code, stack[i]))
    && (|stack| >= 1 ==> CallsLeaves(code, stack[0].name))
    && (|stack| == 2 ==> Leaf(code, stack[1].name))
  }

  lemma NextLineInPlace(code: seq<string>, f: Frame)
    requires InPlace(code, f) && f.pc + 1 < |code| && !EndsFunction(code[f.pc + 1], f.name)
    ensures InBody(code, f.name, f.pc + 1)
  {
  }

  lemma StepStaysShallow(code: seq<string>, accepts: nat -> bool, c: Config)
    requires ConfigOk(code, c) && ShallowScript(code) && ShallowStack(code, c.stack)
    ensures ShallowStack(code, RefStep(code, accepts, c).stack)
  {
    hide DecodeFunction, DecodeMain, EndsFunction, Execute, StackOk, WellFormed, Leaf, CallsLeaves, InBody;
    if Finished(code, c) {
    } else if c.stack != [] {
      var top := Last(c.stack);
      Machine.FunctionStatement(code, c.pc, c.stack);
      var f := top.(pc := top.pc + 1);
      assert InPlace(code, top);
      CallStaysShallow(code, c.stack, f);
      var r := RefFunctionStep(code, accepts, c);
    } else {
      MainStatement(code, c.pc, c.memory.data);
      MainCallStaysShallow(code, c.pc + 1);
    }
  }

  lemma MainCallStaysShallow(code: seq<string>, pc: nat)
    requires ShallowScript(code) && pc < |code|
    ensures DecodeMain(code[pc]).Call? ==> ShallowStack(code, [Entered(code, DecodeMain(code[pc]).name, pc)])
  {
    hide EndsFunction, Leaf, CallsLeaves, InBody;
    if DecodeMain(code[pc]).Call? {
      MainCallIsFunctionCall(code[pc]);
    }
  }

  lemma CallStaysShallow(code: seq<string>, stack: seq<Frame>, f: Frame)
    requires ShallowScript(code) && ShallowStack(code, stack) && stack != []
    requires WellFormed(code) && FrameOk(code, f)
    requires f == Last(stack).(pc := Last(stack).pc + 1) && f.pc < |code|
    ensures var instr := DecodeFunction(code[f.pc]);
            if instr.Call? then ShallowStack(code, Front(stack) + [f] + [Entered(code, instr.name, f.pc)])
            else ShallowStack(code, Settled(code, Front(stack) + [f]))
  {
    hide DecodeFunction, DecodeMain, EndsFunction, WellFormed, Leaf, CallsLeaves, InBody, StackOk, ShallowStack,
         InPlace;
    var instr := DecodeFunction(code[f.pc]);
    ShallowTop(code, stack, f);
    if instr.Call? {
      CallIsNotAnEnd(code[f.pc], f.name);
      MovedOn(code, Last(stack), f);
      LeafHasNoCalls(code, f.name, f.pc);
      EnteredInPlace(code, instr.name, f.pc);
      TwoCalls(code, f, Entered(code, instr.name, f.pc));
      assert stack == [Last(stack)] && Front(stack) == [];
      assert Front(stack) + [f] + [Entered(code, instr.name, f.pc)] == [f, Entered(code, instr.name, f.pc)];
    } else {
      SettledIs(code, Front(stack), f);
      if !AtEnd(code, f) {
        MovedOn(code, Last(stack), f);
      }
    }
  }

  // the top frame moves on within its function, or goes
  lemma ShallowTop(code: seq<string>, stack: seq<Frame>, f: Frame)
    requires ShallowStack(code, stack) && stack != [] && f.name == Last(stack).name
    ensures ShallowStack(code, Front(stack)) && InPlace(code, Last(stack))
    ensures InPlace(code, f) ==> ShallowStack(code, Front(stack) + [f])
    ensures Leaf(code, f.name) || (stack == [Last(stack)] && CallsLeaves(code, f.name))
  {
    hide InPlace, Leaf, CallsLeaves;
    if |stack| == 1 {
      assert stack == [stack[0]] && Front(stack) == [] && Front(stack) + [f] == [f];
    } else {
      assert Front(stack) == [stack[0]] && Front(stack) + [f] == [stack[0], f];
    }
  }

  lemma MovedOn(code: seq<string>, before: Frame, f: Frame)
    requires InPlace(code, before) && f == before.(pc := before.pc + 1) && f.pc < |code|
            && !EndsFunction(code[f.pc], f.name)
    ensures InPlace(code, f) && InBody(code, f.name, f.pc)
  {
    NextLineInPlace(code, before);
  }

  lemma EnteredInPlace(code: seq<string>, name: string, pc: nat)
    ensures InPlace(code, Entered(code, name, pc)) && Entered(code, name, pc).name == name
  {
  }

  lemma TwoCalls(code: seq<string>, f: Frame, g: Frame)
    requires InPlace(code, f) && InPlace(code, g) && CallsLeaves(code, f.name) && Leaf(code, g.name)
    ensures ShallowStack(code, [f, g])
  {
    hide InPlace, Leaf, CallsLeaves;
  }

  lemma LeafHasNoCalls(code: seq<string>, name: string, i: nat)
    requires InBody(code, name, i) && DecodeFunction(code[i]).Call?
    ensures !Leaf(code, name)
    ensures CallsLeaves(code, name) ==> Leaf(code, DecodeFunction(code[i]).name)
  {
  }

  lemma {:induction false} ShallowScriptStaysShallow(code: seq<string>, accepts: nat -> bool, c: Config, n: nat)
    requires ConfigOk(code, c) && ShallowScript(code) && ShallowStack(code, c.stack)
    ensures ShallowStack(code, RefRun(code, accepts, c, n).stack)
    decreases n
  {
    hide DecodeFunction, DecodeMain, EndsFunction, PlaceOk, RefStep, ShallowStack, ShallowScript;
    if n > 0 {
      StepStaysShallow(code, accepts, c);
      ShallowScriptStaysShallow(code, accepts, RefStep(code, accepts, c), n - 1);
    }
  }

  /** A newly loaded process (LTS.c:123-134). */
  function Loaded(): Config {
    Config(0, Memory([], [], 0), [])
  }

  lemma LoadedOk(code: seq<string>)
    requires WellFormed(code)
    ensures ConfigOk(code, Loaded())
  {
  }

  /** Transparency from the text alone: if every function called from a function is a leaf, no
      sequence of interruptions can be noticed. */
  lemma ShallowScriptsAreTransparent(code: seq<string>, accepts: nat -> bool, ds: seq<Dispatch>)
    requires WellFormed(code) && ShallowScript(code)
    ensures ConfigOk(code, Loaded())
    ensures History(code, accepts, Loaded(), ds)
         == RefRun(code, accepts, Loaded(), Statements(code, accepts, Loaded(), ds))
  {
    hide DecodeFunction, DecodeMain, EndsFunction, RefRun, History, Statements, ShallowScript, WellFormed;
    LoadedOk(code);
    forall n: nat
      ensures |RefRun(code, accepts, Loaded(), n).stack| <= 2
    {
      ShallowScriptStaysShallow(code, accepts, Loaded(), n);
    }
    HistoryIsUninterrupted(code, accepts, Loaded(), ds);
  }
}
