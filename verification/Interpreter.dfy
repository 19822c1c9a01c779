/** The interpreter as it is written: C recursion over live activations, a frame list that only
    exists while something is parked, and counters shared by pointer. Each method is tied to the
    machine of module `Machine`. */
module Interpreter {
  import opened Script
  import opened Machine

  /** The counters of one dispatch: quantumCount, rafaga, ioBlockInterrupt, and the number of
      statements executed, which stands in for the arrival of SIGUSR1. */
  class Burst {
    var used: nat
    var burst: nat
    var blocked: bool
    var ticks: nat

    constructor ()
      ensures used == burst == ticks == 0 && !blocked
    {
      used, burst, blocked, ticks := 0, 0, false, 0;
    }

    predicate Interrupts(env: Env)
      reads this
    {
      ticks >= env.alarm || blocked || used >= env.quantum
    }
  }

  /** What a method that ran activation number |outer| leaves behind: either that activation has
      returned, or it has unwound into the list. */
  ghost predicate Ends(t: State, outer: seq<Frame>, now: State) {
    if |t.host| <= |outer| then t == Returned(now)
    else t.host[..|outer|] == outer && now == Folded(t, |outer|)
  }

  /** Where activation |outer| of a dispatch that will end in `t` can be: still running, at its
      end, or holding the frame of its interrupted callee. */
  ghost predicate Going(env: Env, e: Frame, now: State, outer: seq<Frame>, t: State) {
    var s := now.(host := outer + [e]);
    && e.pc < |env.code|
    && if AtEnd(env.code, e) then |t.host| <= |outer| && t == Returned(now)
       else
         || (StateOk(env.code, s) && t == RunAbove(env, s, |outer|))
         || (&& Interrupted(env, now)
             && |t.host| > |outer|
             && t.host[..|outer|] == outer
             && now.(list := now.list + [e]) == Folded(t, |outer|))
  }

  // One statement of a live frame, as the machine sees it.
  lemma StatementGoesOn(env: Env, e: Frame, now: State, outer: seq<Frame>, t: State)
    requires now.host == outer && Going(env, e, now, outer, t)
    requires !AtEnd(env.code, e) && !Interrupted(env, now)
    ensures var f := e.(pc := e.pc + 1);
            && f.pc < |env.code|
            && var instr := DecodeFunction(env.code[f.pc]);
            var moved := now.(ticks := now.ticks + 1);
            if instr.Call? then
              var s := moved.(host := outer + [f] + [Entered(env.code, instr.name, f.pc)]);
              StateOk(env.code, s) && t == RunAbove(env, s, |outer|)
            else
              Going(env, f, Charge(env, moved, Execute(env.accepts, instr, env.code[f.pc], f.pc, now.memory)), outer, t)
  {
    hide DecodeFunction, Execute, EndsFunction, StackOk, WellFormed, PlaceOk, StateOk, Step, Returned, Folded,
         RunAbove, AtEnd, Entered;
    var s := now.(host := outer + [e]);
    LiveFrame(env.code, s);
    RunAboveGoesOn(env, s, outer);
    LiveStep(env, s, outer, e);
    StepIsOk(env, s);
    RunAboveDone(env, Step(env, s), |outer|);
    hide Last, Front;
  }

  lemma RunAboveDone(env: Env, s: State, depth: nat)
    requires StateOk(env.code, s)
    ensures |s.host| <= depth ==> RunAbove(env, s, depth) == s
  {
    hide StateOk, Step, Stopped;
  }

  lemma RunAboveGoesOn(env: Env, s: State, outer: seq<Frame>)
    requires StateOk(env.code, s) && !Stopped(env, s) && |s.host| > |outer|
    ensures RunAbove(env, s, |outer|) == RunAbove(env, Step(env, s), |outer|)
  {
    hide StateOk, Step, Stopped;
  }

  lemma StepIsOk(env: Env, s: State)
    requires StateOk(env.code, s) && !Stopped(env, s)
    ensures StateOk(env.code, Step(env, s)) && (s.host != [] ==> |Step(env, s).host| >= |s.host| - 1)
  {
    hide *;
  }

  // A callee came back: what the caller sees is what the machine says.
  lemma CalleeReturned(env: Env, e: Frame, u: State, outer: seq<Frame>, after: State)
    requires StateOk(env.code, u) && |u.host| == |outer| + 1
    requires after.host == outer + [e] && u == Returned(after)
    ensures var t := RunAbove(env, u, |outer|);
            if after.list == [] then Going(env, e, after.(host := outer), outer, t)
            else Going(env, Last(after.list), after.(list := [e] + Front(after.list), host := outer), outer, t)
  {
    hide DecodeFunction, Execute, EndsFunction, StackOk, WellFormed, PlaceOk, StateOk, Step;
    LiveFrame(env.code, u);
    assert Last(outer + [e]) == e && Front(outer + [e]) == outer;
  }

  // A callee was interrupted: its frame is last on the list, the caller's frame goes to the front.
  lemma CalleeInterrupted(env: Env, e: Frame, u: State, outer: seq<Frame>, after: State)
    requires StateOk(env.code, u) && Stopped(env, u) && |u.host| > |outer| + 1
    requires u.host[..|outer| + 1] == outer + [e] && after == Folded(u, |outer| + 1)
    ensures after.list != []
    ensures Going(env, Last(after.list), after.(list := [e] + Front(after.list), host := outer), outer, u)
  {
    hide DecodeFunction, Execute, EndsFunction, StackOk, WellFormed, PlaceOk, StateOk, Step, RunAbove, Run;
    LiveFrame(env.code, u);
    var d := |outer|;
    assert u.host[d] == u.host[..d + 1][d] == e;
    assert u.host[..d] == u.host[..d + 1][..d] == outer;
    UnwoundBelow(u.list, u.host, d);
    assert [e] + Front(after.list) + [Last(after.list)] == [e] + after.list;
  }

  lemma RunSteps(env: Env, s: State)
    requires StateOk(env.code, s) && !Stopped(env, s)
    ensures Run(env, s) == Run(env, Step(env, s))
  {
  }

  lemma FoldedAtMain(s: State)
    requires s.host == []
    ensures Folded(s, 0) == s
  {
  }

  // Taking the topmost frame off the list changes nothing a dispatch leaves behind.
  lemma ResumingIsSilent(env: Env, s: State)
    requires StateOk(env.code, s) && s.host == []
    ensures StateOk(env.code, Resumed(s))
    ensures Folded(Run(env, s), 0) == Folded(Run(env, Resumed(s)), 0)
  {
    hide DecodeFunction, DecodeMain, Execute, EndsFunction, StackOk, WellFormed, PlaceOk, Step;
    var r := Resumed(s);
    assert r.list + r.host == s.list + s.host;
    if Stopped(env, s) {
      assert Unwound(r.list, r.host) == s.list;
    } else {
      hide *;
      ResumedStep(env, s);
      RunSteps(env, s);
      RunSteps(env, r);
    }
  }

  // After `stackExecution` returned to the main loop, the rest of the dispatch is what it was.
  lemma StackExecutionGoesOn(env: Env, s: State, now: State)
    requires StateOk(env.code, s) && s.host == [] && s.list != []
    requires StateOk(env.code, Resumed(s))
    requires now.host == [] && Ends(RunAbove(env, Resumed(s), 0), [], now)
    ensures StateOk(env.code, now) && Folded(Run(env, now), 0) == Folded(Run(env, s), 0)
    ensures !Stopped(env, s) ==> now.ticks > s.ticks
  {
    hide DecodeFunction, DecodeMain, Execute, EndsFunction, StackOk, WellFormed, PlaceOk, Step;
    ResumingIsSilent(env, s);
    var r := Resumed(s);
    var u := RunAbove(env, r, 0);
    RunFromRunAbove(env, r);
    FoldedAtMain(now);
    if |u.host| > 0 {
      assert u.host[..0] == [];
      FoldedKeepsOk(env.code, u);
    }
  }

  class ProcessImage {
    var pc: nat
    var memory: Memory
    var stack: seq<Frame>
    var tspn: real

    constructor ()
      ensures pc == 0 && stack == [] && memory == Memory([], [], 0)
    {
      pc, memory, stack, tspn := 0, Memory([], [], 0), [], 0.0;
    }

    function Config(): Config
      reads this
    {
      Machine.Config(pc, memory, stack)
    }

    /** The state of the dispatch while `host` are the live activations. */
    ghost function Abs(b: Burst, host: seq<Frame>): State
      reads this, b
    {
      State(pc, memory, stack, host, b.used, b.burst, b.blocked, b.ticks)
    }

    method Apply(env: Env, instr: Instr, line: string, at: nat, b: Burst)
      modifies this`memory, b
      ensures b.ticks == old(b.ticks)
      ensures forall host ::
                Abs(b, host) == Charge(env, old(Abs(b, host)), Execute(env.accepts, instr, line, at, old(memory)))
    {
      var e := Execute(env.accepts, instr, line, at, memory);
      memory := e.memory;
      if e.charged {
        if env.roundRobin {
          b.used := b.used + 1;
        }
        b.burst := b.burst + 1;
      }
      b.blocked := b.blocked || e.blocks;
    }

    /** `processExecution`: statements of the main program and of whatever it calls, until the
        end of the program or an interruption. */
    method ProcessExecution(env: Env, b: Burst)
      requires StateOk(env.code, Abs(b, []))
      modifies this, b
      ensures Abs(b, []) == Folded(Run(env, old(Abs(b, []))), 0)
      ensures tspn == old(tspn)
    {
      hide DecodeFunction, DecodeMain, Execute, EndsFunction, StackOk, WellFormed, MainStep, FunctionStep;
      ghost var t := Folded(Run(env, Abs(b, [])), 0);
      ResumingIsSilent(env, Abs(b, []));
      assert stack != [] ==> [] + [Last(stack)] == [Last(stack)];
      StackExecution(env, b, []);
      if old(stack) != [] {
        StackExecutionGoesOn(env, old(Abs(b, [])), Abs(b, []));
      }
      while env.code[pc] != PROGRAM_END && !b.Interrupts(env)
        invariant StateOk(env.code, Abs(b, []))
        invariant Folded(Run(env, Abs(b, [])), 0) == t
        invariant tspn == old(tspn)
        decreases env.alarm - b.ticks
      {
        ghost var s := Abs(b, []);
        if stack != [] {
          ResumingIsSilent(env, s);
          assert [] + [Last(stack)] == [Last(stack)];
          StackExecution(env, b, []);
          StackExecutionGoesOn(env, s, Abs(b, []));
          continue;
        }
        MainStatement(env, b);
      }
      FoldedAtMain(Abs(b, []));
    }

    method MainStatement(env: Env, b: Burst)
      requires StateOk(env.code, Abs(b, [])) && !Stopped(env, Abs(b, [])) && stack == []
      modifies this, b
      ensures StateOk(env.code, Abs(b, []))
      ensures Folded(Run(env, Abs(b, [])), 0) == Folded(Run(env, old(Abs(b, []))), 0)
      ensures tspn == old(tspn) && b.ticks > old(b.ticks)
    {
      hide DecodeFunction, DecodeMain, Execute, EndsFunction, StackOk, WellFormed, PlaceOk, Step, Run, Target;
      ghost var s := Abs(b, []);
      MainStepIs(env, s);
      RunSteps(env, s);
      pc := pc + 1;
      var instr := DecodeMain(env.code[pc]);
      b.ticks := b.ticks + 1;
      if instr.Call? {
        stack := stack + [Entered(env.code, instr.name, pc)];
        MainCall(env, b, Step(env, s));
      } else {
        var target := Target(env.code, instr, pc, memory.data);
        Apply(env, instr, env.code[pc], pc, b);
        ghost var applied := Abs(b, []);
        pc := target;
        assert Abs(b, []) == applied.(pc := pc);
        assert Abs(b, []) == Step(env, s);
      }
    }

    // the frame just pushed runs; `s` is the same state with that frame already live
    method MainCall(env: Env, b: Burst, ghost s: State)
      requires StateOk(env.code, s) && stack != [] && s == Resumed(Abs(b, []))
      modifies this, b
      ensures StateOk(env.code, Abs(b, []))
      ensures Folded(Run(env, Abs(b, [])), 0) == Folded(Run(env, s), 0)
      ensures tspn == old(tspn) && b.ticks >= old(b.ticks)
    {
      hide DecodeFunction, DecodeMain, Execute, EndsFunction, StackOk, WellFormed, FunctionStep, MainStep, Run;
      ghost var pushed := Abs(b, []);
      assert pushed.list + pushed.host == s.list + s.host;
      assert [] + [Last(stack)] == [Last(stack)];
      ResumingIsSilent(env, pushed);
      StackExecution(env, b, []);
      StackExecutionGoesOn(env, pushed, Abs(b, []));
    }

    /** `stackExecution`: run the topmost frame of the list, if there is one. */
    method StackExecution(env: Env, b: Burst, ghost outer: seq<Frame>)
      requires stack != [] ==> StateOk(env.code, Abs(b, outer + [Last(stack)]).(list := Front(stack)))
      modifies this, b
      ensures old(stack) == [] ==> Abs(b, outer) == old(Abs(b, outer))
      ensures old(stack) != [] ==>
                var s := old(Abs(b, outer + [Last(stack)]).(list := Front(stack)));
                Ends(RunAbove(env, s, |outer|), outer, Abs(b, outer))
      ensures tspn == old(tspn) && b.ticks >= old(b.ticks)
      decreases env.alarm - b.ticks, 2
    {
      if stack != [] {
        var element := Last(stack);
        stack := Front(stack);
        FunctionExecution(env, element, b, outer);
      }
    }

    /** `functionExecution`: statements of one frame until its end line or an interruption. */
    method FunctionExecution(env: Env, element: Frame, b: Burst, ghost outer: seq<Frame>)
      requires StateOk(env.code, Abs(b, outer + [element]))
      modifies this, b
      ensures Ends(RunAbove(env, old(Abs(b, outer + [element])), |outer|), outer, Abs(b, outer))
      ensures tspn == old(tspn) && b.ticks >= old(b.ticks)
      decreases env.alarm - b.ticks, 1
    {
      hide DecodeFunction, Execute, EndsFunction, StackOk, WellFormed;
      var e := element;
      ghost var d := |outer|;
      ghost var t := RunAbove(env, Abs(b, outer + [e]), d);
      assert Last(outer + [e]) == e;
      LiveFrame(env.code, Abs(b, outer + [e]));
      while !AtEnd(env.code, e) && !b.Interrupts(env)
        invariant Going(env, e, Abs(b, outer), outer, t)
        invariant tspn == old(tspn) && b.ticks >= old(b.ticks)
        decreases env.alarm - b.ticks
      {
        e := FunctionStatement(env, e, b, outer, t);
      }
      if !AtEnd(env.code, e) {
        stack := stack + [e];
        assert (outer + [e])[d..] == [e] && (outer + [e])[..d] == outer;
      }
    }

    method FunctionStatement(env: Env, e0: Frame, b: Burst, ghost outer: seq<Frame>, ghost t: State) returns (e: Frame)
      requires !AtEnd(env.code, e0) && !Interrupted(env, Abs(b, outer))
      requires Going(env, e0, Abs(b, outer), outer, t)
      modifies this, b
      ensures Going(env, e, Abs(b, outer), outer, t)
      ensures tspn == old(tspn) && b.ticks > old(b.ticks)
      decreases env.alarm - b.ticks, 0
    {
      hide DecodeFunction, Execute, EndsFunction, StackOk, WellFormed, PlaceOk, StateOk, RunAbove, Charge, Returned,
           Folded, AtEnd, Going;
      StatementGoesOn(env, e0, Abs(b, outer), outer, t);
      e := e0.(pc := e0.pc + 1);
      var instr := DecodeFunction(env.code[e.pc]);
      b.ticks := b.ticks + 1;
      if instr.Call? {
        e := CallStatement(env, e, instr.name, b, outer, t);
      } else {
        Apply(env, instr, env.code[e.pc], e.pc, b);
      }
    }

    /** The call branch: push, run the callee, and if something is left on the list, reorder. */
    method CallStatement(env: Env, e0: Frame, name: string, b: Burst, ghost outer: seq<Frame>, ghost t: State)
        returns (e: Frame)
      requires e0.pc < |env.code|
      requires var s := Abs(b, outer + [e0] + [Entered(env.code, name, e0.pc)]);
               StateOk(env.code, s) && t == RunAbove(env, s, |outer|)
      modifies this, b
      ensures Going(env, e, Abs(b, outer), outer, t)
      ensures tspn == old(tspn) && b.ticks >= old(b.ticks)
      decreases env.alarm - b.ticks, 3
    {
      hide DecodeFunction, Execute, EndsFunction, StackOk, WellFormed, PlaceOk, StateOk, RunAbove, Charge, Returned,
           Folded, AtEnd, Going, Interrupted;
      ghost var callee := Entered(env.code, name, e0.pc);
      ghost var s := Abs(b, outer + [e0] + [callee]);
      ghost var u := RunAbove(env, s, |outer| + 1);
      RunAboveComposes(env, s, |outer|);
      e := e0;
      var was := stack;
      stack := stack + [Entered(env.code, name, e.pc)];
      assert Front(stack) == was && Last(stack) == callee;
      StackExecution(env, b, outer + [e0]);
      if |u.host| == |outer| + 1 {
        CalleeReturned(env, e0, u, outer, Abs(b, outer + [e0]));
      } else {
        RunAboveStops(env, u, |outer|);
        CalleeInterrupted(env, e0, u, outer, Abs(b, outer + [e0]));
      }
      if stack != [] {
        e := ReorderStack(e);
      }
    }

    /** `reorderStack`: the caller's frame goes to the front of the list, and the last frame of
        the list becomes the one the caller holds. */
    method ReorderStack(element: Frame) returns (e: Frame)
      requires stack != []
      modifies this`stack
      ensures stack == [element] + Front(old(stack)) && e == Last(old(stack))
    {
      e := Last(stack);
      stack := Front(stack);
      var reordered := [element];
      while stack != []
        invariant reordered + stack == [element] + Front(old(stack))
      {
        reordered := reordered + [stack[0]];
        stack := stack[1..];
      }
      stack := reordered;
    }
  }
}
