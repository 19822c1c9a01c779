/** How a dispatch ends, and the dispatch loop's four tests (PROCER.c). */
module Outcomes {
  import opened Script
  import opened Machine
  import opened Histories
  import opened Transparency
  import Interpreter

  /** `Lost`: none of the four tests holds, and no queue receives the process. */
  datatype Outcome = Done | Blocked | Suspended | EndOfQuantum | Lost

  /** The tests in the order the loop makes them. */
  function OutcomeOf(env: Env, s: State): Outcome {
    if s.pc < |env.code| && env.code[s.pc] == PROGRAM_END then Done
    else if s.blocked then Blocked
    else if s.ticks >= env.alarm then Suspended
    else if s.used == env.quantum then EndOfQuantum
    else Lost
  }

  function BlockingRequests(events: seq<Event>): nat {
    if events == [] then 0
    else BlockingRequests(events[..|events| - 1]) +
         (if Last(events).Started? && Last(events).blocking then 1 else 0)
  }

  /** What holds of the counters in every state of a dispatch that began with `requests` blocking
      requests already made. */
  predicate CountersOk(env: Env, s: State, requests: nat) {
    && (env.quantum >= 0 ==> s.used <= env.quantum)
    && s.used == (if env.roundRobin then s.burst else 0)
    && s.burst <= s.ticks
    && BlockingRequests(s.memory.events) == requests + (if s.blocked then 1 else 0)
    && (s.blocked ==> s.pc < |env.code| && env.code[s.pc] != PROGRAM_END)
    && (s.ticks > 0 ==> env.quantum > 0 && s.ticks <= env.alarm)
  }

  lemma ExecuteCounts(accepts: nat -> bool, instr: Instr, line: string, pc: nat, m: Memory)
    ensures var e := Execute(accepts, instr, line, pc, m);
            BlockingRequests(e.memory.events) == BlockingRequests(m.events) + (if e.blocks then 1 else 0)
    ensures Execute(accepts, instr, line, pc, m).blocks ==> instr.AskIo?
  {
    var e := Execute(accepts, instr, line, pc, m);
    if |e.memory.events| > |m.events| {
      assert e.memory.events[..|e.memory.events| - 1] == m.events;
    }
  }

  lemma RequestIsNotTheEnd(line: string)
    requires DecodeMain(line).AskIo?
    ensures line != PROGRAM_END
  {
    assert PROGRAM_END[0] == 'f' && PROGRAM_END[1] == 'i';
  }

  // `moved` is `s` with the control moved on and one more statement counted
  lemma ChargeCounts(env: Env, s: State, moved: State, instr: Instr, line: string, at: nat, requests: nat)
    requires CountersOk(env, s, requests) && !Interrupted(env, s)
    requires moved == s.(pc := moved.pc, list := moved.list, host := moved.host, ticks := s.ticks + 1)
    requires instr.AskIo? ==> moved.pc < |env.code| && env.code[moved.pc] != PROGRAM_END
    ensures CountersOk(env, Charge(env, moved, Execute(env.accepts, instr, line, at, s.memory)), requests)
    ensures CountersOk(env, moved, requests)
  {
    hide Execute, BlockingRequests;
    ExecuteCounts(env.accepts, instr, line, at, s.memory);
  }

  lemma ReturnedCounts(env: Env, s: State, requests: nat)
    requires CountersOk(env, s, requests)
    ensures CountersOk(env, Returned(s), requests)
  {
    hide BlockingRequests;
  }

  lemma MainStepCounts(env: Env, s: State, requests: nat)
    requires StateOk(env.code, s) && !Stopped(env, s) && CountersOk(env, s, requests) && s.list == s.host == []
    ensures CountersOk(env, Step(env, s), requests)
  {
    hide DecodeFunction, DecodeMain, Execute, StateOk, Step, CountersOk, Charge, Target;
    MainStepIs(env, s);
    var pc := s.pc + 1;
    var instr := DecodeMain(env.code[pc]);
    if instr.AskIo? {
      RequestIsNotTheEnd(env.code[pc]);
      StaysAt(env.code, instr, pc, s.memory.data);
    }
    var moved := s.(ticks := s.ticks + 1, pc := if instr.Call? then pc else Target(env.code, instr, pc, s.memory.data),
                    host := if instr.Call? then [Entered(env.code, instr.name, pc)] else []);
    ChargeCounts(env, s, moved, instr, env.code[pc], pc, requests);
  }

  lemma StaysAt(code: seq<string>, instr: Instr, pc: nat, data: Data)
    requires instr.AskIo?
    ensures Target(code, instr, pc, data) == pc
  {
  }

  lemma LiveStepCounts(env: Env, s: State, outer: seq<Frame>, e: Frame, requests: nat)
    requires StateOk(env.code, s) && !Stopped(env, s) && CountersOk(env, s, requests) && s.host == outer + [e]
    ensures CountersOk(env, Step(env, s), requests)
  {
    LiveStep(env, s, outer, e);
    LiveFrame(env.code, s);
    hide DecodeFunction, DecodeMain, Execute, StateOk, Step, CountersOk, Charge, Returned, AtEnd;
    var f := e.(pc := e.pc + 1);
    var instr := DecodeFunction(env.code[f.pc]);
    var moved := s.(host := outer + [f] + (if instr.Call? then [Entered(env.code, instr.name, f.pc)] else []),
        ticks := s.ticks + 1);
    ChargeCounts(env, s, moved, instr, env.code[f.pc], f.pc, requests);
    if !instr.Call? {
      assert outer + [f] + [] == outer + [f];
      var below := s.(host := outer, ticks := s.ticks + 1);
      ChargeCounts(env, s, below, instr, env.code[f.pc], f.pc, requests);
      var charged := Charge(env, below, Execute(env.accepts, instr, env.code[f.pc], f.pc, s.memory));
      ReturnedCounts(env, charged, requests);
      ChargeBelow(env, s.(host := outer + [f], ticks := s.ticks + 1), outer,
        Execute(env.accepts, instr, env.code[f.pc], f.pc, s.memory));
    }
  }

  lemma ChargeBelow(env: Env, s: State, outer: seq<Frame>, e: Effect)
    ensures Charge(env, s, e).(host := outer) == Charge(env, s.(host := outer), e)
  {
  }

  lemma StepCounts(env: Env, s: State, requests: nat)
    requires StateOk(env.code, s) && !Stopped(env, s) && CountersOk(env, s, requests)
    ensures CountersOk(env, Step(env, s), requests)
  {
    hide DecodeFunction, DecodeMain, Execute, EndsFunction, StackOk, WellFormed, Step, BlockingRequests, StateOk;
    ResumedStep(env, s);
    var r := Resumed(s);
    if r.host == [] {
      MainStepCounts(env, s, requests);
    } else {
      assert r.host == Front(r.host) + [Last(r.host)];
      LiveStepCounts(env, r, Front(r.host), Last(r.host), requests);
    }
  }

  lemma {:induction false} RunCounts(env: Env, s: State, requests: nat)
    requires StateOk(env.code, s) && CountersOk(env, s, requests)
    ensures CountersOk(env, Run(env, s), requests)
    decreases env.alarm - s.ticks
  {
    hide DecodeFunction, DecodeMain, Execute, EndsFunction, StackOk, WellFormed, Step, CountersOk;
    if !Stopped(env, s) {
      StepCounts(env, s, requests);
      RunCounts(env, Step(env, s), requests);
    }
  }

  /** The counters at the end of a dispatch: the quantum is never overrun, it counts exactly the
      charged statements under round robin, and the process is blocked if and only if this
      dispatch made one blocking request. */
  lemma DispatchCounts(env: Env, c: Config)
    requires ConfigOk(env.code, c)
    ensures CountersOk(env, Dispatched(env, c), BlockingRequests(c.memory.events))
  {
    BeginOk(env.code, c);
    RunCounts(env, Begin(c), BlockingRequests(c.memory.events));
  }

  /** While calls are open, parked or live, the main program stands at a call line, every caller
      stands at one too, and the innermost function has not ended. */
  lemma OpenCallsKeepTheirLines(env: Env, c: Config, n: nat)
    requires ConfigOk(env.code, c)
    ensures var s := StoppedAfter(env, c, n); var open := s.list + s.host;
            open != [] ==>
              && s.pc < |env.code| && env.code[s.pc] != PROGRAM_END && DecodeFunction(env.code[s.pc]).Call?
              && (forall i :: 0 <= i < |open| - 1 ==> AtCall(env.code, open[i]))
              && !AtEnd(env.code, Last(open))
  {
    hide DecodeFunction, EndsFunction, WellFormed, StoppedAfter, FrameOk;
    ProgramEndIsNotACall();
    var s := StoppedAfter(env, c, n);
    StateIs(env.code, s);
    PlaceParts(env.code, s.pc, s.list + s.host);
  }

  /** A dispatch falls through all four tests exactly when the configured quantum is negative and
      neither the end of the program nor a signal was there from the start. */
  lemma LostExactlyWhen(env: Env, c: Config)
    requires ConfigOk(env.code, c)
    ensures OutcomeOf(env, Dispatched(env, c)) == Lost
        <==> env.quantum < 0 && env.alarm > 0 && !Finished(env.code, c)
  {
    hide DecodeFunction, DecodeMain, Execute, EndsFunction, StackOk, WellFormed, Step;
    BeginOk(env.code, c);
    DispatchCounts(env, c);
  }

  /** The process goes to the list of suspended ones exactly when the signal had come by the time the
      dispatch stopped, and the script was neither at its end nor blocked. */
  lemma SuspendedExactlyWhen(env: Env, c: Config)
    requires ConfigOk(env.code, c)
    ensures var s := Dispatched(env, c);
            && (OutcomeOf(env, s) == Suspended <==> s.ticks >= env.alarm && !Finished(env.code, Image(s)) && !s.blocked)
            && (OutcomeOf(env, s) == Suspended ==> s.ticks == env.alarm || (s.ticks == 0 && env.alarm == 0))
            && (s.ticks < env.alarm ==> OutcomeOf(env, s) != Suspended)
  {
    hide DecodeFunction, DecodeMain, Execute, EndsFunction, StackOk, WellFormed, Step;
    DispatchCounts(env, c);
    ProgramEndIsNotACall();
  }

  /** The process goes to the end-of-quantum queue exactly when the quantum is not negative and nothing
      else stopped the dispatch; then all of the quantum was charged under round robin, and without
      round robin the quantum must be zero. */
  lemma EndOfQuantumExactlyWhen(env: Env, c: Config)
    requires ConfigOk(env.code, c)
    ensures var s := Dispatched(env, c);
            && (OutcomeOf(env, s) == EndOfQuantum
                <==> env.quantum >= 0 && s.ticks < env.alarm && !Finished(env.code, Image(s)) && !s.blocked)
            && (OutcomeOf(env, s) == EndOfQuantum && env.roundRobin ==> s.burst == env.quantum)
            && (OutcomeOf(env, s) == EndOfQuantum && !env.roundRobin ==> env.quantum == 0)
  {
    hide DecodeFunction, DecodeMain, Execute, EndsFunction, StackOk, WellFormed, Step;
    DispatchCounts(env, c);
    ProgramEndIsNotACall();
  }

  /** A finished process has no open call and no request of its own pending, so it can be freed;
      a blocked one is never taken for finished. */
  lemma DoneExactlyWhen(env: Env, c: Config)
    requires ConfigOk(env.code, c)
    ensures var s := Dispatched(env, c);
            && (OutcomeOf(env, s) == Done <==> Finished(env.code, Image(s)))
            && (OutcomeOf(env, s) == Done ==> !s.blocked && Image(s).stack == [])
            && (OutcomeOf(env, s) == Blocked <==> s.blocked)
  {
    hide DecodeFunction, DecodeMain, Execute, EndsFunction, StackOk, WellFormed, Step;
    DispatchCounts(env, c);
    ProgramEndIsNotACall();
  }

  /** One round of the dispatch loop up to the choice of the outcome, with the burst estimate. */
  method Dispatch(p: Interpreter.ProcessImage, env: Env, alfa: real) returns (outcome: Outcome)
    requires ConfigOk(env.code, p.Config())
    modifies p
    ensures p.Config() == Image(Dispatched(env, old(p.Config())))
    ensures outcome == OutcomeOf(env, Dispatched(env, old(p.Config())))
    ensures outcome == Done <==> Finished(env.code, p.Config())
    ensures var s := Dispatched(env, old(p.Config()));
            && (outcome == Blocked <==> s.blocked)
            && (outcome == Suspended <==> s.ticks >= env.alarm && outcome != Done && outcome != Blocked)
            && (outcome == EndOfQuantum
                <==> env.quantum >= 0 && s.ticks < env.alarm && outcome != Done && outcome != Blocked)
            && (outcome == Lost <==> env.quantum < 0 && env.alarm > 0 && !Finished(env.code, old(p.Config())))
    ensures p.tspn == old(p.tspn) * alfa + Dispatched(env, old(p.Config())).burst as real * (1.0 - alfa)
  {
    hide DecodeFunction, DecodeMain, Execute, EndsFunction, StackOk, WellFormed, Run;
    var b := new Interpreter.Burst();
    ghost var c := p.Config();
    BeginOk(env.code, c);
    assert p.Abs(b, []) == Begin(c);
    p.ProcessExecution(env, b);
    ghost var s := Dispatched(env, c);
    assert s.host[0..] == s.host;
    assert p.Abs(b, []) == Folded(s, 0);
    p.tspn := p.tspn * alfa + b.burst as real * (1.0 - alfa);
    if env.code[p.pc] == PROGRAM_END {
      outcome := Done;
    } else if b.blocked {
      outcome := Blocked;
    } else if b.ticks >= env.alarm {
      outcome := Suspended;
    } else if b.used == env.quantum {
      outcome := EndOfQuantum;
    } else {
      outcome := Lost;
    }
    DoneExactlyWhen(env, c);
    SuspendedExactlyWhen(env, c);
    EndOfQuantumExactlyWhen(env, c);
    LostExactlyWhen(env, c);
  }
}
