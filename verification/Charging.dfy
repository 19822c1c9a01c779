/**
 * What is charged to the quantum and to the burst estimate, and how a dispatch of plain assignments
 * ends.
 */
module Charging {
  import opened Script
  import opened Machine
  import opened Histories
  import opened Outcomes

  /** Assignments, jumps and requests that store their answer are charged; declarations, prints, calls,
      bare requests, tags and empty lines are not. */
  predicate IsCharged(instr: Instr) {
    match instr
    case Assign(_) => true
    case JumpIfZero(_, _) => true
    case JumpIfNonzero(_, _) => true
    case AskIo(StoreIn(_), _, _) => true
    case _ => false
  }

  /** The statement a dispatch executes next. */
  function Upcoming(env: Env, s: State): Instr
    requires StateOk(env.code, s) && !Stopped(env, s)
  {
    UpcomingExists(env, s);
    var r := Resumed(s);
    if r.host == [] then DecodeMain(env.code[r.pc + 1]) else DecodeFunction(env.code[Last(r.host).pc + 1])
  }

  lemma UpcomingExists(env: Env, s: State)
    requires StateOk(env.code, s) && !Stopped(env, s)
    ensures var r := Resumed(s);
            if r.host == [] then r.pc + 1 < |env.code| else Last(r.host).pc + 1 < |env.code|
  {
    hide DecodeFunction, DecodeMain, Execute, EndsFunction, StackOk, WellFormed, Step;
    ResumedStep(env, s);
    var r := Resumed(s);
    if r.host == [] {
      MainStepIs(env, s);
    } else {
      assert r.host == Front(r.host) + [Last(r.host)];
      LiveStep(env, r, Front(r.host), Last(r.host));
    }
  }

  lemma ExecuteCharges(accepts: nat -> bool, instr: Instr, line: string, pc: nat, m: Memory)
    ensures Execute(accepts, instr, line, pc, m).charged <==> IsCharged(instr)
  {
  }

  function Unit(charged: bool): nat {
    if charged then 1 else 0
  }

  /** The counters of `t` are those of `s` with one more statement, charged or not. */
  predicate Counted(env: Env, s: State, t: State, charged: bool) {
    t.burst == s.burst + Unit(charged) && t.used == s.used + if env.roundRobin then Unit(charged) else 0
  }

  lemma MainStepCharges(env: Env, s: State)
    requires StateOk(env.code, s) && !Stopped(env, s) && s.list == s.host == []
    ensures s.pc + 1 < |env.code| && Counted(env, s, Step(env, s), IsCharged(DecodeMain(env.code[s.pc + 1])))
  {
    hide DecodeMain, Execute, StateOk, Stopped, Step, Target, IsCharged;
    MainStepIs(env, s);
    var pc := s.pc + 1;
    ExecuteCharges(env.accepts, DecodeMain(env.code[pc]), env.code[pc], pc, s.memory);
    CallsAreFree(DecodeMain(env.code[pc]));
  }

  lemma LiveStepCharges(env: Env, s: State, outer: seq<Frame>, e: Frame)
    requires StateOk(env.code, s) && !Stopped(env, s) && s.host == outer + [e]
    ensures e.pc + 1 < |env.code| && Counted(env, s, Step(env, s), IsCharged(DecodeFunction(env.code[e.pc + 1])))
  {
    hide DecodeFunction, Execute, StateOk, Stopped, Step, IsCharged, AtEnd;
    LiveStep(env, s, outer, e);
    var pc := e.pc + 1;
    ExecuteCharges(env.accepts, DecodeFunction(env.code[pc]), env.code[pc], pc, s.memory);
    CallsAreFree(DecodeFunction(env.code[pc]));
  }

  lemma CallsAreFree(instr: Instr)
    ensures instr.Call? ==> !IsCharged(instr)
  {
  }

  /** One statement adds one to the burst, and under round robin to quantumCount, if it is charged. */
  lemma StepCharges(env: Env, s: State)
    requires StateOk(env.code, s) && !Stopped(env, s)
    ensures Counted(env, s, Step(env, s), IsCharged(Upcoming(env, s)))
  {
    hide *;
    UpcomingExists(env, s);
    ResumedStep(env, s);
    UpcomingIs(env, s);
    var r := Resumed(s);
    if r.host == [] {
      MainStepCharges(env, r);
    } else {
      LastFrame(r.host);
      LiveStepCharges(env, r, Front(r.host), Last(r.host));
    }
  }

  lemma LastFrame(host: seq<Frame>)
    requires host != []
    ensures host == Front(host) + [Last(host)]
  {
  }

  lemma UpcomingIs(env: Env, s: State)
    requires StateOk(env.code, s) && !Stopped(env, s)
    ensures var r := Resumed(s);
            && r.burst == s.burst && r.used == s.used && (r.host == [] ==> r.list == [] && r.pc + 1 < |env.code|)
            && (r.host != [] ==> Last(r.host).pc + 1 < |env.code|)
            && Upcoming(env, s) == (if r.host == [] then DecodeMain(env.code[r.pc + 1])
                                    else DecodeFunction(env.code[Last(r.host).pc + 1]))
    ensures forall t, charged :: Counted(env, Resumed(s), t, charged) <==> Counted(env, s, t, charged)
  {
    hide DecodeFunction, DecodeMain, StateOk, Stopped, Unit;
    UpcomingExists(env, s);
  }

  /** How many charged statements a dispatch executes from `s` on. */
  function ChargedFrom(env: Env, s: State): nat
    requires StateOk(env.code, s)
    decreases env.alarm - s.ticks
  {
    if Stopped(env, s) then 0 else Unit(IsCharged(Upcoming(env, s))) + ChargedFrom(env, Step(env, s))
  }

  lemma {:induction false} RunCharges(env: Env, s: State)
    requires StateOk(env.code, s)
    ensures Run(env, s).burst == s.burst + ChargedFrom(env, s)
    decreases env.alarm - s.ticks
  {
    hide StateOk, Step, Upcoming, IsCharged;
    if !Stopped(env, s) {
      StepCharges(env, s);
      RunCharges(env, Step(env, s));
    }
  }

  /** The burst that goes into the SPN estimate is the number of charged statements of the dispatch. */
  lemma BurstCountsCharged(env: Env, c: Config)
    requires ConfigOk(env.code, c)
    ensures StateOk(env.code, Begin(c)) && Dispatched(env, c).burst == ChargedFrom(env, Begin(c))
  {
    hide StateOk, ConfigOk, Run, ChargedFrom;
    BeginOk(env.code, c);
    RunCharges(env, Begin(c));
    assert Begin(c).burst == 0;
  }

  // ----- a dispatch of plain assignments

  /** Lines `first` to `last` are assignments. */
  predicate AllAssignments(code: seq<string>, first: nat, last: nat) {
    last < |code| && forall i :: first <= i <= last ==> DecodeMain(code[i]).Assign?
  }

  lemma AssignmentIsNotTheEnd(line: string)
    requires DecodeMain(line).Assign?
    ensures line != PROGRAM_END
  {
    assert PROGRAM_END[1] == 'i';
  }

  function Least(a: int, b: int): int {
    if a < b then a else b
  }

  /** The main program at line `pc` with `n` statements executed and charged so far. */
  predicate Counting(s: State, pc: nat, n: nat) {
    s.pc == pc && s.list == s.host == [] && s.used == s.burst == s.ticks == n && !s.blocked
  }

  lemma AssignmentStep(env: Env, s: State, pc: nat, n: nat)
    requires StateOk(env.code, s) && Counting(s, pc, n) && env.roundRobin && n < env.alarm && n < env.quantum
    requires env.code[pc] != PROGRAM_END && AllAssignments(env.code, pc + 1, pc + 1)
    ensures !Stopped(env, s) && Counting(Step(env, s), pc + 1, n + 1)
  {
    hide DecodeFunction, DecodeMain, EndsFunction, StackOk, WellFormed, Step, SumFrom;
    MainStepIs(env, s);
  }

  lemma {:induction false} AssignmentsRun(env: Env, s: State, pc: nat, n: nat)
    requires StateOk(env.code, s) && Counting(s, pc, n) && env.roundRobin && pc < |env.code|
    requires n <= Least(env.alarm, env.quantum) && env.code[pc] != PROGRAM_END
    requires n < Least(env.alarm, env.quantum) ==>
               AllAssignments(env.code, pc + 1, pc + Least(env.alarm, env.quantum) - n)
    ensures var k := Least(env.alarm, env.quantum);
            Counting(Run(env, s), pc + k - n, k) && env.code[pc + k - n] != PROGRAM_END
    decreases env.alarm - n
  {
    hide DecodeMain, StateOk, Step;
    if n < Least(env.alarm, env.quantum) {
      AssignmentStep(env, s, pc, n);
      AssignmentIsNotTheEnd(env.code[pc + 1]);
      AssignmentsRun(env, Step(env, s), pc + 1, n + 1);
    }
  }

  /**
   * Round robin over a script of assignments: without an earlier signal the dispatch executes exactly
   * `quantum` of them and ends with the quantum; with a signal after `alarm <= quantum` of them it executes
   * exactly those and the process is suspended.
   */
  lemma AssignmentsEndTheDispatch(env: Env, c: Config)
    requires ConfigOk(env.code, c) && c.stack == [] && !Finished(env.code, c)
    requires env.roundRobin && env.quantum > 0
    requires Least(env.alarm, env.quantum) > 0 ==>
               AllAssignments(env.code, c.pc + 1, c.pc + Least(env.alarm, env.quantum))
    ensures var s, k := Dispatched(env, c), Least(env.alarm, env.quantum);
            && s.ticks == s.burst == k && Image(s).pc == c.pc + k && Image(s).stack == []
            && OutcomeOf(env, s) == if env.alarm <= env.quantum then Suspended else EndOfQuantum
  {
    hide DecodeMain, StateOk, Run;
    BeginOk(env.code, c);
    assert c.pc < |env.code| && env.code[c.pc] != PROGRAM_END by { WithinCode(env.code, c); }
    AssignmentsRun(env, Begin(c), c.pc, 0);
  }

  lemma WithinCode(code: seq<string>, c: Config)
    requires ConfigOk(code, c) && !Finished(code, c)
    ensures c.pc < |code| && code[c.pc] != PROGRAM_END
  {
    hide WellFormed, StackOk, DecodeFunction;
  }
}
