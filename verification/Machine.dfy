/** Two machines for one process.
    `Config` is the reference: an explicit call stack, one statement at a time, nothing ever
    interrupts it. `State` is what the interpreter really holds during a dispatch: frames still
    parked on the process's list, and frames held by live activations of `functionExecution`. */
module Machine {
  import opened Script

  datatype Frame = Frame(name: string, pc: nat, linecall: nat)

  predicate AtEnd(code: seq<string>, f: Frame) {
    f.pc < |code| && EndsFunction(code[f.pc], f.name)
  }

  predicate AtCall(code: seq<string>, f: Frame) {
    f.pc < |code| && DecodeFunction(code[f.pc]).Call?
  }

  predicate FrameOk(code: seq<string>, f: Frame) {
    NameOk(f.name) && ReachesFunctionEnd(code, f.pc, f.name)
  }

  function Last<T>(s: seq<T>): T
    requires s != []
  {
    s[|s| - 1]
  }

  function Front<T>(s: seq<T>): seq<T>
    requires s != []
  {
    s[..|s| - 1]
  }

  lemma Assoc<T>(a: seq<T>, b: seq<T>, c: seq<T>)
    ensures (a + b) + c == a + (b + c)
  {
  }

  lemma TopOf<T>(low: seq<T>, high: seq<T>)
    requires high != []
    ensures Last(low + high) == Last(high) && Front(low + high) == low + Front(high)
  {
  }

  /** All frames are in range, those below the top stand at a call, the top one has not ended. */
  predicate StackOk(code: seq<string>, stack: seq<Frame>) {
    && (forall i :: 0 <= i < |stack| ==> FrameOk(code, stack[i]))
    && (forall i :: 0 <= i < |stack| - 1 ==> AtCall(code, stack[i]))
    && (stack != [] ==> !AtEnd(code, Last(stack)))
  }

  /** A pending call keeps the main program at a call line. */
  predicate PlaceOk(code: seq<string>, pc: nat, stack: seq<Frame>) {
    && WellFormed(code)
    && ReachesProgramEnd(code, pc)
    && StackOk(code, stack)
    && (stack != [] ==> DecodeFunction(code[pc]).Call?)
  }

  /** The frame a call at line `pc` pushes. */
  function Entered(code: seq<string>, name: string, pc: nat): Frame {
    Frame(name, FunctionLine(code, name), pc)
  }

  /** Where the main program goes on after the statement at line `pc`. */
  function Target(code: seq<string>, instr: Instr, pc: nat, data: Data): nat {
    match instr
    case JumpIfZero(v, tag) => if Read(data, v) == 0 then TagLine(code, tag) else pc
    case JumpIfNonzero(v, tag) => if Read(data, v) != 0 then TagLine(code, tag) else pc
    case _ => pc
  }

  // ----- the reference machine

  datatype Config = Config(pc: nat, memory: Memory, stack: seq<Frame>)

  predicate ConfigOk(code: seq<string>, c: Config) {
    PlaceOk(code, c.pc, c.stack)
  }

  predicate Finished(code: seq<string>, c: Config) {
    c.pc < |code| && code[c.pc] == PROGRAM_END
  }

  function Settled(code: seq<string>, stack: seq<Frame>): seq<Frame>
    requires stack != []
  {
    if AtEnd(code, Last(stack)) then Front(stack) else stack
  }

  function RefFunctionStep(code: seq<string>, accepts: nat -> bool, c: Config): Config
    requires ConfigOk(code, c) && c.stack != []
  {
    FunctionStatement(code, c.pc, c.stack);
    var f := Last(c.stack).(pc := Last(c.stack).pc + 1);
    var instr := DecodeFunction(code[f.pc]);
    var stack := Front(c.stack) + [f];
    if instr.Call? then c.(stack := stack + [Entered(code, instr.name, f.pc)])
    else Config(c.pc, Execute(accepts, instr, code[f.pc], f.pc, c.memory).memory, Settled(code, stack))
  }

  function RefMainStep(code: seq<string>, accepts: nat -> bool, c: Config): Config
    requires ConfigOk(code, c) && c.stack == [] && code[c.pc] != PROGRAM_END
  {
    MainStatement(code, c.pc, c.memory.data);
    var pc := c.pc + 1;
    var instr := DecodeMain(code[pc]);
    if instr.Call? then Config(pc, c.memory, [Entered(code, instr.name, pc)])
    else Config(Target(code, instr, pc, c.memory.data), Execute(accepts, instr, code[pc], pc, c.memory).memory, [])
  }

  lemma RefStepKeepsOk(code: seq<string>, accepts: nat -> bool, c: Config)
    requires ConfigOk(code, c)
    ensures c.stack != [] ==> ConfigOk(code, RefFunctionStep(code, accepts, c))
    ensures c.stack == [] && code[c.pc] != PROGRAM_END ==> ConfigOk(code, RefMainStep(code, accepts, c))
  {
    hide DecodeFunction, DecodeMain, Execute, EndsFunction, StackOk;
    if c.stack != [] {
      FunctionStatement(code, c.pc, c.stack);
    } else if code[c.pc] != PROGRAM_END {
      MainStatement(code, c.pc, c.memory.data);
    }
  }

  function RefStep(code: seq<string>, accepts: nat -> bool, c: Config): (r: Config)
    requires ConfigOk(code, c)
    ensures ConfigOk(code, r)
  {
    RefStepKeepsOk(code, accepts, c);
    if Finished(code, c) then c
    else if c.stack != [] then RefFunctionStep(code, accepts, c)
    else RefMainStep(code, accepts, c)
  }

  /** One statement of the running function, in the reference machine. */
  lemma RefLiveStep(code: seq<string>, accepts: nat -> bool, c: Config, below: seq<Frame>, e: Frame)
    requires ConfigOk(code, c) && !Finished(code, c) && c.stack == below + [e]
    ensures var f := e.(pc := e.pc + 1);
            && f.pc < |code|
            && var instr := DecodeFunction(code[f.pc]);
            RefStep(code, accepts, c) ==
              if instr.Call? then c.(stack := below + [f] + [Entered(code, instr.name, f.pc)])
              else Config(c.pc, Execute(accepts, instr, code[f.pc], f.pc, c.memory).memory,
                          if AtEnd(code, f) then below else below + [f])
  {
    hide DecodeFunction, Execute, EndsFunction, StackOk, WellFormed, Settled, AtEnd, Entered, ReachesProgramEnd, Last,
         Front, RefMainStep;
    FunctionStatement(code, c.pc, c.stack);
    SettledIs(code, below, e);
    SettledIs(code, below, e.(pc := e.pc + 1));
  }

  /** The configuration after `n` statements of an uninterrupted run. */
  function RefRun(code: seq<string>, accepts: nat -> bool, c: Config, n: nat): (r: Config)
    requires ConfigOk(code, c)
    ensures ConfigOk(code, r)
    decreases n
  {
    if n == 0 then c else RefRun(code, accepts, RefStep(code, accepts, c), n - 1)
  }

  lemma FrameMoves(code: seq<string>, f: Frame)
    requires WellFormed(code) && FrameOk(code, f) && !AtEnd(code, f)
    ensures f.pc + 1 < |code| && FrameOk(code, f.(pc := f.pc + 1))
  {
    var j :| f.pc <= j < |code| && EndsFunction(code[j], f.name);
  }

  lemma EnteredOk(code: seq<string>, pc: nat)
    requires WellFormed(code) && pc < |code| && DecodeFunction(code[pc]).Call?
    ensures var g := Entered(code, DecodeFunction(code[pc]).name, pc); FrameOk(code, g) && !AtEnd(code, g)
  {
    assert LineOk(code, pc);
    BeginIsNotAnEnd(DecodeFunction(code[pc]).name);
  }

  lemma StackPush(code: seq<string>, stack: seq<Frame>, g: Frame)
    requires StackOk(code, stack) && FrameOk(code, g) && !AtEnd(code, g)
    requires stack != [] ==> AtCall(code, Last(stack))
    ensures StackOk(code, stack + [g])
  {
  }

  lemma StackPop(code: seq<string>, stack: seq<Frame>)
    requires StackOk(code, stack) && stack != []
    ensures StackOk(code, Front(stack))
    ensures Front(stack) != [] <==> |stack| > 1
    ensures |stack| > 1 ==> AtCall(code, Last(Front(stack)))
  {
    if |stack| > 1 {
      var below := stack[|stack| - 2];
      assert FrameOk(code, below) && AtCall(code, below);
      CallIsNotAnEnd(code[below.pc], below.name);
    }
  }

  // Moving the top frame on by one line keeps the stack in order.
  lemma FunctionStatement(code: seq<string>, pc: nat, stack: seq<Frame>)
    requires PlaceOk(code, pc, stack) && stack != []
    ensures var f := Last(stack).(pc := Last(stack).pc + 1);
            && f.pc < |code|
            && FrameOk(code, f)
            && PlaceOk(code, pc, Settled(code, Front(stack) + [f]))
            && (DecodeFunction(code[f.pc]).Call? ==>
                  PlaceOk(code, pc, Front(stack) + [f] + [Entered(code, DecodeFunction(code[f.pc]).name, f.pc)]))
  {
    hide *;
    PlaceParts(code, pc, stack);
    StackTop(code, stack);
    var f := Last(stack).(pc := Last(stack).pc + 1);
    var below := Front(stack);
    FrameMoves(code, Last(stack));
    StackPop(code, stack);
    SettledIs(code, below, f);
    if !AtEnd(code, f) {
      StackPush(code, below, f);
    }
    PlaceFrom(code, pc, Settled(code, below + [f]));
    if DecodeFunction(code[f.pc]).Call? {
      CallFrame(code, f);
      EnteredOk(code, f.pc);
      var g := Entered(code, DecodeFunction(code[f.pc]).name, f.pc);
      StackPush(code, below + [f], g);
      PlaceFrom(code, pc, below + [f] + [g]);
    }
  }

  lemma PlaceParts(code: seq<string>, pc: nat, stack: seq<Frame>)
    requires PlaceOk(code, pc, stack)
    ensures WellFormed(code) && ReachesProgramEnd(code, pc) && StackOk(code, stack) && pc < |code|
    ensures stack != [] ==> DecodeFunction(code[pc]).Call?
  {
    hide WellFormed, StackOk, DecodeFunction;
  }

  lemma PlaceFrom(code: seq<string>, pc: nat, stack: seq<Frame>)
    requires WellFormed(code) && ReachesProgramEnd(code, pc) && StackOk(code, stack) && pc < |code|
    requires stack != [] ==> DecodeFunction(code[pc]).Call?
    ensures PlaceOk(code, pc, stack)
  {
    hide WellFormed, StackOk, DecodeFunction, ReachesProgramEnd;
  }

  lemma StackTop(code: seq<string>, stack: seq<Frame>)
    requires StackOk(code, stack) && stack != []
    ensures FrameOk(code, Last(stack)) && !AtEnd(code, Last(stack))
  {
    hide FrameOk, AtEnd, AtCall;
  }

  lemma SettledIs(code: seq<string>, below: seq<Frame>, f: Frame)
    ensures Settled(code, below + [f]) == if AtEnd(code, f) then below else below + [f]
    ensures Last(below + [f]) == f && Front(below + [f]) == below
  {
    hide AtEnd;
  }

  lemma CallFrame(code: seq<string>, f: Frame)
    requires FrameOk(code, f) && DecodeFunction(code[f.pc]).Call?
    ensures AtCall(code, f) && !AtEnd(code, f)
  {
    hide DecodeFunction, EndsFunction;
    CallIsNotAnEnd(code[f.pc], f.name);
  }

  // Moving the main program on by one line keeps it before its end.
  lemma MainStatement(code: seq<string>, pc: nat, data: Data)
    requires PlaceOk(code, pc, []) && code[pc] != PROGRAM_END
    ensures pc + 1 < |code|
    ensures var instr := DecodeMain(code[pc + 1]);
            && PlaceOk(code, Target(code, instr, pc + 1, data), [])
            && (instr.Call? ==> PlaceOk(code, pc + 1, [Entered(code, instr.name, pc + 1)]))
  {
    var j :| pc <= j < |code| && code[j] == PROGRAM_END;
    assert ReachesProgramEnd(code, pc + 1);
    var instr := DecodeMain(code[pc + 1]);
    assert LineOk(code, pc + 1);
    if instr.Call? {
      MainCallIsFunctionCall(code[pc + 1]);
      BeginIsNotAnEnd(instr.name);
    }
    if JumpTag(instr).Some? {
      assert TagOk(code, JumpTag(instr).value);
    }
  }

  // ----- the machine the interpreter runs

  /** What a dispatch cannot change. `alarm` is the number of statements after which SIGUSR1 has
      raised SUSPEND. */
  datatype Env = Env(code: seq<string>, accepts: nat -> bool, roundRobin: bool, quantum: int, alarm: nat)

  /** `list` is the process's frame list, `host` the frames held by live activations, outermost first. */
  datatype State = State(pc: nat, memory: Memory, list: seq<Frame>, host: seq<Frame>,
                         used: nat, burst: nat, blocked: bool, ticks: nat)

  predicate StateOk(code: seq<string>, s: State) {
    PlaceOk(code, s.pc, s.list + s.host)
  }

  predicate Interrupted(env: Env, s: State) {
    s.ticks >= env.alarm || s.blocked || s.used >= env.quantum
  }

  predicate Stopped(env: Env, s: State) {
    Interrupted(env, s) || (s.pc < |env.code| && env.code[s.pc] == PROGRAM_END)
  }

  /** `stackExecution`: the topmost parked frame becomes live. */
  function Resumed(s: State): State {
    if s.host == [] && s.list != [] then s.(list := Front(s.list), host := [Last(s.list)]) else s
  }

  /** Control is back in the caller. It takes any frame left on the list for its interrupted
      callee, and parks itself in front (`reorderStack`). */
  function Returned(s: State): (r: State)
    ensures |r.host| == |s.host|
  {
    if s.host != [] && s.list != [] then
      s.(list := [Last(s.host)] + Front(s.list), host := Front(s.host) + [Last(s.list)])
    else s
  }

  function Left(code: seq<string>, s: State): State
    requires s.host != []
  {
    if AtEnd(code, Last(s.host)) then Returned(s.(host := Front(s.host))) else s
  }

  function Charge(env: Env, s: State, e: Effect): State {
    s.(memory := e.memory,
       used := if e.charged && env.roundRobin then s.used + 1 else s.used,
       burst := if e.charged then s.burst + 1 else s.burst,
       blocked := s.blocked || e.blocks)
  }

  function FunctionStep(env: Env, s: State): State
    requires StateOk(env.code, s) && s.host != []
  {
    FunctionStatement(env.code, s.pc, s.list + s.host);
    var f := Last(s.host).(pc := Last(s.host).pc + 1);
    var instr := DecodeFunction(env.code[f.pc]);
    var moved := s.(host := Front(s.host) + [f], ticks := s.ticks + 1);
    if instr.Call? then moved.(host := moved.host + [Entered(env.code, instr.name, f.pc)])
    else Left(env.code, Charge(env, moved, Execute(env.accepts, instr, env.code[f.pc], f.pc, s.memory)))
  }

  function MainStep(env: Env, s: State): State
    requires StateOk(env.code, s) && s.list == s.host == [] && env.code[s.pc] != PROGRAM_END
  {
    MainStatement(env.code, s.pc, s.memory.data);
    var pc := s.pc + 1;
    var instr := DecodeMain(env.code[pc]);
    var moved := s.(pc := pc, ticks := s.ticks + 1);
    if instr.Call? then moved.(host := [Entered(env.code, instr.name, pc)])
    else Charge(env, moved.(pc := Target(env.code, instr, pc, s.memory.data)),
                Execute(env.accepts, instr, env.code[pc], pc, s.memory))
  }

  function Step(env: Env, s: State): (r: State)
    requires StateOk(env.code, s) && !Stopped(env, s)
    ensures StateOk(env.code, r) && r.ticks == s.ticks + 1
    ensures s.host != [] ==> |r.host| >= |s.host| - 1
  {
    hide *;
    StepKeepsOk(env, s);
    var r := Resumed(s);
    if r.host != [] then FunctionStep(env, r) else MainStep(env, r)
  }

  lemma ReturnedKeepsOk(code: seq<string>, s: State)
    requires StateOk(code, s)
    requires s.host != [] && s.list != [] ==> AtCall(code, Last(s.host))
    ensures StateOk(code, Returned(s))
  {
    hide DecodeFunction, DecodeMain, Execute, EndsFunction;
    if s.host != [] && s.list != [] {
      var t := Returned(s);
      var was := s.list + s.host;
      var all := t.list + t.host;
      var n := |s.list|;
      assert |all| == |was|;
      assert was[n - 1] == Last(s.list) && was[|was| - 1] == Last(s.host);
      forall i | 0 <= i < |all|
        ensures all[i] in was
      {
        if i == 0 { assert all[0] == was[|was| - 1]; }
        else if i < n { assert all[i] == was[i - 1]; }
        else if i < |all| - 1 { assert all[i] == was[i]; }
        else { assert all[i] == was[n - 1]; }
      }
      forall i | 0 <= i < |all|
        ensures FrameOk(code, all[i]) && AtCall(code, all[i])
      {
      }
      CallIsNotAnEnd(code[Last(all).pc], Last(all).name);
    }
  }

  lemma LeftKeepsOk(code: seq<string>, s: State)
    requires s.host != [] && PlaceOk(code, s.pc, Settled(code, s.list + s.host))
    requires |s.list + s.host| > 1 ==> AtCall(code, Last(Front(s.list + s.host)))
    requires DecodeFunction(code[s.pc]).Call?
    ensures StateOk(code, Left(code, s))
  {
    hide *;
    var below := s.(host := Front(s.host));
    TopOf(s.list, s.host);
    LeftIs(code, s);
    StateIs(code, s);
    StateIs(code, below);
    if AtEnd(code, Last(s.host)) {
      if below.host != [] {
        TopOf(s.list, below.host);
        NotEmptyBelow(s.list, below.host);
      }
      ReturnedKeepsOk(code, below);
    }
  }

  lemma NotEmptyBelow<T>(low: seq<T>, high: seq<T>)
    requires high != []
    ensures low + high != []
  {
  }

  lemma LeftIs(code: seq<string>, s: State)
    requires s.host != []
    ensures Left(code, s) == if AtEnd(code, Last(s.host)) then Returned(s.(host := Front(s.host))) else s
    ensures Settled(code, s.list + s.host)
            == if AtEnd(code, Last(s.host)) then s.list + Front(s.host) else s.list + s.host
    ensures |s.list + s.host| > 1 <==> s.list + Front(s.host) != []
  {
    hide AtEnd, Returned;
    TopOf(s.list, s.host);
  }

  lemma StateIs(code: seq<string>, s: State)
    ensures StateOk(code, s) <==> PlaceOk(code, s.pc, s.list + s.host)
  {
  }

  lemma FunctionStepIs(env: Env, s: State)
    requires StateOk(env.code, s) && s.host != []
    ensures var f := Last(s.host).(pc := Last(s.host).pc + 1);
            && f.pc < |env.code|
            && var instr := DecodeFunction(env.code[f.pc]);
            var moved := s.(host := Front(s.host) + [f], ticks := s.ticks + 1);
            FunctionStep(env, s) ==
              if instr.Call? then moved.(host := moved.host + [Entered(env.code, instr.name, f.pc)])
              else Left(env.code, Charge(env, moved, Execute(env.accepts, instr, env.code[f.pc], f.pc, s.memory)))
  {
    hide DecodeFunction, Execute, StackOk, WellFormed, Settled, Left, Charge, Entered, Last, Front;
    FunctionStatement(env.code, s.pc, s.list + s.host);
    TopOf(s.list, s.host);
  }

  lemma ChargeKeepsPlace(env: Env, s: State, e: Effect)
    ensures var t := Charge(env, s, e); t.pc == s.pc && t.list == s.list && t.host == s.host && t.ticks == s.ticks
  {
  }

  lemma FunctionStepKeepsOk(env: Env, s: State)
    requires StateOk(env.code, s) && s.host != []
    ensures StateOk(env.code, FunctionStep(env, s))
  {
    hide *;
    FunctionStepIs(env, s);
    StateIs(env.code, s);
    var code, all := env.code, s.list + s.host;
    PlaceParts(code, s.pc, all);
    FunctionStatement(code, s.pc, all);
    StackPop(code, all);
    TopOf(s.list, s.host);
    var below := Front(s.host);
    var f := Last(s.host).(pc := Last(s.host).pc + 1);
    var host := below + [f];
    var instr := DecodeFunction(code[f.pc]);
    Assoc(s.list, below, [f]);
    var moved := s.(host := host, ticks := s.ticks + 1);
    if instr.Call? {
      var g := Entered(code, instr.name, f.pc);
      Assoc(s.list, host, [g]);
      StateIs(code, moved.(host := host + [g]));
    } else {
      SettledIs(code, s.list + below, f);
      var e := Execute(env.accepts, instr, code[f.pc], f.pc, s.memory);
      ChargeKeepsPlace(env, moved, e);
      LeftKeepsOk(code, Charge(env, moved, e));
    }
  }

  lemma MainStepKeepsOk(env: Env, s: State)
    requires StateOk(env.code, s) && s.list == s.host == [] && env.code[s.pc] != PROGRAM_END
    ensures StateOk(env.code, MainStep(env, s))
  {
    hide DecodeFunction, DecodeMain, Execute, EndsFunction, WellFormed, StackOk, Target, ReachesProgramEnd;
    assert s.list + s.host == [];
    MainStatement(env.code, s.pc, s.memory.data);
    var t := MainStep(env, s);
    assert t.list == [] && t.list + t.host == t.host;
  }

  lemma StepKeepsOk(env: Env, s: State)
    requires StateOk(env.code, s) && !Stopped(env, s)
    ensures var r := Resumed(s);
            && StateOk(env.code, r)
            && (r.host == [] ==> r.list == [] && env.code[r.pc] != PROGRAM_END)
            && var t := if r.host != [] then FunctionStep(env, r) else MainStep(env, r);
            && StateOk(env.code, t) && t.ticks == s.ticks + 1
            && (s.host != [] ==> |t.host| >= |s.host| - 1)
  {
    hide DecodeFunction, DecodeMain, Execute, EndsFunction;
    var r := Resumed(s);
    assert r.list + r.host == s.list + s.host;
    if r.host != [] {
      FunctionStepKeepsOk(env, r);
    } else {
      MainStepKeepsOk(env, r);
    }
  }

  /** While a function runs, the main program is at a call, and the running frame has not ended. */
  lemma LiveFrame(code: seq<string>, s: State)
    requires StateOk(code, s) && s.host != []
    ensures s.pc < |code| && code[s.pc] != PROGRAM_END
    ensures Last(s.host).pc < |code| && !AtEnd(code, Last(s.host))
  {
    ProgramEndIsNotACall();
    StateIs(code, s);
    TopOf(s.list, s.host);
    PlaceParts(code, s.pc, s.list + s.host);
    StackTop(code, s.list + s.host);
    hide DecodeFunction, EndsFunction, WellFormed, StackOk, PlaceOk, StateOk, Last, Front;
  }

  lemma ResumedStep(env: Env, s: State)
    requires StateOk(env.code, s) && !Stopped(env, s)
    ensures var r := Resumed(s);
            && StateOk(env.code, r) && !Stopped(env, r)
            && r.list + r.host == s.list + s.host
            && Step(env, r) == Step(env, s)
  {
    hide DecodeFunction, DecodeMain, Execute, EndsFunction, StackOk, WellFormed, PlaceOk, MainStep, FunctionStep;
    assert Resumed(s).list + Resumed(s).host == s.list + s.host;
    assert Resumed(Resumed(s)) == Resumed(s);
  }

  /** One statement of the innermost live frame. */
  lemma LiveStep(env: Env, s: State, outer: seq<Frame>, e: Frame)
    requires StateOk(env.code, s) && !Stopped(env, s) && s.host == outer + [e]
    ensures var f := e.(pc := e.pc + 1);
            && f.pc < |env.code|
            && var instr := DecodeFunction(env.code[f.pc]);
            var moved := s.(host := outer + [f], ticks := s.ticks + 1);
            var charged := Charge(env, moved, Execute(env.accepts, instr, env.code[f.pc], f.pc, s.memory));
            Step(env, s) ==
              if instr.Call? then moved.(host := outer + [f] + [Entered(env.code, instr.name, f.pc)])
              else if AtEnd(env.code, f) then Returned(charged.(host := outer))
              else charged
  {
    hide DecodeFunction, Execute, EndsFunction, StackOk, WellFormed, PlaceOk, Returned;
    assert Last(s.host) == e && Front(s.host) == outer;
    FunctionStatement(env.code, s.pc, s.list + s.host);
    assert Last(s.list + s.host) == e;
    var f := e.(pc := e.pc + 1);
    assert Last(outer + [f]) == f && Front(outer + [f]) == outer;
    assert Resumed(s) == s;
  }

  /** One statement of the main program. */
  lemma MainStepIs(env: Env, s: State)
    requires StateOk(env.code, s) && !Stopped(env, s) && s.list == s.host == []
    ensures var pc := s.pc + 1;
            && pc < |env.code|
            && var instr := DecodeMain(env.code[pc]);
            var moved := s.(ticks := s.ticks + 1);
            Step(env, s) ==
              if instr.Call? then moved.(pc := pc, host := [Entered(env.code, instr.name, pc)])
              else Charge(env, moved.(pc := Target(env.code, instr, pc, s.memory.data)),
                          Execute(env.accepts, instr, env.code[pc], pc, s.memory))
  {
    hide DecodeFunction, DecodeMain, Execute, EndsFunction, StackOk, WellFormed, Target;
    MainStatement(env.code, s.pc, s.memory.data);
  }

  /** The dispatch: statements until something stops it. */
  function Run(env: Env, s: State): (r: State)
    requires StateOk(env.code, s)
    ensures StateOk(env.code, r) && Stopped(env, r) && r.ticks >= s.ticks
    decreases env.alarm - s.ticks
  {
    if Stopped(env, s) then s else Run(env, Step(env, s))
  }

  /** The part of a dispatch that has more than `depth` live activations. */
  function RunAbove(env: Env, s: State, depth: nat): (r: State)
    requires StateOk(env.code, s)
    ensures StateOk(env.code, r) && r.ticks >= s.ticks
    ensures Stopped(env, r) || |r.host| <= depth
    ensures |s.host| > depth ==> |r.host| >= depth
    decreases env.alarm - s.ticks
  {
    if Stopped(env, s) || |s.host| <= depth then s else RunAbove(env, Step(env, s), depth)
  }

  lemma RunAboveStops(env: Env, s: State, depth: nat)
    requires StateOk(env.code, s) && Stopped(env, s)
    ensures RunAbove(env, s, depth) == s
  {
  }

  lemma {:induction false} RunAboveComposes(env: Env, s: State, depth: nat)
    requires StateOk(env.code, s)
    ensures RunAbove(env, s, depth) == RunAbove(env, RunAbove(env, s, depth + 1), depth)
    decreases env.alarm - s.ticks
  {
    if !Stopped(env, s) && |s.host| > depth + 1 {
      RunAboveComposes(env, Step(env, s), depth);
    }
  }

  lemma {:induction false} RunFromRunAbove(env: Env, s: State)
    requires StateOk(env.code, s)
    ensures Run(env, s) == Run(env, RunAbove(env, s, 0))
    decreases env.alarm - s.ticks
  {
    if !Stopped(env, s) && |s.host| > 0 {
      RunFromRunAbove(env, Step(env, s));
    }
  }

  /** Every live activation unwinds: the innermost parks its frame behind the list, each caller
      then parks its own in front (`reorderStack`). */
  function Unwound(list: seq<Frame>, host: seq<Frame>): seq<Frame> {
    if host == [] then list else Front(host) + list + [Last(host)]
  }

  lemma NotEmptied(list: seq<Frame>, host: seq<Frame>)
    requires host != []
    ensures Unwound(list, host) != [] && Last(Unwound(list, host)) == Last(host)
  {
  }

  lemma UnwoundBelow(list: seq<Frame>, host: seq<Frame>, d: nat)
    requires d + 1 < |host|
    ensures Unwound(list, host[d + 1..]) != []
    ensures Last(Unwound(list, host[d + 1..])) == Last(host)
    ensures Unwound(list, host[d..]) == [host[d]] + Unwound(list, host[d + 1..])
  {
    var x, high := [host[d]], host[d + 1..];
    assert host[d..] == x + high && Last(high) == Last(host);
    hide Last, Front;
    TopOf(x, high);
    Assoc(x, Front(high), list);
    Assoc(x, Front(high) + list, [Last(high)]);
    NotEmptied(list, high);
  }

  /** `s` once its live activations beyond the first `depth` have unwound. */
  function Folded(s: State, depth: nat): State
    requires depth <= |s.host|
  {
    s.(list := Unwound(s.list, s.host[depth..]), host := s.host[..depth])
  }

  lemma FoldedKeepsOk(code: seq<string>, s: State)
    requires StateOk(code, s)
    ensures StateOk(code, Folded(s, 0))
  {
    hide DecodeFunction, DecodeMain, EndsFunction;
    if s.host != [] {
      var was := s.list + s.host;
      var all := Unwound(s.list, s.host);
      var m := |s.host| - 1;
      assert s.host[0..] == s.host;
      forall i | 0 <= i < |all|
        ensures exists j :: 0 <= j < |was| && all[i] == was[j] && (i < |all| - 1 ==> j < |was| - 1)
      {
        var j := if i < m then |s.list| + i else if i < |all| - 1 then i - m else |was| - 1;
        assert all[i] == was[j];
      }
      assert Last(all) == Last(was);
    }
    assert Folded(s, 0).list + [] == Unwound(s.list, s.host[0..]);
  }

  /** The process image a dispatch that stopped in `s` leaves behind. */
  function Image(s: State): Config {
    Config(s.pc, s.memory, Unwound(s.list, s.host))
  }

  /** The state a dispatch of image `c` starts in (PROCER.c:22-25). */
  function Begin(c: Config): State {
    State(c.pc, c.memory, c.stack, [], 0, 0, false, 0)
  }
}
