/** A script with calls three deep, for which one interruption swaps two prints. */
module DepthThree {
  import opened CStrings
  import opened Script
  import opened Machine
  import opened Transparency
  import opened Histories

  function CallLine(c: char): string { [c, '(', ')'] }

  function PrintLine(c: char): string { "imprimir " + [c] }

  function BeginLine(c: char): string { FUNCTION_BEGIN + [c] }

  function EndLine(c: char): string { FUNCTION_END + " " + [c] }

  lemma CallLineDecodes(c: char)
    requires c != '('
    ensures DecodeFunction(CallLine(c)) == DecodeMain(CallLine(c)) == Call([c])
    ensures forall d :: !EndsFunction(CallLine(c), [d])
  {
    var line := CallLine(c);
    assert line[2..] == ")" && line[1..] == "()";
    assert Scan(line, d => d == '(') == 1;
    assert line[1] == '(' && "io("[1] == 'o' && "ssc"[1] == 's' && "snc"[1] == 'n';
    assert line[..1] == [c];
  }

  lemma PrintLineDecodes(c: char)
    requires c != ':'
    ensures DecodeFunction(PrintLine(c)) == DecodeMain(PrintLine(c)) == Print(c)
    ensures forall d :: !EndsFunction(PrintLine(c), [d])
  {
    var line := PrintLine(c);
    assert line[9..] == [c];
    assert line[..8] == "imprimir";
    assert line[0] == 'i' && "variables"[0] == 'v' && FUNCTION_END[0] == 'f';
  }

  lemma EndLineDecodes(c: char, d: char)
    requires c != ':' && c != ')'
    ensures DecodeFunction(EndLine(c)) == DecodeMain(EndLine(c)) == Nothing
    ensures EndsFunction(EndLine(c), [d]) <==> c == d
  {
    var line := EndLine(c);
    assert line[12..] == [c];
    assert line[11..][1] == c;
    assert line[0] == 'f' && line[1] == 'i';
    assert line[..11] == FUNCTION_END;
  }

  lemma ProgramEndDecodes()
    ensures DecodeMain(PROGRAM_END) == DecodeFunction(PROGRAM_END) == Nothing
    ensures DecodeFunction("") == DecodeMain("") == Nothing
    ensures forall d :: !EndsFunction(PROGRAM_END, [d]) && !EndsFunction("", [d])
  {
    var line := PROGRAM_END;
    assert line[4] == 'p' && FUNCTION_END[4] == 'f';
    assert line[11..] == "a";
    assert line[10..] == "ma";
    assert line[0] == 'f' && line[1] == 'i';
  }

  lemma BeginLineDecodes(c: char)
    requires c != ':' && c != ')'
    ensures DecodeFunction(BeginLine(c)) == DecodeMain(BeginLine(c)) == Nothing
    ensures forall d :: !EndsFunction(BeginLine(c), [d])
  {
    var line := BeginLine(c);
    assert line[17..] == [c];
    assert line[16..][1] == c;
    assert line[0] == 'c' && line[1] == 'o' && FUNCTION_END[0] == 'f';
  }

  /** main calls f, f calls g and prints b, g calls h and prints a. */
  function Deep(): (code: seq<string>)
    ensures |code| == 13
  {
    ["", CallLine('f'), PROGRAM_END,
     BeginLine('f'), CallLine('g'), PrintLine('b'), EndLine('f'),
     BeginLine('g'), CallLine('h'), PrintLine('a'), EndLine('g'),
     BeginLine('h'), EndLine('h')]
  }

  lemma FindsFirst(code: seq<string>, line: string, i: nat)
    requires i < |code| && code[i] == line && forall j :: 0 <= j < i ==> code[j] != line
    ensures FindLine(code, line) == i
  {
  }

  lemma FunctionsFound()
    ensures FunctionLine(Deep(), "f") == 3 && FunctionLine(Deep(), "g") == 7 && FunctionLine(Deep(), "h") == 11
  {
    var code := Deep();
    assert forall j :: 0 <= j < 13 && j != 3 && j != 7 && j != 11 ==> |code[j]| != 18;
    assert BeginLine('f')[17] == 'f' && BeginLine('g')[17] == 'g' && BeginLine('h')[17] == 'h';
    assert code[3][17] == 'f' && code[7][17] == 'g' && code[11][17] == 'h';
    FindsFirst(code, BeginLine('f'), 3);
    FindsFirst(code, BeginLine('g'), 7);
    FindsFirst(code, BeginLine('h'), 11);
  }

  /** What each line of the script means, without its text. */
  predicate Meaning(code: seq<string>) {
    && |code| == 13
    && (forall i :: 0 <= i < 13 && i != 1 && i != 4 && i != 8 ==> !DecodeFunction(code[i]).Call?)
    && (forall i :: 0 <= i < 13 && i != 2 ==> code[i] != PROGRAM_END)
    && (forall i :: 0 <= i < 13 ==> JumpTag(DecodeMain(code[i])).None?)
    && DecodeMain(code[1]) == DecodeFunction(code[1]) == Call("f")
    && code[2] == PROGRAM_END && DecodeMain(code[2]) == Nothing
    && DecodeFunction(code[4]) == Call("g")
    && DecodeFunction(code[5]) == Print('b')
    && DecodeFunction(code[6]) == Nothing
    && DecodeFunction(code[8]) == Call("h")
    && DecodeFunction(code[9]) == Print('a')
    && DecodeFunction(code[10]) == Nothing
    && DecodeFunction(code[12]) == Nothing
    && EndsFunction(code[6], "f") && EndsFunction(code[10], "g") && EndsFunction(code[12], "h")
    && (forall i, d :: 0 <= i < 13 && i != 6 && i != 10 && i != 12 ==> !EndsFunction(code[i], [d]))
    && FunctionLine(code, "f") == 3 && FunctionLine(code, "g") == 7 && FunctionLine(code, "h") == 11
  }

  lemma DeepLinesDecode()
    ensures var code := Deep();
            && (forall i :: 0 <= i < 13 && i != 1 && i != 4 && i != 8 ==> !DecodeFunction(code[i]).Call?)
            && (forall i :: 0 <= i < 13 && i != 2 ==> code[i] != PROGRAM_END)
            && (forall i :: 0 <= i < 13 ==> JumpTag(DecodeMain(code[i])).None?)
  {
    hide DecodeMain, DecodeFunction, EndsFunction, FunctionLine;
    CallLineDecodes('f'); CallLineDecodes('g'); CallLineDecodes('h');
    PrintLineDecodes('a'); PrintLineDecodes('b');
    EndLineDecodes('f', 'f'); EndLineDecodes('g', 'g'); EndLineDecodes('h', 'h');
    ProgramEndDecodes();
    BeginLineDecodes('f'); BeginLineDecodes('g'); BeginLineDecodes('h');
  }

  lemma DeepEnds()
    ensures forall i, d :: 0 <= i < 13 && i != 6 && i != 10 && i != 12 ==> !EndsFunction(Deep()[i], [d])
  {
    hide DecodeMain, DecodeFunction, EndsFunction, FunctionLine;
    CallLineDecodes('f'); CallLineDecodes('g'); CallLineDecodes('h');
    PrintLineDecodes('a'); PrintLineDecodes('b');
    ProgramEndDecodes();
    BeginLineDecodes('f'); BeginLineDecodes('g'); BeginLineDecodes('h');
  }

  lemma DeepMeaning()
    ensures Meaning(Deep())
  {
    hide DecodeMain, DecodeFunction, EndsFunction, FunctionLine;
    FunctionsFound();
    DeepLinesDecode();
    DeepEnds();
    CallLineDecodes('f'); CallLineDecodes('g'); CallLineDecodes('h');
    PrintLineDecodes('a'); PrintLineDecodes('b');
    EndLineDecodes('f', 'f'); EndLineDecodes('g', 'g'); EndLineDecodes('h', 'h');
    ProgramEndDecodes();
    hide CallLine, PrintLine, EndLine;
  }

  lemma MeaningIsWellFormed(code: seq<string>)
    requires Meaning(code)
    ensures WellFormed(code)
  {
    hide DecodeMain, DecodeFunction, EndsFunction, FunctionLine;
    assert code[2] == PROGRAM_END && ReachesProgramEnd(code, 0);
    assert EndsFunction(code[6], "f") && EndsFunction(code[10], "g") && EndsFunction(code[12], "h");
    assert CallOk(code, "f") && CallOk(code, "g") && CallOk(code, "h");
    forall i | 0 <= i < |code|
      ensures LineOk(code, i)
    {
    }
  }

  const PRINT_A := Printed('a', Read([], 'a'))
  const PRINT_B := Printed('b', Read([], 'b'))

  // the frames of f, g and h at a given line
  function F(pc: nat): Frame { Frame("f", pc, 1) }
  function G(pc: nat): Frame { Frame("g", pc, 4) }
  function H(pc: nat): Frame { Frame("h", pc, 8) }

  function During(events: seq<Event>, stack: seq<Frame>): Config {
    Config(1, Memory([], events, 0), stack)
  }

  function ReferenceTrace(): (t: seq<Config>)
    ensures |t| == 10
  {
    [Loaded(), During([], [F(3)]), During([], [F(4), G(7)]), During([], [F(4), G(8), H(11)]),
     During([], [F(4), G(8)]), During([PRINT_A], [F(4), G(9)]), During([PRINT_A], [F(4)]),
     During([PRINT_A, PRINT_B], [F(5)]), During([PRINT_A, PRINT_B], []),
     Config(2, Memory([], [PRINT_A, PRINT_B], 0), [])]
  }

  lemma ReferenceTraceSteps(code: seq<string>, accepts: nat -> bool, n: nat)
    requires Meaning(code) && WellFormed(code) && n < 9 && ConfigOk(code, ReferenceTrace()[n])
    ensures RefStep(code, accepts, ReferenceTrace()[n]) == ReferenceTrace()[n + 1]
  {
    hide *;
    if n < 4 { ReferenceTraceBegins(code, accepts, n); } else { ReferenceTraceEnds(code, accepts, n); }
  }

  lemma ReferenceTraceBegins(code: seq<string>, accepts: nat -> bool, n: nat)
    requires Meaning(code) && WellFormed(code) && n < 4 && ConfigOk(code, ReferenceTrace()[n])
    ensures RefStep(code, accepts, ReferenceTrace()[n]) == ReferenceTrace()[n + 1]
  {
    hide DecodeMain, DecodeFunction, EndsFunction, FunctionLine, Read, StackOk, WellFormed;
  }

  lemma ReferenceTraceEnds(code: seq<string>, accepts: nat -> bool, n: nat)
    requires Meaning(code) && WellFormed(code) && 4 <= n < 9 && ConfigOk(code, ReferenceTrace()[n])
    ensures RefStep(code, accepts, ReferenceTrace()[n]) == ReferenceTrace()[n + 1]
  {
    hide DecodeMain, DecodeFunction, EndsFunction, FunctionLine, Read, StackOk, WellFormed;
  }

  /** Uninterrupted, nine statements finish the script and print a before b. */
  lemma DeepReference(code: seq<string>, accepts: nat -> bool)
    requires Meaning(code) && WellFormed(code) && ConfigOk(code, Loaded())
    ensures RefRun(code, accepts, Loaded(), 9) == Config(2, Memory([], [PRINT_A, PRINT_B], 0), [])
  {
    hide RefRun, RefStep, ConfigOk, Meaning, WellFormed;
    RefRunNothing(code, accepts, Loaded());
    for n := 0 to 9
      invariant RefRun(code, accepts, Loaded(), n) == ReferenceTrace()[n]
    {
      RefRunOneMore(code, accepts, Loaded(), n);
      ReferenceTraceSteps(code, accepts, n);
    }
  }

  function Held(events: seq<Event>, list: seq<Frame>, host: seq<Frame>, ticks: nat): State {
    State(1, Memory([], events, 0), list, host, 0, 0, false, ticks)
  }

  // A dispatch that is known step by step.
  lemma {:induction false} RunFollows(env: Env, trace: seq<State>)
    requires trace != [] && StateOk(env.code, trace[0])
    requires forall n :: 0 <= n < |trace| - 1 && StateOk(env.code, trace[n]) ==>
               !Stopped(env, trace[n]) && Step(env, trace[n]) == trace[n + 1]
    requires Stopped(env, Last(trace))
    ensures Run(env, trace[0]) == Last(trace)
    decreases |trace|
  {
    hide DecodeMain, DecodeFunction, EndsFunction, StateOk, Step;
    if |trace| > 1 {
      var rest := trace[1..];
      assert rest[0] == trace[1] == Step(env, trace[0]);
      forall n | 0 <= n < |rest| - 1 && StateOk(env.code, rest[n])
        ensures !Stopped(env, rest[n]) && Step(env, rest[n]) == rest[n + 1]
      {
        assert rest[n] == trace[n + 1] && rest[n + 1] == trace[n + 2];
      }
      RunFollows(env, rest);
    }
  }

  // The first dispatch is interrupted as g begins.
  function FirstTrace(): seq<State> {
    [Begin(Loaded()), Held([], [], [F(3)], 1), Held([], [], [F(4), G(7)], 2)]
  }

  // The second one resumes g above the parked frame of f.
  function SecondTrace(): seq<State> {
    [Begin(During([], [F(4), G(7)])),
     Held([], [F(4)], [G(8), H(11)], 1),
     Held([], [G(8)], [F(4)], 2),
     Held([PRINT_B], [G(8)], [F(5)], 3),
     Held([PRINT_B], [G(8)], [], 4),
     Held([PRINT_B, PRINT_A], [], [G(9)], 5),
     Held([PRINT_B, PRINT_A], [], [], 6),
     Held([PRINT_B, PRINT_A], [], [], 7).(pc := 2)]
  }

  lemma FirstTraceSteps(env: Env, n: nat)
    requires Meaning(env.code) && WellFormed(env.code) && !env.roundRobin && env.quantum == 1 && env.alarm == 2
    requires n < 2 && StateOk(env.code, FirstTrace()[n])
    ensures !Stopped(env, FirstTrace()[n]) && Step(env, FirstTrace()[n]) == FirstTrace()[n + 1]
  {
    hide DecodeMain, DecodeFunction, EndsFunction, FunctionLine, Read, StackOk, WellFormed;
  }

  lemma SecondTraceSteps(env: Env, n: nat)
    requires Meaning(env.code) && WellFormed(env.code) && !env.roundRobin && env.quantum == 1 && env.alarm == 100
    requires n < 7 && StateOk(env.code, SecondTrace()[n])
    ensures !Stopped(env, SecondTrace()[n]) && Step(env, SecondTrace()[n]) == SecondTrace()[n + 1]
  {
    hide *;
    if n < 3 { SecondTraceBegins(env, n); } else { SecondTraceEnds(env, n); }
  }

  lemma SecondTraceBegins(env: Env, n: nat)
    requires Meaning(env.code) && WellFormed(env.code) && !env.roundRobin && env.quantum == 1 && env.alarm == 100
    requires n < 3 && StateOk(env.code, SecondTrace()[n])
    ensures !Stopped(env, SecondTrace()[n]) && Step(env, SecondTrace()[n]) == SecondTrace()[n + 1]
  {
    hide DecodeMain, DecodeFunction, EndsFunction, FunctionLine, Read, StackOk, WellFormed;
  }

  lemma SecondTraceEnds(env: Env, n: nat)
    requires Meaning(env.code) && WellFormed(env.code) && !env.roundRobin && env.quantum == 1 && env.alarm == 100
    requires 3 <= n < 7 && StateOk(env.code, SecondTrace()[n])
    ensures !Stopped(env, SecondTrace()[n]) && Step(env, SecondTrace()[n]) == SecondTrace()[n + 1]
  {
    hide DecodeMain, DecodeFunction, EndsFunction, FunctionLine, Read, StackOk, WellFormed;
  }

  lemma FirstDispatch(code: seq<string>, accepts: nat -> bool)
    requires Meaning(code) && WellFormed(code) && ConfigOk(code, Loaded())
    ensures var s := Dispatched(EnvOf(code, accepts, Dispatch(false, 1, 2)), Loaded());
            Image(s) == During([], [F(4), G(7)]) && s.ticks == 2
  {
    hide DecodeMain, DecodeFunction, EndsFunction, FunctionLine, Meaning, WellFormed, Step, Run;
    var env := EnvOf(code, accepts, Dispatch(false, 1, 2));
    BeginOk(code, Loaded());
    forall n | 0 <= n < 2 && StateOk(code, FirstTrace()[n])
      ensures !Stopped(env, FirstTrace()[n]) && Step(env, FirstTrace()[n]) == FirstTrace()[n + 1]
    {
      FirstTraceSteps(env, n);
    }
    RunFollows(env, FirstTrace());
  }

  lemma SecondDispatch(code: seq<string>, accepts: nat -> bool)
    requires Meaning(code) && WellFormed(code) && ConfigOk(code, During([], [F(4), G(7)]))
    ensures var s := Dispatched(EnvOf(code, accepts, Dispatch(false, 1, 100)), During([], [F(4), G(7)]));
            Image(s) == Config(2, Memory([], [PRINT_B, PRINT_A], 0), []) && s.ticks == 7
  {
    hide DecodeMain, DecodeFunction, EndsFunction, FunctionLine, WellFormed, Step, Run, PlaceOk;
    var env := EnvOf(code, accepts, Dispatch(false, 1, 100));
    BeginOk(code, During([], [F(4), G(7)]));
    forall n | 0 <= n < 7 && StateOk(code, SecondTrace()[n])
      ensures !Stopped(env, SecondTrace()[n]) && Step(env, SecondTrace()[n]) == SecondTrace()[n + 1]
    {
      SecondTraceSteps(env, n);
    }
    RunFollows(env, SecondTrace());
  }

  /** The counterexample: interrupted once after two statements and then run to its end, the script
      executes the same nine statements but prints b before a. */
  lemma InterruptionSwapsPrints(accepts: nat -> bool)
    ensures WellFormed(Deep()) && ConfigOk(Deep(), Loaded())
    ensures var ds := [Dispatch(false, 1, 2), Dispatch(false, 1, 100)];
            && Finished(Deep(), History(Deep(), accepts, Loaded(), ds))
            && Statements(Deep(), accepts, Loaded(), ds) == 9
            && History(Deep(), accepts, Loaded(), ds).memory.events == [PRINT_B, PRINT_A]
            && RefRun(Deep(), accepts, Loaded(), 9).memory.events == [PRINT_A, PRINT_B]
  {
    hide DecodeMain, DecodeFunction, EndsFunction, FunctionLine, WellFormed, Run, PlaceOk, Read, RefRun, Dispatched;
    var code := Deep();
    DeepMeaning();
    MeaningIsWellFormed(code);
    LoadedOk(code);
    DeepReference(code, accepts);
    FirstDispatch(code, accepts);
    SecondDispatch(code, accepts);
    var ds := [Dispatch(false, 1, 2), Dispatch(false, 1, 100)];
    assert ds[1..] == [Dispatch(false, 1, 100)] && ds[1..][1..] == [];
  }
}
