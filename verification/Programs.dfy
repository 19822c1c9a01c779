/**
 * Where a script goes: what follows a statement, a jump and a call, and what whole written scripts
 * do in an uninterrupted run.
 */
module Programs {
  import opened CStrings
  import opened Options
  import opened Script
  import opened Machine
  import opened Rendering
  import opened Statements
  import opened Meaning

  // ----- one statement

  /** A statement of the main program that is not a call. */
  lemma MainStatementRuns(code: seq<string>, accepts: nat -> bool, c: Config)
    requires ConfigOk(code, c) && c.stack == [] && !Finished(code, c)
    ensures c.pc + 1 < |code|
    ensures var instr := DecodeMain(code[c.pc + 1]);
            RefStep(code, accepts, c) ==
              if instr.Call? then Config(c.pc + 1, c.memory, [Entered(code, instr.name, c.pc + 1)])
              else Config(Target(code, instr, c.pc + 1, c.memory.data),
                          InMain(accepts, code[c.pc + 1], c.pc + 1, c.memory).memory, [])
  {
    hide DecodeFunction, DecodeMain, Execute, EndsFunction, StackOk, WellFormed, Target;
    MainStatement(code, c.pc, c.memory.data);
  }

  lemma TwoStatements(code: seq<string>, accepts: nat -> bool, c: Config)
    requires ConfigOk(code, c)
    ensures RefRun(code, accepts, c, 1) == RefStep(code, accepts, c)
    ensures RefRun(code, accepts, c, 2) == RefStep(code, accepts, RefStep(code, accepts, c))
  {
    hide RefStep, ConfigOk;
    var d := RefStep(code, accepts, c);
    assert RefRun(code, accepts, d, 0) == d;
    assert RefRun(code, accepts, d, 1) == RefRun(code, accepts, RefStep(code, accepts, d), 0);
  }

  lemma {:induction false} RunAdds(code: seq<string>, accepts: nat -> bool, c: Config, n: nat, m: nat)
    requires ConfigOk(code, c)
    ensures RefRun(code, accepts, c, n + m) == RefRun(code, accepts, RefRun(code, accepts, c, n), m)
    decreases n
  {
    hide RefStep, ConfigOk;
    if n > 0 {
      RunAdds(code, accepts, RefStep(code, accepts, c), n - 1, m);
    }
  }

  predicate Straight(instr: Instr) {
    !instr.Call? && !instr.JumpIfZero? && !instr.JumpIfNonzero?
  }

  /** A statement that is neither a jump nor a call is followed by the next line. */
  lemma StraightRuns(code: seq<string>, accepts: nat -> bool, c: Config)
    requires ConfigOk(code, c) && c.stack == [] && !Finished(code, c)
    requires c.pc + 1 < |code| && Straight(DecodeMain(code[c.pc + 1]))
    ensures RefStep(code, accepts, c)
            == Config(c.pc + 1, InMain(accepts, code[c.pc + 1], c.pc + 1, c.memory).memory, [])
  {
    hide DecodeMain, Execute, ConfigOk, Finished, InMain;
    MainStatementRuns(code, accepts, c);
  }

  // ----- jumps

  /** `k` is the line of the tag: the first one that is its name and a colon. */
  predicate IsTagLine(code: seq<string>, tag: string, k: nat) {
    k < |code| && code[k] == tag + ":" && forall j :: 0 <= j < k ==> code[j] != tag + ":"
  }

  lemma TagLineIs(code: seq<string>, tag: string, k: nat)
    requires IsTagLine(code, tag, k)
    ensures TagLine(code, tag) == k
  {
  }

  /** `ssc x tag` goes to the tag if and only if x reads 0, `snc x tag` if and only if it does not;
      otherwise the next line follows. */
  lemma JumpsGo(code: seq<string>, accepts: nat -> bool, c: Config, x: char, tag: string, delay: Option<nat>, k: nat)
    requires ConfigOk(code, c) && c.stack == [] && !Finished(code, c) && AllLetters(tag) && IsTagLine(code, tag, k)
    requires c.pc + 1 < |code|
    ensures code[c.pc + 1] == Line(Ssc(x, tag, delay)) ==>
              RefStep(code, accepts, c) == c.(pc := if Read(c.memory.data, x) == 0 then k else c.pc + 1)
    ensures code[c.pc + 1] == Line(Snc(x, tag, delay)) ==>
              RefStep(code, accepts, c) == c.(pc := if Read(c.memory.data, x) != 0 then k else c.pc + 1)
  {
    hide DecodeMain, Execute, ConfigOk, Finished, InMain, Line, TagLine, Read;
    MainStatementRuns(code, accepts, c);
    TagLineIs(code, tag, k);
    DecodingUndoesWriting(Ssc(x, tag, delay));
    DecodingUndoesWriting(Snc(x, tag, delay));
    JumpsMean(accepts, c.pc + 1, c.memory, x, tag, delay);
  }

  // ----- assignments and prints

  lemma PrintIsStraight(x: char)
    requires IsLetter(x)
    ensures Straight(DecodeMain(Line(Imprimir(x)))) && !DecodeFunction(Line(Imprimir(x))).Call?
    ensures Line(Imprimir(x)) != PROGRAM_END && forall name :: !EndsFunction(Line(Imprimir(x)), name)
  {
    hide DecodeMain, DecodeFunction;
    PrintDecodes(x);
    var line := "imprimir " + [x];
    assert line[0] == 'i' && PROGRAM_END[0] == 'f' && FUNCTION_END[0] == 'f';
  }

  lemma AssignmentIsStraight(x: char, terms: seq<Term>, delay: Option<nat>)
    requires terms != [] && WellNamed(terms)
    ensures var line := Rendering.Statement(x, terms, delay);
            && Straight(DecodeMain(line)) && !DecodeFunction(line).Call?
            && line != PROGRAM_END && forall name :: !EndsFunction(line, name)
  {
    hide DecodeMain, DecodeFunction, RightHandSide, Delay;
    StatementIsAssignment(x, terms, delay);
    StatementShape(x, terms, delay);
    assert PROGRAM_END[1] == 'i' && FUNCTION_END[1] == 'i';
  }

  /** After `x=terms`, `imprimir x` shows exactly the sum: in the main program. */
  lemma AssignThenPrint(code: seq<string>, accepts: nat -> bool, c: Config, x: char, terms: seq<Term>,
      delay: Option<nat>)
    requires ConfigOk(code, c) && c.stack == [] && !Finished(code, c) && c.pc + 2 < |code|
    requires terms != [] && WellNamed(terms) && OrdinaryNames(c.memory.data) && Declares(c.memory.data, x)
            && IsLetter(x)
    requires code[c.pc + 1] == Rendering.Statement(x, terms, delay) && code[c.pc + 2] == Line(Imprimir(x))
    ensures var d := RefRun(code, accepts, c, 2);
            && d.pc == c.pc + 2 && d.stack == []
            && d.memory.events == c.memory.events + [Printed(x, Sum(terms, c.memory.data))]
  {
    hide DecodeMain, DecodeFunction, ConfigOk, Rendering.Statement, Line, Execute, Read, Sum, WellNamed, RefStep;
    AssignmentIsStraight(x, terms, delay);
    PrintIsStraight(x);
    StraightRuns(code, accepts, c);
    StatementIsAssignment(x, terms, delay);
    AssignmentStoresTheSum(accepts, c.pc + 1, c.memory, x, terms, delay, x);
    var d := RefStep(code, accepts, c);
    StraightRuns(code, accepts, d);
    PrintMeans(accepts, c.pc + 2, d.memory, x);
    TwoStatements(code, accepts, c);
  }

  // ----- functions

  /** A statement of a running function that neither calls nor ends it. */
  lemma FunctionStatementRuns(code: seq<string>, accepts: nat -> bool, c: Config, below: seq<Frame>, e: Frame)
    requires ConfigOk(code, c) && !Finished(code, c) && c.stack == below + [e]
    requires e.pc + 1 < |code| && !DecodeFunction(code[e.pc + 1]).Call?
    ensures RefStep(code, accepts, c) ==
              Config(c.pc, InFunction(accepts, code[e.pc + 1], e.pc + 1, c.memory).memory,
                     if EndsFunction(code[e.pc + 1], e.name) then below else below + [e.(pc := e.pc + 1)])
  {
    hide DecodeFunction, Execute, ConfigOk, Finished, EndsFunction, RefStep;
    RefLiveStep(code, accepts, c, below, e);
  }

  /** In a function. */
  lemma AssignThenPrintInFunction(code: seq<string>, accepts: nat -> bool, c: Config, below: seq<Frame>, e: Frame,
      x: char, terms: seq<Term>, delay: Option<nat>)
    requires ConfigOk(code, c) && !Finished(code, c) && c.stack == below + [e] && e.pc + 2 < |code|
    requires terms != [] && WellNamed(terms) && OrdinaryNames(c.memory.data) && Declares(c.memory.data, x)
            && IsLetter(x)
    requires code[e.pc + 1] == Rendering.Statement(x, terms, delay) && code[e.pc + 2] == Line(Imprimir(x))
    ensures var d := RefRun(code, accepts, c, 2);
            && d.pc == c.pc && d.stack == below + [e.(pc := e.pc + 2)]
            && d.memory.events == c.memory.events + [Printed(x, Sum(terms, c.memory.data))]
  {
    hide DecodeMain, DecodeFunction, ConfigOk, Rendering.Statement, Line, Execute, Read, Sum, WellNamed, RefStep,
         EndsFunction;
    AssignmentIsStraight(x, terms, delay);
    PrintIsStraight(x);
    FunctionStatementRuns(code, accepts, c, below, e);
    AssignmentStoresTheSum(accepts, e.pc + 1, c.memory, x, terms, delay, x);
    var d := RefStep(code, accepts, c);
    FunctionStatementRuns(code, accepts, d, below, e.(pc := e.pc + 1));
    PrintMeans(accepts, e.pc + 2, d.memory, x);
    TwoStatements(code, accepts, c);
  }

  /** The memory after lines `i` to `i + k - 1` of a function, one after the other. */
  function Body(code: seq<string>, accepts: nat -> bool, i: nat, k: nat, m: Memory): Memory
    requires i + k <= |code|
    decreases k
  {
    if k == 0 then m else Body(code, accepts, i + 1, k - 1, InFunction(accepts, code[i], i, m).memory)
  }

  /** Lines `first` to `last` form the rest of a function: no calls, and only the last one ends it. */
  predicate LeafBody(code: seq<string>, name: string, first: nat, last: nat) {
    && first <= last < |code| && EndsFunction(code[last], name)
    && forall i :: first <= i <= last ==> !DecodeFunction(code[i]).Call? && (i < last ==> !EndsFunction(code[i], name))
  }

  /** A function without calls runs its lines in order and returns to its caller. */
  lemma {:induction false} LeafReturns(code: seq<string>, accepts: nat -> bool, c: Config, below: seq<Frame>,
      e: Frame, last: nat)
    requires ConfigOk(code, c) && !Finished(code, c) && c.stack == below + [e]
    requires LeafBody(code, e.name, e.pc + 1, last)
    ensures RefRun(code, accepts, c, last - e.pc)
            == Config(c.pc, Body(code, accepts, e.pc + 1, last - e.pc, c.memory), below)
    decreases last - e.pc
  {
    hide DecodeFunction, EndsFunction, ConfigOk, InFunction, RefStep;
    FunctionStatementRuns(code, accepts, c, below, e);
    if e.pc + 1 < last {
      LeafReturns(code, accepts, RefStep(code, accepts, c), below, e.(pc := e.pc + 1), last);
    } else {
      TwoStatements(code, accepts, c);
      assert Body(code, accepts, last, 1, c.memory)
          == Body(code, accepts, last + 1, 0, InFunction(accepts, code[last], last, c.memory).memory);
    }
  }

  /** `b` is the line a function begins at: the first one that says so. */
  predicate IsFunctionLine(code: seq<string>, name: string, b: nat) {
    b < |code| && code[b] == FUNCTION_BEGIN + name && forall j :: 0 <= j < b ==> code[j] != FUNCTION_BEGIN + name
  }

  lemma FunctionLineIs(code: seq<string>, name: string, b: nat)
    requires IsFunctionLine(code, name, b)
    ensures FunctionLine(code, name) == b
  {
  }

  /** `name()` in the main program runs the lines of its function, and the next line follows. */
  lemma CallRunsItsFunction(code: seq<string>, accepts: nat -> bool, c: Config, name: string, b: nat, last: nat)
    requires ConfigOk(code, c) && c.stack == [] && !Finished(code, c) && c.pc + 1 < |code|
    requires Writable(Invoke(name)) && code[c.pc + 1] == Line(Invoke(name))
    requires IsFunctionLine(code, name, b) && LeafBody(code, name, b + 1, last)
    ensures RefRun(code, accepts, c, 1 + (last - b))
            == Config(c.pc + 1, Body(code, accepts, b + 1, last - b, c.memory), [])
  {
    hide DecodeMain, DecodeFunction, Execute, ConfigOk, InMain, InFunction, Line, FunctionLine, EndsFunction, RefStep,
         FunctionCallable, Writable, Body;
    CallLine(name);
    MainStatementRuns(code, accepts, c);
    FunctionLineIs(code, name, b);
    var d := RefStep(code, accepts, c);
    assert d.stack == [] + [Frame(name, b, c.pc + 1)];
    LeafReturns(code, accepts, d, [], Frame(name, b, c.pc + 1), last);
  }

  lemma CallLine(name: string)
    requires Writable(Invoke(name))
    ensures DecodeMain(Line(Invoke(name))) == DecodeFunction(Line(Invoke(name))) == Call(name)
    ensures Line(Invoke(name)) != PROGRAM_END
  {
    hide DecodeMain, DecodeFunction, FunctionCallable;
    DecodingUndoesWriting(Invoke(name));
    var line := name + "()";
    assert line[|line| - 1] == ')' && PROGRAM_END[|PROGRAM_END| - 1] == 'a';
  }

  /** The same call in a function: its caller goes on behind the call with its own frame. */
  lemma NestedCallRunsItsFunction(code: seq<string>, accepts: nat -> bool, c: Config, below: seq<Frame>, e: Frame,
      name: string, b: nat, last: nat)
    requires ConfigOk(code, c) && !Finished(code, c) && c.stack == below + [e] && e.pc + 1 < |code|
    requires Writable(Invoke(name)) && code[e.pc + 1] == Line(Invoke(name))
    requires IsFunctionLine(code, name, b) && LeafBody(code, name, b + 1, last)
    ensures RefRun(code, accepts, c, 1 + (last - b))
            == Config(c.pc, Body(code, accepts, b + 1, last - b, c.memory), below + [e.(pc := e.pc + 1)])
  {
    hide DecodeMain, DecodeFunction, Execute, ConfigOk, InMain, InFunction, Line, FunctionLine, EndsFunction, RefStep,
         FunctionCallable, Writable, Body;
    CallLine(name);
    RefLiveStep(code, accepts, c, below, e);
    FunctionLineIs(code, name, b);
    var d := RefStep(code, accepts, c);
    LeafReturns(code, accepts, d, below + [e.(pc := e.pc + 1)], Frame(name, b, e.pc + 1), last);
  }

  /** The line `fin_funcion other` ends the function `name` exactly when `other` ends with `name`. */
  lemma EndLineEnds(other: string, name: string)
    requires AllLetters(name)
    ensures EndsFunction(FUNCTION_END + " " + other, name) <==> EndsWith(other, name)
  {
    var begin := FUNCTION_END + " ";
    var line := begin + other;
    assert line[..|FUNCTION_END|] == FUNCTION_END;
    if |name| <= |other| {
      assert line[|line| - |name|..] == other[|other| - |name|..];
    } else if |name| <= |line| {
      BlankInTail(other, |name|);
      assert IsLetter(name[|name| - |other| - 1]);
    }
  }

  lemma BlankInTail(other: string, n: nat)
    requires |other| < n <= |FUNCTION_END| + 1 + |other|
    ensures var line := FUNCTION_END + " " + other; line[|line| - n..][n - |other| - 1] == ' '
  {
  }

  /** The frame a call pushes: the function's name and first line, and the line of the call. */
  lemma CallPushesFrame(code: seq<string>, accepts: nat -> bool, c: Config, name: string, b: nat)
    requires ConfigOk(code, c) && !Finished(code, c) && Writable(Invoke(name)) && IsFunctionLine(code, name, b)
    ensures c.stack == [] && c.pc + 1 < |code| && code[c.pc + 1] == Line(Invoke(name)) ==>
              RefStep(code, accepts, c) == Config(c.pc + 1, c.memory, [Frame(name, b, c.pc + 1)])
    ensures c.stack != [] && Last(c.stack).pc + 1 < |code| && code[Last(c.stack).pc + 1] == Line(Invoke(name)) ==>
              var e := Last(c.stack);
              RefStep(code, accepts, c)
              == c.(stack := Front(c.stack) + [e.(pc := e.pc + 1)] + [Frame(name, b, e.pc + 1)])
  {
    hide DecodeMain, DecodeFunction, Execute, ConfigOk, InMain, Line, FunctionLine, EndsFunction, RefStep,
         FunctionCallable, Writable, Finished;
    CallLine(name);
    FunctionLineIs(code, name, b);
    if c.stack == [] {
      MainStatementRuns(code, accepts, c);
    } else {
      assert c.stack == Front(c.stack) + [Last(c.stack)];
      RefLiveStep(code, accepts, c, Front(c.stack), Last(c.stack));
    }
  }
}
