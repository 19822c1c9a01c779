/**
 * A whole script from its first line to its end: a variable is declared, set to n, and counted down in
 * a loop that prints it and jumps back while it is not zero.
 */
module Loops {
  import opened CStrings
  import opened Options
  import opened Script
  import opened Machine
  import opened Rendering
  import opened Statements
  import opened Meaning
  import opened Programs
  import DepthThree
  import Histories

  function SetTo(n: nat): (terms: seq<Term>)
    ensures terms != [] && WellNamed(terms)
  {
    [Term(false, Number(n))]
  }

  function OneLess(x: char): (terms: seq<Term>)
    requires IsLetter(x)
    ensures terms != [] && WellNamed(terms)
  {
    [Term(false, Named(x)), Term(true, Number(1))]
  }

  /** `variables x`, `x=n`, `tag:`, `imprimir x`, `x=x-1`, `snc x tag`, `fin_programa`. */
  function Countdown(x: char, tag: string, n: nat): (code: seq<string>)
    requires IsLetter(x)
    ensures |code| == 8
  {
    ["", Line(Variables([x])), Rendering.Statement(x, SetTo(n), None), tag + ":", Line(Imprimir(x)),
     Rendering.Statement(x, OneLess(x), None), Line(Snc(x, tag, None)), PROGRAM_END]
  }

  /** What it prints: n, n - 1, and so on to 1. */
  function Prints(x: char, n: nat): seq<Event> {
    if n == 0 then [] else [Printed(x, n)] + Prints(x, n - 1)
  }

  // ----- the script is well formed

  predicate NeitherCallsNorJumps(line: string) {
    !DecodeFunction(line).Call? && JumpTag(DecodeMain(line)) == None
  }

  lemma NotACall(line: string)
    requires line != "" ==> line[|line| - 1] != ')'
    ensures !DecodeFunction(line).Call? && !DecodeMain(line).Call?
  {
    LastOfCall(line);
  }

  lemma LastOfCall(line: string)
    ensures EndsWith(line, "()") ==> line != "" && line[|line| - 1] == ')'
  {
    if EndsWith(line, "()") {
      assert line[|line| - 2..][1] == ')';
    }
  }

  lemma LinesOfCountdown(x: char, tag: string, n: nat)
    requires IsLetter(x) && AllLetters(tag)
    ensures var code := Countdown(x, tag, n);
            && (forall i :: 0 <= i < 8 && i != 6 ==> NeitherCallsNorJumps(code[i]))
            && !DecodeFunction(code[6]).Call? && DecodeMain(code[6]) == JumpIfNonzero(x, tag)
            && (forall i :: 0 <= i < 7 ==> code[i] != PROGRAM_END)
  {
    hide DecodeMain, DecodeFunction, SetTo, OneLess, Rendering.Statement, Line, Countdown;
    var code := Countdown(x, tag, n);
    SimpleLines(x, tag, n);
    AssignmentLine(x, SetTo(n));
    AssignmentLine(x, OneLess(x));
    JumpLineOf(x, tag);
    CountdownLines(x, tag, n);
  }

  lemma CountdownLines(x: char, tag: string, n: nat)
    requires IsLetter(x)
    ensures var code := Countdown(x, tag, n);
            && code[0] == "" && code[1] == Line(Variables([x])) && code[2] == Rendering.Statement(x, SetTo(n), None)
            && code[3] == tag + ":" && code[4] == Line(Imprimir(x))
            && code[5] == Rendering.Statement(x, OneLess(x), None)
            && code[6] == Line(Snc(x, tag, None)) && code[7] == PROGRAM_END
  {
    hide Line, Rendering.Statement, SetTo, OneLess;
  }

  lemma AssignmentLine(x: char, terms: seq<Term>)
    requires terms != [] && WellNamed(terms)
    ensures var line := Rendering.Statement(x, terms, None); NeitherCallsNorJumps(line) && line != PROGRAM_END
  {
    hide DecodeMain, DecodeFunction, Rendering.Statement;
    AssignmentIsStraight(x, terms, None);
    StatementIsAssignment(x, terms, None);
  }

  lemma JumpLineOf(x: char, tag: string)
    requires IsLetter(x) && AllLetters(tag)
    ensures var line := Line(Snc(x, tag, None));
            !DecodeFunction(line).Call? && DecodeMain(line) == JumpIfNonzero(x, tag) && line != PROGRAM_END
  {
    DecodingUndoesWriting(Snc(x, tag, None));
    hide DecodeMain, DecodeFunction;
    var line := Line(Snc(x, tag, None));
    assert line == "snc " + [x] + " " + tag;
    assert line[|line| - 1] == if tag == "" then ' ' else tag[|tag| - 1];
    NotACall(line);
    assert line[0] == 's' && PROGRAM_END[0] == 'f';
  }

  lemma SimpleLines(x: char, tag: string, n: nat)
    requires IsLetter(x)
    ensures NeitherCallsNorJumps("") && NeitherCallsNorJumps(tag + ":") && NeitherCallsNorJumps(PROGRAM_END)
    ensures NeitherCallsNorJumps(Line(Variables([x]))) && NeitherCallsNorJumps(Line(Imprimir(x)))
    ensures tag + ":" != PROGRAM_END && Line(Variables([x])) != PROGRAM_END && Line(Imprimir(x)) != PROGRAM_END
  {
    EndIsPlain();
    DeclarationIsPlain(x);
    hide DecodeMain, DecodeFunction;
    TagIsPlain(tag);
    PrintDecodes(x);
    PrintIsStraight(x);
  }

  lemma TagIsPlain(tag: string)
    ensures NeitherCallsNorJumps(tag + ":") && NeitherCallsNorJumps("") && tag + ":" != PROGRAM_END
  {
    assert PROGRAM_END[|PROGRAM_END| - 1] == 'a';
    assert (tag + ":")[|tag|] == ':';
  }

  lemma EndIsPlain()
    ensures NeitherCallsNorJumps(PROGRAM_END)
  {
    hide DecodeMain, DecodeFunction;
    DepthThree.ProgramEndDecodes();
  }

  lemma DeclarationIsPlain(x: char)
    requires IsLetter(x)
    ensures NeitherCallsNorJumps(Line(Variables([x]))) && Line(Variables([x])) != PROGRAM_END
  {
    VariablesDecodes([x]);
    hide DecodeMain, DecodeFunction;
    var line := "variables " + CommaList([x]);
    assert line[|line| - 1] == x && line[0] == 'v' && PROGRAM_END[0] == 'f';
    NotACall(line);
  }

  lemma TagOfCountdown(x: char, tag: string, n: nat)
    requires IsLetter(x)
    ensures IsTagLine(Countdown(x, tag, n), tag, 3)
  {
    hide RightHandSide;
    CountdownLines(x, tag, n);
    var code, wanted := Countdown(x, tag, n), tag + ":";
    assert wanted[|wanted| - 1] == ':';
    assert code[1] == "variables " + [x] && code[1][|code[1]| - 1] == x;
    RightHandSideIsPlain(SetTo(n));
    var rhs := RightHandSide(SetTo(n));
    assert code[2] == [x] + "=" + rhs && code[2][|code[2]| - 1] == rhs[|rhs| - 1];
  }

  lemma LineIsOk(code: seq<string>, i: nat)
    requires i < |code| && NeitherCallsNorJumps(code[i])
    ensures LineOk(code, i)
  {
    hide DecodeMain, DecodeFunction;
  }

  lemma JumpIsOk(code: seq<string>, i: nat, x: char, tag: string, k: nat)
    requires i < |code| && !DecodeFunction(code[i]).Call? && DecodeMain(code[i]) == JumpIfNonzero(x, tag)
    requires IsTagLine(code, tag, k) && ReachesProgramEnd(code, k)
    ensures LineOk(code, i)
  {
    hide DecodeMain, DecodeFunction, ReachesProgramEnd;
    TagLineIs(code, tag, k);
  }

  lemma LastLineEnds(code: seq<string>, pc: nat)
    requires pc < |code| && code[|code| - 1] == PROGRAM_END
    ensures ReachesProgramEnd(code, pc)
  {
  }

  lemma AllLinesOk(code: seq<string>)
    requires |code| <= 0xFFFF && ReachesProgramEnd(code, 0) && forall i :: 0 <= i < |code| ==> LineOk(code, i)
    ensures WellFormed(code)
  {
    hide LineOk, ReachesProgramEnd;
  }

  lemma AtTopLevel(code: seq<string>, c: Config)
    requires WellFormed(code) && ReachesProgramEnd(code, c.pc) && c.stack == []
    ensures ConfigOk(code, c)
  {
    hide WellFormed, ReachesProgramEnd, DecodeFunction;
  }

  lemma CountdownOk(x: char, tag: string, n: nat, c: Config)
    requires IsLetter(x) && AllLetters(tag) && c.stack == [] && c.pc < 8
    ensures ConfigOk(Countdown(x, tag, n), c)
    ensures Finished(Countdown(x, tag, n), c) <==> c.pc == 7
  {
    var code := Countdown(x, tag, n);
    hide DecodeMain, DecodeFunction, Countdown, LineOk, ReachesProgramEnd, WellFormed, ConfigOk, NeitherCallsNorJumps,
         Line, Rendering.Statement, IsTagLine, AllLetters;
    LinesOfCountdown(x, tag, n);
    CountdownLines(x, tag, n);
    TagOfCountdown(x, tag, n);
    LastLineEnds(code, 0);
    LastLineEnds(code, 3);
    LastLineEnds(code, c.pc);
    forall i | 0 <= i < 8 ensures LineOk(code, i) {
      if i == 6 {
        JumpIsOk(code, 6, x, tag, 3);
      } else {
        LineIsOk(code, i);
      }
    }
    AllLinesOk(code);
    AtTopLevel(code, c);
  }

  // ----- the run

  lemma AssignmentKeepsNames(accepts: nat -> bool, pc: nat, m: Memory, x: char, terms: seq<Term>)
    requires terms != [] && WellNamed(terms) && OrdinaryNames(m.data)
    ensures OrdinaryNames(InMain(accepts, Rendering.Statement(x, terms, None), pc, m).memory.data)
    ensures Declares(InMain(accepts, Rendering.Statement(x, terms, None), pc, m).memory.data, x)
            <==> Declares(m.data, x)
  {
    hide Rendering.Statement, SumFrom, DecodeMain, DecodeFunction, Declares, WellNamed;
    StatementIsAssignment(x, terms, None);
    var line := Rendering.Statement(x, terms, None);
    var value := if |line| < 1 then 0 else SumFrom(line, 1, m.data);
    NamesStay(m.data, x, value);
    WriteKeepsNames(m.data, x, value, x);
  }

  /** The variable is declared and reads `v`, and the main program is at line `pc`. */
  predicate At(c: Config, pc: nat, x: char, v: int) {
    c.pc == pc && c.stack == [] && Declares(c.memory.data, x) && OrdinaryNames(c.memory.data)
      && Read(c.memory.data, x) == v
  }

  /** One assignment of the script. */
  lemma Assigns(x: char, tag: string, n: nat, accepts: nat -> bool, c: Config, terms: seq<Term>,
      v: int) returns (d: Config)
    requires IsLetter(x) && AllLetters(tag) && c.pc < 7 && At(c, c.pc, x, v) && terms != [] && WellNamed(terms)
    requires Countdown(x, tag, n)[c.pc + 1] == Rendering.Statement(x, terms, None)
    ensures ConfigOk(Countdown(x, tag, n), c) && d == RefStep(Countdown(x, tag, n), accepts, c)
    ensures At(d, c.pc + 1, x, Sum(terms, c.memory.data)) && d.memory.events == c.memory.events
  {
    hide DecodeMain, DecodeFunction, Countdown, ConfigOk, Rendering.Statement, AllLetters, WellNamed, OrdinaryNames,
         Declares, Read, Sum, RefStep, Execute;
    var code := Countdown(x, tag, n);
    CountdownOk(x, tag, n, c);
    AssignmentIsStraight(x, terms, None);
    StatementIsAssignment(x, terms, None);
    StraightRuns(code, accepts, c);
    AssignmentStoresTheSum(accepts, c.pc + 1, c.memory, x, terms, None, x);
    AssignmentKeepsNames(accepts, c.pc + 1, c.memory, x, terms);
    d := RefStep(code, accepts, c);
  }

  lemma SumOneLess(x: char, data: Data)
    requires IsLetter(x)
    ensures Sum(OneLess(x), data) == Read(data, x) - 1
  {
    var terms := OneLess(x);
    var rest := terms[1..];
    assert rest == [Term(true, Number(1))] && rest[1..] == [];
    assert Sum(rest, data) == -1 + Sum(rest[1..], data) == -1;
  }

  lemma SumSetTo(n: nat, data: Data)
    ensures Sum(SetTo(n), data) == n
  {
    assert SetTo(n)[1..] == [];
  }

  /** One statement of the script that changes no variable. */
  lemma Stays(x: char, tag: string, n: nat, accepts: nat -> bool, c: Config, v: int) returns (d: Config)
    requires IsLetter(x) && AllLetters(tag) && At(c, c.pc, x, v) && (c.pc == 2 || c.pc == 3 || c.pc == 5 || c.pc == 6)
    ensures ConfigOk(Countdown(x, tag, n), c) && d == RefStep(Countdown(x, tag, n), accepts, c)
    ensures At(d, if c.pc == 5 && v != 0 then 3 else c.pc + 1, x, v)
    ensures d.memory.events == c.memory.events + if c.pc == 3 then [Printed(x, v)] else []
  {
    hide DecodeMain, DecodeFunction, Countdown, ConfigOk, Line, AllLetters, OrdinaryNames, Declares, Read, RefStep,
         Execute, IsTagLine;
    var code := Countdown(x, tag, n);
    CountdownOk(x, tag, n, c);
    CountdownLines(x, tag, n);
    d := RefStep(code, accepts, c);
    if c.pc == 5 {
      TagOfCountdown(x, tag, n);
      JumpsGo(code, accepts, c, x, tag, None, 3);
    } else if c.pc == 3 {
      PrintIsStraight(x);
      PrintMeans(accepts, 4, c.memory, x);
      StraightRuns(code, accepts, c);
    } else if c.pc == 2 {
      TagIsNothing(tag);
      TagsMean(accepts, 3, c.memory, tag);
      StraightRuns(code, accepts, c);
    } else {
      EndIsNothing(accepts, c.memory);
      StraightRuns(code, accepts, c);
    }
  }

  lemma TagIsNothing(tag: string)
    ensures Straight(DecodeMain(tag + ":"))
  {
  }

  lemma EndIsNothing(accepts: nat -> bool, m: Memory)
    ensures Straight(DecodeMain(PROGRAM_END)) && InMain(accepts, PROGRAM_END, 7, m).memory == m
  {
    DepthThree.ProgramEndDecodes();
    hide DecodeMain, DecodeFunction;
  }

  /** One round of the loop. */
  lemma Round(x: char, tag: string, n: nat, accepts: nat -> bool, c: Config, v: int) returns (d: Config)
    requires IsLetter(x) && AllLetters(tag) && At(c, 3, x, v)
    ensures ConfigOk(Countdown(x, tag, n), c) && d == RefRun(Countdown(x, tag, n), accepts, c, 3)
    ensures At(d, if v == 1 then 6 else 3, x, v - 1) && d.memory.events == c.memory.events + [Printed(x, v)]
  {
    hide Countdown, ConfigOk, AllLetters, RefStep, Sum, Read, Declares, OrdinaryNames;
    var code := Countdown(x, tag, n);
    CountdownLines(x, tag, n);
    var a := Stays(x, tag, n, accepts, c, v);
    var b := Assigns(x, tag, n, accepts, a, OneLess(x), v);
    SumOneLess(x, a.memory.data);
    d := Stays(x, tag, n, accepts, b, v - 1);
    assert RefRun(code, accepts, d, 0) == d && RefRun(code, accepts, b, 1) == d && RefRun(code, accepts, a, 2) == d;
  }

  lemma {:induction false} Rounds(x: char, tag: string, n: nat, accepts: nat -> bool, c: Config,
      v: nat) returns (d: Config)
    requires IsLetter(x) && AllLetters(tag) && v > 0 && At(c, 3, x, v)
    ensures ConfigOk(Countdown(x, tag, n), c) && d == RefRun(Countdown(x, tag, n), accepts, c, 3 * v)
    ensures At(d, 6, x, 0) && d.memory.events == c.memory.events + Prints(x, v)
    decreases v
  {
    hide Countdown, ConfigOk, AllLetters, RefRun, Read, Declares, OrdinaryNames;
    d := Round(x, tag, n, accepts, c, v);
    if v > 1 {
      RunAdds(Countdown(x, tag, n), accepts, c, 3, 3 * (v - 1));
      d := Rounds(x, tag, n, accepts, d, v - 1);
    } else {
      assert Prints(x, 1) == [Printed(x, 1)] + Prints(x, 0) == [Printed(x, 1)];
    }
  }

  lemma OneLetter(x: char)
    requires IsLetter(x)
    ensures AllLetters([x])
  {
  }

  lemma Declaration(x: char, tag: string, n: nat, accepts: nat -> bool) returns (d: Config)
    requires IsLetter(x) && AllLetters(tag)
    ensures var c := Config(0, Memory([], [], 0), []);
            && ConfigOk(Countdown(x, tag, n), c) && d == RefStep(Countdown(x, tag, n), accepts, c)
            && At(d, 1, x, 0) && d.memory.events == []
  {
    hide DecodeMain, DecodeFunction, Countdown, ConfigOk, AllLetters, RefStep;
    var code, c := Countdown(x, tag, n), Config(0, Memory([], [], 0), []);
    CountdownOk(x, tag, n, c);
    CountdownLines(x, tag, n);
    OneLetter(x);
    VariablesDecodes([x]);
    StraightRuns(code, accepts, c);
    d := RefStep(code, accepts, c);
    assert d.memory.data == [Variable(x, 0)] && d.memory.data[0].name == x;
  }

  /**
   * For every n > 0 the script, loaded with no variables, is at its end after 3n + 4 statements; the
   * variable then reads 0, and what it printed is n, n - 1, …, 1. One statement fewer is not enough.
   */
  lemma CountdownCountsDown(x: char, tag: string, n: nat, accepts: nat -> bool)
    requires IsLetter(x) && AllLetters(tag) && n > 0
    ensures var code, c := Countdown(x, tag, n), Config(0, Memory([], [], 0), []);
            && ConfigOk(code, c)
            && var d := RefRun(code, accepts, c, 3 * n + 4);
            && Finished(code, d) && !Finished(code, RefRun(code, accepts, c, 3 * n + 3))
            && Read(d.memory.data, x) == 0 && d.memory.events == Prints(x, n)
  {
    hide Countdown, ConfigOk, AllLetters, RefStep, Sum, Read, Declares, OrdinaryNames, Finished, Prints;
    var code, c := Countdown(x, tag, n), Config(0, Memory([], [], 0), []);
    CountdownLines(x, tag, n);
    var a := Declaration(x, tag, n, accepts);
    var b := Assigns(x, tag, n, accepts, a, SetTo(n), 0);
    SumSetTo(n, a.memory.data);
    var e := Stays(x, tag, n, accepts, b, n);
    assert RefRun(code, accepts, e, 0) == e && RefRun(code, accepts, b, 1) == e && RefRun(code, accepts, a, 2) == e;
    assert RefRun(code, accepts, c, 3) == e;
    var f := Rounds(x, tag, n, accepts, e, n);
    RunAdds(code, accepts, c, 3, 3 * n);
    CountdownOk(x, tag, n, f);
    var d := Stays(x, tag, n, accepts, f, 0);
    CountdownOk(x, tag, n, d);
    assert RefRun(code, accepts, d, 0) == d && RefRun(code, accepts, f, 1) == d;
    RunAdds(code, accepts, c, 3 * n + 3, 1);
  }

  // ----- in dispatches

  lemma {:induction false} FinishedStays(code: seq<string>, accepts: nat -> bool, c: Config, n: nat)
    requires ConfigOk(code, c) && Finished(code, c)
    ensures RefRun(code, accepts, c, n) == c
    decreases n
  {
    hide ConfigOk, Finished;
    if n > 0 {
      assert RefStep(code, accepts, c) == c;
      FinishedStays(code, accepts, c, n - 1);
    }
  }

  lemma NothingIsCalled(x: char, tag: string, n: nat)
    requires IsLetter(x) && AllLetters(tag)
    ensures WellFormed(Countdown(x, tag, n)) && Histories.ShallowScript(Countdown(x, tag, n))
  {
    hide DecodeMain, DecodeFunction, Countdown, WellFormed;
    LinesOfCountdown(x, tag, n);
    CountdownOk(x, tag, n, Config(0, Memory([], [], 0), []));
    var code := Countdown(x, tag, n);
    forall i | 0 <= i < |code| ensures !DecodeFunction(code[i]).Call? {
      assert i != 6 ==> NeitherCallsNorJumps(code[i]);
    }
  }

  /** However the script is cut into dispatches, if it is at its end then the variable reads 0 and exactly
      n, n - 1, …, 1 were printed. */
  lemma CountdownInAnyDispatches(x: char, tag: string, n: nat, accepts: nat -> bool, ds: seq<Histories.Dispatch>)
    requires IsLetter(x) && AllLetters(tag) && n > 0
    ensures var code, c := Countdown(x, tag, n), Config(0, Memory([], [], 0), []);
            && ConfigOk(code, c)
            && var d := Histories.History(code, accepts, c, ds);
            && (Finished(code, d) <==> Histories.Statements(code, accepts, c, ds) >= 3 * n + 4)
            && (Finished(code, d) ==> Read(d.memory.data, x) == 0 && d.memory.events == Prints(x, n))
  {
    hide Countdown, ConfigOk, RefRun, RefStep, AllLetters, WellFormed, Finished, Read, Prints, Histories.ShallowScript,
         Histories.History, Histories.Statements;
    var code, c := Countdown(x, tag, n), Config(0, Memory([], [], 0), []);
    NothingIsCalled(x, tag, n);
    Histories.ShallowScriptsAreTransparent(code, accepts, ds);
    CountdownCountsDown(x, tag, n, accepts);
    var done, k := 3 * n + 4, Histories.Statements(code, accepts, c, ds);
    if k >= done {
      RunAdds(code, accepts, c, done, k - done);
      FinishedStays(code, accepts, RefRun(code, accepts, c, done), k - done);
    } else {
      RunAdds(code, accepts, c, k, done - 1 - k);
      if Finished(code, RefRun(code, accepts, c, k)) {
        FinishedStays(code, accepts, RefRun(code, accepts, c, k), done - 1 - k);
      }
    }
  }
}
