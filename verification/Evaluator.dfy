/**
 * The variables of a process and the assignment evaluator, as the loops they are
 * (PP/src/procer_defs.c, readData, writeData, addVariables, the scanning loop of `x=...`).
 */
module Evaluator {
  import opened CStrings
  import opened Options
  import opened Script

  /** The variables a C array holds: those before the first cell whose name is NUL. */
  function Live(cells: Data): (live: Data)
    ensures |live| <= |cells|
  {
    if cells == [] || cells[0].name == NUL then [] else [cells[0]] + Live(cells[1..])
  }

  predicate Terminated(cells: Data) {
    exists i :: 0 <= i < |cells| && cells[i].name == NUL
  }

  lemma {:induction false} LiveIs(cells: Data, k: nat)
    requires k < |cells| && cells[k].name == NUL && forall j :: 0 <= j < k ==> cells[j].name != NUL
    ensures Live(cells) == cells[..k]
  {
    if k > 0 {
      LiveIs(cells[1..], k - 1);
      assert cells[..k] == [cells[0]] + cells[1..][..k - 1];
    }
  }

  lemma {:induction false} DeclaredNames(names: string)
    requires NUL !in names
    ensures forall i :: 0 <= i < |Declared(names)| ==> Declared(names)[i].name != NUL
  {
    if |names| > 2 {
      DeclaredNames(names[2..]);
    }
  }

  lemma {:induction false} ReadSkips(data: Data, name: char, i: nat)
    requires i <= |data| && forall j :: 0 <= j < i ==> data[j].name != name
    ensures Read(data, name) == Read(data[i..], name)
  {
    if i > 0 {
      ReadSkips(data[1..], name, i - 1);
      assert data[1..][i - 1..] == data[i..];
    }
  }

  lemma {:induction false} WriteAt(data: Data, name: char, value: int, i: nat)
    requires i <= |data| && forall j :: 0 <= j < i ==> data[j].name != name
    requires i < |data| ==> data[i].name == name
    ensures Write(data, name, value) == if i < |data| then data[i := data[i].(value := value)] else data
  {
    if i > 0 {
      WriteAt(data[1..], name, value, i - 1);
    }
  }

  /** processImage->data. */
  class VariableTable {
    var cells: array<Variable>

    ghost predicate Valid()
      reads this, cells
    {
      Terminated(cells[..])
    }

    ghost function Contents(): Data
      requires Valid()
      reads this, cells
    {
      Live(cells[..])
    }

    constructor ()
      ensures Valid() && Contents() == [] && fresh(cells)
    {
      cells := new Variable[1](_ => Variable(NUL, 0));
      new;
      assert cells[0].name == NUL;
    }

    // the search loop of readData and writeData
    method Find(varName: char) returns (i: nat)
      requires Valid()
      ensures i < cells.Length && i <= |Contents()| && Contents()[..i] == cells[..i]
      ensures forall j :: 0 <= j < i ==> Contents()[j].name != varName
      ensures cells[i].name == NUL <==> i == |Contents()|
      ensures cells[i].name != NUL ==> cells[i].name == varName && Contents()[i] == cells[i]
    {
      hide Live;
      LiveShape(cells[..]);
      ghost var n := |Contents()|;
      i := 0;
      while cells[i].name != NUL && cells[i].name != varName
        invariant i <= n && forall j :: 0 <= j < i ==> cells[j].name != varName
        decreases n - i
      {
        i := i + 1;
      }
    }

    /** readData: an unknown name is read as a number. */
    method ReadData(varName: char) returns (value: int)
      requires Valid()
      ensures value == Read(Contents(), varName)
    {
      var i := Find(varName);
      ReadSkips(Contents(), varName, i);
      if cells[i].name == NUL {
        value := Atoi([varName]);
      } else {
        value := cells[i].value;
      }
    }

    /** writeData: an unknown name changes nothing. */
    method WriteData(varName: char, varValue: int)
      requires Valid()
      modifies cells
      ensures Valid() && Contents() == Write(old(Contents()), varName, varValue)
    {
      var i := Find(varName);
      WriteAt(Contents(), varName, varValue, i);
      if cells[i].name != NUL {
        LiveUpdate(cells[..], i, varValue);
        cells[i] := Variable(cells[i].name, varValue);
        assert cells[..] == old(cells[..])[i := old(cells[i]).(value := varValue)];
      }
    }

    method DataCount() returns (i: nat)
      requires Valid()
      ensures i < cells.Length && i == |Contents()| && cells[..i] == Contents()
    {
      i := Find(NUL);
    }

    // realloc
    method Realloc(n: nat)
      modifies this
      ensures fresh(cells) && cells.Length == n
      ensures forall i :: 0 <= i < n && i < old(cells).Length ==> cells[i] == old(cells[i])
    {
      var before := cells;
      var grown := new Variable[n](_ => Variable(NUL, 0));
      for i := 0 to if n < before.Length then n else before.Length
        invariant forall j :: 0 <= j < i ==> grown[j] == before[j]
      {
        grown[i] := before[i];
      }
      cells := grown;
    }

    method Push(varCount: nat, v: Variable)
      requires varCount <= cells.Length
      modifies this
      ensures fresh(cells) && cells.Length == varCount + 1
      ensures cells[..] == old(cells[..varCount]) + [v]
    {
      Realloc(varCount + 1);
      cells[varCount] := v;
    }

    /** addVariables: every name at an even position is declared, with value 0. */
    method AddVariables(varList: string)
      requires Valid() && NUL !in varList
      modifies this
      ensures Valid() && fresh(cells) && Contents() == old(Contents()) + Declared(varList)
    {
      ghost var data := Contents();
      LiveShape(cells[..]);
      DeclaredNames(varList);
      var varCount := DataCount();
      hide Live, Terminated, Declared;
      varCount := AddNames(varCount, varList);
      Push(varCount, Variable(NUL, 0));
      Ended(cells[..], data + Declared(varList));
    }

    // the loop of addVariables; a list that ends in a separator leaves one more cell, named NUL
    method AddNames(varCount: nat, varList: string) returns (count: nat)
      requires varCount <= cells.Length && NUL !in varList
      modifies this
      ensures fresh(cells) && count <= cells.Length
      ensures var named := old(cells[..varCount]) + Declared(varList);
              cells[..count] == named || cells[..count] == named + [Variable(NUL, 0)]
    {
      hide Declared, Naming;
      count := varCount;
      ghost var whole := cells[..varCount] + Declared(varList);
      NamingStarts(cells[..varCount], varList);
      var i: nat := 0;
      while true
        invariant i <= |varList| && count <= cells.Length && (i == 0 || fresh(cells))
        invariant Naming(whole, varList, i, cells[..count])
        decreases |varList| - i
      {
        NamingStep(whole, varList, i, cells[..count]);
        Push(count, Variable(At(varList, i), 0));
        count := count + 1;
        assert cells[..count] == cells[..];
        if At(varList, i + 1) != NUL {
          i := i + 2;
        } else {
          break;
        }
      }
    }
  }

  // with `now` in the cells and `i` names read, what is left to add makes up `whole`
  ghost predicate Naming(whole: Data, names: string, i: nat, now: Data) {
    i <= |names| && now + (if i < |names| then Declared(names[i..]) else []) == whole
  }

  lemma NamingStarts(start: Data, names: string)
    ensures Naming(start + Declared(names), names, 0, start)
  {
    assert names[0..] == names;
  }

  lemma NamingStep(whole: Data, names: string, i: nat, now: Data)
    requires Naming(whole, names, i, now) && NUL !in names
    ensures var next := now + [Variable(At(names, i), 0)];
            if At(names, i + 1) != NUL then Naming(whole, names, i + 2, next)
            else next == whole || next == whole + [Variable(NUL, 0)]
  {
    if i < |names| {
      DeclaredStep(names, i);
      var x := Variable(names[i], 0);
      var rest := if i + 2 < |names| then Declared(names[i + 2..]) else [];
      hide Declared;
      assert now + ([x] + rest) == (now + [x]) + rest;
    }
  }

  lemma DeclaredStep(names: string, i: nat)
    requires i < |names|
    ensures Declared(names[i..]) == [Variable(names[i], 0)] + if i + 2 < |names| then Declared(names[i + 2..]) else []
  {
    assert i + 2 < |names| ==> names[i..][2..] == names[i + 2..];
  }

  lemma Ended(cells: Data, data: Data)
    requires forall i :: 0 <= i < |data| ==> data[i].name != NUL
    requires |cells| > |data| && cells[..|data|] == data && cells[|data|].name == NUL
    ensures Terminated(cells) && Live(cells) == data
  {
    forall j | 0 <= j < |data| ensures cells[j].name != NUL { assert cells[j] == data[j]; }
    LiveIs(cells, |data|);
  }

  lemma {:induction false} LiveShape(cells: Data)
    requires Terminated(cells)
    ensures var n := |Live(cells)|;
            && n < |cells| && cells[n].name == NUL
            && forall j :: 0 <= j < n ==> cells[j] == Live(cells)[j] && cells[j].name != NUL
  {
    if cells[0].name != NUL {
      var i :| 0 <= i < |cells| && cells[i].name == NUL;
      assert cells[1..][i - 1].name == NUL;
      LiveShape(cells[1..]);
      var rest := Live(cells[1..]);
      forall j | 0 <= j < |Live(cells)| ensures cells[j] == Live(cells)[j] && cells[j].name != NUL {
        if j > 0 {
          assert cells[1..][j - 1] == rest[j - 1];
        }
      }
    }
  }

  lemma {:induction false} LiveUpdate(cells: Data, i: nat, value: int)
    requires i < |Live(cells)| <= |cells|
    ensures Live(cells[i := cells[i].(value := value)]) == Live(cells)[i := Live(cells)[i].(value := value)]
    ensures Terminated(cells) ==> Terminated(cells[i := cells[i].(value := value)])
  {
    if i > 0 {
      LiveUpdate(cells[1..], i - 1, value);
      assert cells[i := cells[i].(value := value)][1..] == cells[1..][i - 1 := cells[i].(value := value)];
    }
    if Terminated(cells) {
      var n :| 0 <= n < |cells| && cells[n].name == NUL;
      assert cells[i := cells[i].(value := value)][n].name == NUL;
    }
  }

  // ----- the scanning loop

  predicate IsSemicolon(c: char) { c == ';' }

  /** The scanning loop of an assignment: the value, and where it stopped. */
  method Evaluate(line: string, table: VariableTable) returns (varValue: int, i: nat)
    requires table.Valid() && NUL !in line && |line| >= 1
    ensures i == Scan(line, IsSemicolon, 1) && varValue == SumFrom(line, 1, table.Contents())
  {
    hide Atoi, Read, Live, Terminated;
    varValue := 0;
    i := 1;
    ghost var data := table.Contents();
    while At(line, i) != NUL && At(line, i) != ';'
      invariant 1 <= i <= |line| && forall j :: 1 <= j < i ==> !IsSemicolon(line[j])
      invariant varValue + SumFrom(line, i, data) == SumFrom(line, 1, data)
      decreases |line| - i
    {
      var varName := line[i];
      ghost var start := i;
      i := i + 1;
      var auxString;
      auxString, i := ScanTerm(line, i);
      var term;
      if |auxString| > 1 {
        term := Atoi(auxString);
      } else {
        term := table.ReadData(At(auxString, 0));
      }
      if varName != '-' {
        varValue := varValue + term;
      } else {
        varValue := varValue - term;
      }
    }
  }

  // the inner loop: the text of one term
  method ScanTerm(line: string, start: nat) returns (auxString: string, i: nat)
    requires NUL !in line && start <= |line|
    ensures i == Scan(line, EndsTerm, start) && auxString == line[start..i]
    ensures forall j :: start <= j < i ==> !IsSemicolon(line[j])
  {
    auxString, i := "", start;
    while At(line, i) != NUL && At(line, i) != '+' && At(line, i) != '-' && At(line, i) != ';'
      invariant start <= i <= |line| && auxString == line[start..i]
      invariant forall j :: start <= j < i ==> !EndsTerm(line[j])
      decreases |line| - i
    {
      auxString := auxString + [line[i]];
      i := i + 1;
    }
    ScanIs(line, start, i);
  }

  lemma {:induction false} ScanIs(line: string, i: nat, k: nat)
    requires i <= k <= |line| && (forall j :: i <= j < k ==> !EndsTerm(line[j])) && (k < |line| ==> EndsTerm(line[k]))
    ensures Scan(line, EndsTerm, i) == k
  {
  }

  /** An assignment statement: the variables after it, and the delay it asks for, if any. */
  method Assignment(line: string, table: VariableTable) returns (delay: Option<int>)
    requires table.Valid() && NUL !in line && IsAssignment(line)
    modifies table.cells
    ensures table.Valid()
    ensures table.Contents() == Write(old(table.Contents()), line[0], SumFrom(line, 1, old(table.Contents())))
    ensures delay == var k := Scan(line, IsSemicolon, 1); if k < |line| then Some(Atoi(line[k + 1..])) else None
  {
    hide Atoi, Read, Write, SumFrom;
    var varValue, i := Evaluate(line, table);
    table.WriteData(line[0], varValue);
    if At(line, i) == ';' {
      delay := Some(Atoi(line[i + 1..]));
    } else {
      delay := None;
    }
  }
}
