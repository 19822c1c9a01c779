/**
 * What every statement means, as it is written, in both loops: what it prints, stores, declares and
 * requests, where it goes on, what it calls, and whether it is charged to the burst.
 */
module Meaning {
  import opened CStrings
  import opened Options
  import opened Script
  import opened Rendering
  import opened Statements

  /** What a line does in the main loop, and in the loop of a function. */
  function InMain(accepts: nat -> bool, line: string, pc: nat, m: Memory): Effect {
    Execute(accepts, DecodeMain(line), line, pc, m)
  }

  function InFunction(accepts: nat -> bool, line: string, pc: nat, m: Memory): Effect {
    Execute(accepts, DecodeFunction(line), line, pc, m)
  }

  // ----- variables

  /** Reading finds the first variable of the name. */
  lemma {:induction false} ReadFindsFirst(data: Data, name: char, k: nat)
    requires k < |data| && data[k].name == name && forall j :: 0 <= j < k ==> data[j].name != name
    ensures Read(data, name) == data[k].value && Declares(data, name)
  {
    if k > 0 {
      ReadFindsFirst(data[1..], name, k - 1);
    }
  }

  lemma {:induction false} ReadAppended(data: Data, more: Data, name: char)
    ensures Read(data + more, name) == if Declares(data, name) then Read(data, name) else Read(more, name)
  {
    if data == [] {
      assert data + more == more;
    } else {
      assert (data + more)[1..] == data[1..] + more;
      if data[0].name != name {
        ReadAppended(data[1..], more, name);
        DeclaresTail(data, name);
      }
    }
  }

  lemma DeclaredReads(names: seq<char>, name: char)
    ensures Declares(Declared(CommaList(names)), name) <==> name in names
    ensures Read(Declared(CommaList(names)), name) == if name in names then 0 else Atoi([name])
  {
    var more := Declared(CommaList(names));
    NamesDeclared(names);
    if name in names {
      var i :| 0 <= i < |names| && names[i] == name;
      assert more[i].name == name;
      FirstOf(more, name, i);
    } else {
      UnknownName(more, name);
    }
  }

  lemma {:induction false} FirstOf(data: Data, name: char, i: nat)
    requires i < |data| && data[i].name == name && forall j :: 0 <= j < |data| ==> data[j].value == 0
    ensures Read(data, name) == 0
  {
    if data[0].name != name {
      FirstOf(data[1..], name, i - 1);
    }
  }

  // ----- each statement by itself

  /** `variables`: the new names read 0, those declared before keep their values, nothing else happens. */
  lemma VariablesMean(accepts: nat -> bool, pc: nat, m: Memory, names: seq<char>, name: char)
    requires names != [] && AllLetters(names)
    ensures var e := InMain(accepts, Line(Variables(names)), pc, m); var after := e.memory.data;
            && Read(after, name) == (if !Declares(m.data, name) && name in names then 0 else Read(m.data, name))
            && (Declares(after, name) <==> Declares(m.data, name) || name in names)
            && e.memory == m.(data := after) && !e.charged && !e.blocks
  {
    hide CommaList, DecodeMain, Declared, Read;
    VariablesDecodes(names);
    var more := Declared(CommaList(names));
    ReadAppended(m.data, more, name);
    DeclaredReads(names, name);
    DeclaresAppended(m.data, more, name);
    if !Declares(m.data, name) {
      UnknownName(m.data, name);
    }
  }

  lemma DeclaresAppended(data: Data, more: Data, name: char)
    ensures Declares(data + more, name) <==> Declares(data, name) || Declares(more, name)
  {
    var all := data + more;
    forall k | 0 <= k < |data| ensures all[k] == data[k] {}
    forall k | 0 <= k < |more| ensures all[|data| + k] == more[k] {}
    if Declares(all, name) {
      var k :| 0 <= k < |all| && all[k].name == name;
      if k < |data| { assert data[k].name == name; } else { assert more[k - |data|].name == name; }
    }
    if Declares(more, name) {
      var k :| 0 <= k < |more| && more[k].name == name;
      assert all[|data| + k].name == name;
    }
  }

  /** `imprimir`: the value the variable reads is printed, nothing is stored, nothing is charged. */
  lemma PrintMeans(accepts: nat -> bool, pc: nat, m: Memory, x: char)
    requires IsLetter(x)
    ensures InMain(accepts, Line(Imprimir(x)), pc, m) == InFunction(accepts, Line(Imprimir(x)), pc, m)
            == Effect(m.(events := m.events + [Printed(x, Read(m.data, x))]), false, false)
  {
    hide DecodeMain, DecodeFunction;
    PrintDecodes(x);
  }

  /** The event of a request that was made, and the answer a variable gets: 1 if it was made, 0 if refused. */
  function RequestEvent(time: nat, blocking: bool, made: bool, pc: nat): Event {
    if made then Started(time, blocking) else Refused(pc + 1)
  }

  predicate RequestMeans(e: Effect, m: Memory, answer: Answer, time: nat, blocking: bool, made: bool, pc: nat,
    name: char) {
    && e.memory.events == m.events + [RequestEvent(time, blocking, made, pc)]
    && e.memory.asks == m.asks + (if blocking then 0 else 1)
    && (e.blocks <==> blocking) && (e.charged <==> answer.StoreIn?)
    && Read(e.memory.data, name)
       == (if answer == StoreIn(name) && Declares(m.data, name) then (if made then 1 else 0) else Read(m.data, name))
    && (Declares(e.memory.data, name) <==> Declares(m.data, name))
  }

  /** `io` and `x=io`: a request is made unless it is a non-blocking one that finds no thread. */
  lemma IoMeans(accepts: nat -> bool, pc: nat, m: Memory, answer: Answer, time: nat, blocking: bool, name: char)
    requires answer.StoreIn? ==> IsLetter(answer.variable)
    ensures var line, made := Line(Io(answer, time, blocking)), blocking || accepts(m.asks);
            && RequestMeans(InMain(accepts, line, pc, m), m, answer, time % 0x1_0000_0000, blocking, made, pc, name)
            && RequestMeans(InFunction(accepts, line, pc, m), m, answer, time % 0x1_0000, blocking, made, pc, name)
  {
    hide DecodeMain, DecodeFunction, Line, Read, Write, Declares;
    DecodingUndoesWriting(Io(answer, time, blocking));
    if answer.StoreIn? {
      var x := answer.variable;
      WriteThenRead(m.data, x, 1, name);
      WriteThenRead(m.data, x, 0, name);
      WriteKeepsNames(m.data, x, 1, name);
      WriteKeepsNames(m.data, x, 0, name);
    }
  }

  lemma {:induction false} WriteKeepsNames(data: Data, target: char, value: int, name: char)
    ensures Declares(Write(data, target, value), name) <==> Declares(data, name)
  {
    NamesStay(data, target, value);
    var after := Write(data, target, value);
    if Declares(data, name) {
      var k :| 0 <= k < |data| && data[k].name == name;
      assert after[k].name == name;
    }
    if Declares(after, name) {
      var k :| 0 <= k < |after| && after[k].name == name;
      assert data[k].name == name;
    }
  }

  lemma {:induction false} NamesStay(data: Data, target: char, value: int)
    ensures forall k :: 0 <= k < |data| ==> Write(data, target, value)[k].name == data[k].name
  {
    if data != [] && data[0].name != target {
      NamesStay(data[1..], target, value);
      forall k | 0 <= k < |data| ensures Write(data, target, value)[k].name == data[k].name {
        if k > 0 { assert Write(data[1..], target, value)[k - 1].name == data[1..][k - 1].name; }
      }
    }
  }

  /** `ssc` and `snc` change no variable and show nothing, and are charged. */
  lemma JumpsMean(accepts: nat -> bool, pc: nat, m: Memory, tested: char, tag: string, delay: Option<nat>)
    requires AllLetters(tag)
    ensures InMain(accepts, Line(Ssc(tested, tag, delay)), pc, m) == Effect(m, true, false)
    ensures InMain(accepts, Line(Snc(tested, tag, delay)), pc, m) == Effect(m, true, false)
  {
    hide DecodeMain, Line;
    DecodingUndoesWriting(Ssc(tested, tag, delay));
    DecodingUndoesWriting(Snc(tested, tag, delay));
  }

  /** Empty lines and tags do nothing. */
  lemma TagsMean(accepts: nat -> bool, pc: nat, m: Memory, tag: string)
    ensures InMain(accepts, tag + ":", pc, m) == InFunction(accepts, tag + ":", pc, m) == Effect(m, false, false)
    ensures InMain(accepts, "", pc, m) == InFunction(accepts, "", pc, m) == Effect(m, false, false)
  {
  }
}
