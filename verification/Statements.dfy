/**
 * Writing a statement and decoding the line gives the statement back, in both loops. The main loop
 * keeps an I/O time in 32 bits, the function loop in 16.
 */
module Statements {
  import opened CStrings
  import opened Options
  import opened Script
  import opened Rendering

  datatype Statement =
    | Variables(names: seq<char>)
    | Imprimir(variable: char)
    | Ssc(tested: char, tag: string, delay: Option<nat>)
    | Snc(tested: char, tag: string, delay: Option<nat>)
    | Io(answer: Answer, time: nat, blocking: bool)
    | Invoke(name: string)

  predicate AllLetters(s: string) {
    forall i :: 0 <= i < |s| ==> IsLetter(s[i])
  }

  /** Variables, tags and functions are named by letters; a function's name does not begin like another statement. */
  predicate Writable(s: Statement) {
    match s
    case Variables(names) => names != [] && AllLetters(names)
    case Imprimir(name) => IsLetter(name)
    case Ssc(tested, tag, _) => AllLetters(tag)
    case Snc(tested, tag, _) => AllLetters(tag)
    case Io(answer, _, _) => answer.StoreIn? ==> IsLetter(answer.variable)
    case Invoke(name) =>
      && name != "" && AllLetters(name) && FunctionCallable(name)
      && !("variables" <= name) && !("ssc" <= name) && !("snc" <= name)
  }

  /** A function whose calls are not taken for another statement inside functions. */
  predicate FunctionCallable(name: string) {
    !("imprimir" <= name) && name != "io"
  }

  function CommaList(names: seq<char>): string {
    if names == [] then ""
    else if |names| == 1 then names
    else [names[0]] + "," + CommaList(names[1..])
  }

  function Arguments(time: nat, blocking: bool): string {
    Decimal(time) + "," + (if blocking then "1" else "0") + ")"
  }

  function Line(s: Statement): string {
    match s
    case Variables(names) => "variables " + CommaList(names)
    case Imprimir(name) => "imprimir " + [name]
    case Ssc(tested, tag, delay) => "ssc " + [tested] + " " + tag + Delay(delay)
    case Snc(tested, tag, delay) => "snc " + [tested] + " " + tag + Delay(delay)
    case Io(Drop, time, blocking) => "io(" + Arguments(time, blocking)
    case Io(StoreIn(x), time, blocking) => [x] + "=io(" + Arguments(time, blocking)
    case Invoke(name) => name + "()"
  }

  /** What the line is meant to be, for a loop that keeps times modulo `modulus`. */
  function Meant(s: Statement, modulus: nat): Instr
    requires modulus > 0
  {
    match s
    case Variables(names) => Declare(CommaList(names))
    case Imprimir(name) => Print(name)
    case Ssc(tested, tag, _) => JumpIfZero(tested, tag)
    case Snc(tested, tag, _) => JumpIfNonzero(tested, tag)
    case Io(answer, time, blocking) => AskIo(answer, time % modulus, blocking)
    case Invoke(name) => Call(name)
  }

  predicate InFunctions(s: Statement) {
    s.Imprimir? || s.Io? || s.Invoke?
  }

  // ----- letters and ends

  lemma {:induction false} CommaListEnds(names: seq<char>)
    requires names != [] && AllLetters(names)
    ensures var s := CommaList(names); s != "" && IsLetter(s[|s| - 1])
  {
    if |names| > 1 {
      CommaListEnds(names[1..]);
    }
  }

  lemma NotATag(line: string)
    requires line != "" && line[|line| - 1] != ':'
    ensures !EndsWith(line, ":")
  {
  }

  // ----- one kind of statement after the other

  lemma VariablesDecodes(names: seq<char>)
    requires names != [] && AllLetters(names)
    ensures DecodeMain("variables " + CommaList(names)) == Declare(CommaList(names))
  {
    hide CommaList;
    CommaListEnds(names);
    var line := "variables " + CommaList(names);
    NotATag(line);
    assert line[..9] == "variables" && line[10..] == CommaList(names);
  }

  lemma PrintDecodes(name: char)
    requires IsLetter(name)
    ensures var line := "imprimir " + [name]; DecodeMain(line) == DecodeFunction(line) == Print(name)
  {
    var line := "imprimir " + [name];
    NotATag(line);
    assert line[..8] == "imprimir" && line[9] == name && line[0] == 'i' && "variables"[0] == 'v';
  }

  lemma JumpShape(begin: string, tested: char, tag: string, tail: string)
    requires |begin| == 4 && AllLetters(tag) && (tail != "" ==> tail[|tail| - 1] != ':')
    ensures var line := begin + [tested] + " " + tag + tail;
            && |line| >= 6 && line[..4] == begin && line[4] == tested && line[6..] == tag + tail
            && line[|line| - 1] != ':'
  {
    var line := begin + [tested] + " " + tag + tail;
    if tail != "" {
      assert line[|line| - 1] == tail[|tail| - 1];
    } else if tag != "" {
      assert line[|line| - 1] == tag[|tag| - 1];
    } else {
      assert line[|line| - 1] == ' ';
    }
  }

  lemma JumpLine(line: string)
    requires |line| >= 6 && line[|line| - 1] != ':' && (line[..4] == "ssc " || line[..4] == "snc ")
    ensures DecodeMain(line) ==
              if line[..4] == "ssc " then JumpIfZero(line[4], TagOf(line[6..]))
              else JumpIfNonzero(line[4], TagOf(line[6..]))
  {
    hide TagOf;
    NotATag(line);
    assert line[0] == line[..4][0] == 's' && line[1] == line[..4][1] && line[2] == line[..4][2] == 'c';
    assert "variables"[0] == 'v' && "imprimir"[0] == 'i';
    assert line[..3] == line[..4][..3];
  }

  lemma JumpDecodes(begin: string, tested: char, tag: string, delay: Option<nat>)
    requires (begin == "ssc " || begin == "snc ") && AllLetters(tag)
    ensures DecodeMain(begin + [tested] + " " + tag + Delay(delay)) ==
              if begin == "ssc " then JumpIfZero(tested, tag) else JumpIfNonzero(tested, tag)
  {
    DelayIsTail(delay);
    hide Delay, DecodeMain, TagOf;
    JumpShape(begin, tested, tag, Delay(delay));
    JumpLine(begin + [tested] + " " + tag + Delay(delay));
    TagBeforeDelay(tag, Delay(delay));
  }

  lemma TagBeforeDelay(tag: string, tail: string)
    requires AllLetters(tag) && (tail == "" || tail[0] == ';')
    ensures TagOf(tag + tail) == tag
  {
    var text := tag + tail;
    forall j | 0 <= j < |tag| ensures text[j] != ';' { assert text[j] == tag[j]; }
    assert tail != "" ==> text[|tag|] == ';';
    assert text[..|tag|] == tag;
  }

  /** The arguments of a request give its time and its kind back. */
  lemma ArgumentsRead(time: nat, blocking: bool)
    ensures var args := Arguments(time, blocking); var comma := Scan(args, c => c == ',');
            && Atoi(args[..comma]) == time && (At(args, comma + 1) != '0' <==> blocking)
  {
    var args, digits := Arguments(time, blocking), Decimal(time);
    forall j | 0 <= j < |digits| ensures args[j] != ',' { assert args[j] == digits[j] && IsDigit(digits[j]); }
    assert args[|digits|] == ',';
    var comma := Scan(args, c => c == ',');
    assert comma == |digits| && args[..comma] == digits;
    AllDigits(digits);
    DigitsOfDecimal(time);
  }

  lemma ArgumentsEnd(time: nat, blocking: bool)
    ensures var s := Arguments(time, blocking);
            |s| > 2 && s[|s| - 1] == ')' && (s[|s| - 2] == '0' || s[|s| - 2] == '1')
  {
  }

  lemma IoDecodes(time: nat, blocking: bool)
    ensures var line := "io(" + Arguments(time, blocking);
            && DecodeMain(line) == AskIo(Drop, time % 0x1_0000_0000, blocking)
            && DecodeFunction(line) == AskIo(Drop, time % 0x1_0000, blocking)
  {
    ArgumentsRead(time, blocking);
    ArgumentsEnd(time, blocking);
    hide Arguments, Atoi;
    var args := Arguments(time, blocking);
    var line := "io(" + args;
    NotATag(line);
    assert line[..3] == "io(" && line[3..] == args && line[1] == 'o' && line[2] == '(';
    assert "imprimir"[1] == 'm' && "variables"[0] == 'v' && "ssc"[0] == 's' && "snc"[0] == 's';
  }

  lemma IoAnswerDecodes(x: char, time: nat, blocking: bool)
    requires IsLetter(x)
    ensures var line := [x] + "=io(" + Arguments(time, blocking);
            && DecodeMain(line) == AskIo(StoreIn(x), time % 0x1_0000_0000, blocking)
            && DecodeFunction(line) == AskIo(StoreIn(x), time % 0x1_0000, blocking)
  {
    ArgumentsRead(time, blocking);
    ArgumentsEnd(time, blocking);
    hide Arguments, Atoi, DecodeMain, DecodeFunction;
    var args := Arguments(time, blocking);
    var line := [x] + "=io(" + args;
    assert line[0] == x && line[1] == '=' && line[5..] == args && line[2..] == "io(" + args
        && ("io(" + args)[..3] == "io(";
    AnswerLine(line);
  }

  lemma AnswerLine(line: string)
    requires |line| > 5 && line[1] == '=' && StartsWith(line[2..], "io(") && line[|line| - 1] == ')'
    ensures DecodeMain(line) == IoRequest(line, 5, StoreIn(line[0]), 0x1_0000_0000)
    ensures DecodeFunction(line) == IoRequest(line, 5, StoreIn(line[0]), 0x1_0000)
  {
    hide IoRequest;
    NotATag(line);
    assert "imprimir"[1] == 'm' && "variables"[1] == 'a' && "ssc"[1] == 's' && "snc"[1] == 'n';
  }

  lemma BeginsLike(word: string, name: string)
    requires AllLetters(word) && AllLetters(name)
    ensures StartsWith(name + "()", word) <==> word <= name
  {
    var line := name + "()";
    if |word| > |name| {
      assert IsLetter(word[|name|]) && line[|name|] == '(';
    } else {
      assert line[..|word|] == name[..|word|];
    }
  }

  lemma RequestLike(name: string)
    requires name != "" && AllLetters(name)
    ensures StartsWith(name + "()", "io(") <==> name == "io"
  {
    var line := name + "()";
    assert "io("[0] == 'i' && "io("[1] == 'o' && "io("[2] == '(';
    if |name| == 1 {
      assert line[1] == '(';
    } else if |name| == 2 {
      assert line[0] == name[0] && line[1] == name[1] && line[2] == '(';
      assert name == [name[0], name[1]] && line[..3] == [name[0], name[1], '('];
    } else {
      assert line[2] == name[2] && IsLetter(name[2]);
    }
  }

  lemma CallShape(name: string)
    requires name != "" && AllLetters(name)
    ensures var line := name + "()";
            && line != "" && !EndsWith(line, ":") && EndsWith(line, "()") && !IsAssignment(line)
            && CallName(line) == name
  {
    var line := name + "()";
    NotATag(line);
    assert line[|name|..] == "()" && line[|name|] == '(';
    forall j | 0 <= j < |name| ensures line[j] != '(' && line[j] != '=' {
      assert line[j] == name[j] && IsLetter(name[j]);
    }
    var k := Scan(line, c => c == '(');
    assert k == |name| && line[..k] == name;
  }

  /** A call is decoded as one exactly when its name does not read like another statement. */
  lemma CallDecodesExactlyWhen(name: string)
    requires name != "" && AllLetters(name)
    ensures DecodeFunction(name + "()") == Call(name) <==> FunctionCallable(name)
    ensures DecodeMain(name + "()") == Call(name) <==> Writable(Invoke(name))
  {
    CallShape(name);
    RequestLike(name);
    BeginsLike("imprimir", name);
    BeginsLike("variables", name);
    BeginsLike("ssc", name);
    BeginsLike("snc", name);
    hide EndsWith, StartsWith, CallName, IsAssignment, IoRequest;
  }

  /** Decoding undoes writing, in the main loop for every statement, in functions for those they have. */
  lemma DecodingUndoesWriting(s: Statement)
    requires Writable(s)
    ensures DecodeMain(Line(s)) == Meant(s, 0x1_0000_0000)
    ensures InFunctions(s) ==> DecodeFunction(Line(s)) == Meant(s, 0x1_0000)
  {
    hide DecodeMain, DecodeFunction, Arguments, CommaList, Delay;
    match s
    case Variables(names) => VariablesDecodes(names);
    case Imprimir(name) => PrintDecodes(name);
    case Ssc(tested, tag, delay) => JumpDecodes("ssc ", tested, tag, delay);
    case Snc(tested, tag, delay) => JumpDecodes("snc ", tested, tag, delay);
    case Io(Drop, time, blocking) => IoDecodes(time, blocking);
    case Io(StoreIn(x), time, blocking) => IoAnswerDecodes(x, time, blocking);
    case Invoke(name) => CallDecodesExactlyWhen(name);
  }

  /** The same request is a different one inside a function exactly when its time exceeds 16 bits. */
  lemma TimesAgreeExactlyWhen(answer: Answer, time: nat, blocking: bool)
    requires Writable(Io(answer, time, blocking)) && time < 0x1_0000_0000
    ensures DecodeMain(Line(Io(answer, time, blocking))) == DecodeFunction(Line(Io(answer, time, blocking)))
            <==> time < 0x1_0000
  {
    hide DecodeMain, DecodeFunction, Arguments;
    DecodingUndoesWriting(Io(answer, time, blocking));
  }

  /** Declaring a list of names declares exactly those, in order, with value 0. */
  lemma {:induction false} NamesDeclared(names: seq<char>)
    ensures |Declared(CommaList(names))| == |names|
    ensures forall i :: 0 <= i < |names| ==> Declared(CommaList(names))[i] == Variable(names[i], 0)
  {
    if |names| > 1 {
      NamesDeclared(names[1..]);
      var s := CommaList(names);
      assert s[0] == names[0] && s[2..] == CommaList(names[1..]) && |s| > 2 by { CommaListLength(names[1..]); }
      var rest := Declared(CommaList(names[1..]));
      assert Declared(s) == [Variable(names[0], 0)] + rest;
      forall i | 0 <= i < |names| ensures Declared(s)[i] == Variable(names[i], 0) {
        if i > 0 { assert rest[i - 1] == Variable(names[1..][i - 1], 0); }
      }
    }
  }

  lemma CommaListLength(names: seq<char>)
    ensures names != [] ==> CommaList(names) != ""
  {
  }
}
