/** AnSISOP lines: which statement a line is, and what the statement does to the variables.
    Both interpreter loops test a line in a fixed order; `DecodeMain` and `DecodeFunction`
    keep the two orders apart. */
module Script {
  import opened CStrings
  import opened Options

  datatype Instr =
    | Nothing
    | Declare(names: string)
    | Print(variable: char)
    | JumpIfZero(tested: char, tag: string)
    | JumpIfNonzero(tested: char, tag: string)
    | Assign(target: char)
    | AskIo(answer: Answer, time: nat, blocking: bool)
    | Call(name: string)

  /** Where the outcome of an I/O request goes: `x=io(..)` stores it, a bare `io(..)` drops it. */
  datatype Answer = Drop | StoreIn(variable: char)

  const PROGRAM_END := "fin_programa"
  const FUNCTION_BEGIN := "comienzo_funcion "
  const FUNCTION_END := "fin_funcion"

  predicate IsAssignment(line: string) {
    At(line, 1) == '='
  }

  predicate IsIoAssignment(line: string) {
    IsAssignment(line) && StartsWith(From(line, 2), "io(")
  }

  /** The request whose arguments start at index `start`; its time is kept in `modulus` values. */
  function IoRequest(line: string, start: nat, answer: Answer, modulus: nat): Instr
    requires modulus > 0
  {
    var args := From(line, start);
    var comma := Scan(args, c => c == ',');
    AskIo(answer, Atoi(args[..comma]) % modulus, At(args, comma + 1) != '0')
  }

  function CallName(line: string): string {
    line[..Scan(line, c => c == '(')]
  }

  function TagOf(text: string): string {
    text[..Scan(text, c => c == ';')]
  }

  // the tests both loops make after their own ones; the function loop keeps the time in 16 bits
  function DecodeCommon(line: string, modulus: nat): Instr
    requires modulus > 0
  {
    if IsIoAssignment(line) then IoRequest(line, 5, StoreIn(At(line, 0)), modulus)
    else if IsAssignment(line) then Assign(At(line, 0))
    else if StartsWith(line, "io(") then IoRequest(line, 3, Drop, modulus)
    else if EndsWith(line, "()") then Call(CallName(line))
    else Nothing
  }

  function DecodeFunction(line: string): Instr {
    if line == "" || EndsWith(line, ":") then Nothing
    else if StartsWith(line, "imprimir") then Print(At(line, 9))
    else DecodeCommon(line, 0x1_0000)
  }

  function DecodeMain(line: string): Instr {
    if line == "" || EndsWith(line, ":") then Nothing
    else if StartsWith(line, "variables") then Declare(From(line, 10))
    else if StartsWith(line, "imprimir") then Print(At(line, 9))
    else if StartsWith(line, "ssc") then JumpIfZero(At(line, 4), TagOf(From(line, 6)))
    else if StartsWith(line, "snc") then JumpIfNonzero(At(line, 4), TagOf(From(line, 6)))
    else DecodeCommon(line, 0x1_0000_0000)
  }

  /** A call seen by the main loop is the same call for the function loop. */
  lemma MainCallIsFunctionCall(line: string)
    requires DecodeMain(line).Call?
    ensures DecodeFunction(line) == DecodeMain(line)
  {
  }

  // ----- variables

  datatype Variable = Variable(name: char, value: int)

  type Data = seq<Variable>

  function Read(data: Data, name: char): int {
    if data == [] then Atoi([name])
    else if data[0].name == name then data[0].value
    else Read(data[1..], name)
  }

  function Write(data: Data, name: char, value: int): (r: Data)
    ensures |r| == |data|
  {
    if data == [] then []
    else if data[0].name == name then [data[0].(value := value)] + data[1..]
    else [data[0]] + Write(data[1..], name, value)
  }

  /** The names at even positions of the list that follows `variables`. */
  function Declared(names: string): Data {
    if names == "" then []
    else [Variable(names[0], 0)] + (if |names| > 2 then Declared(names[2..]) else [])
  }

  predicate Declares(data: Data, name: char) {
    exists k :: 0 <= k < |data| && data[k].name == name
  }

  predicate IsSign(c: char) { c == '+' || c == '-' }

  predicate EndsTerm(c: char) { IsSign(c) || c == ';' }

  function TermValue(text: string, data: Data): int {
    if |text| > 1 then Atoi(text) else Read(data, At(text, 0))
  }

  function Signed(sign: char, value: int): int {
    if sign == '-' then -value else value
  }

  /** The sum of the terms from index `i`, whose first character is the sign of the first term. */
  function SumFrom(line: string, i: nat, data: Data): int
    requires i <= |line|
    decreases |line| - i
  {
    if i == |line| || line[i] == ';' then 0
    else
      var k := Scan(line, EndsTerm, i + 1);
      Signed(line[i], TermValue(line[i + 1..k], data)) + SumFrom(line, k, data)
  }

  // ----- effects

  /** What a process does that others can see. */
  datatype Event =
    | Printed(variable: char, value: int)
    | Started(time: nat, blocking: bool)
    | Refused(lineNumber: nat)

  /** The memory of a process: variables, everything it did, and how many non-blocking requests it made. */
  datatype Memory = Memory(data: Data, events: seq<Event>, asks: nat)

  /** What one statement does: the new memory, whether it is charged to the burst, and whether
      it blocks the process. */
  datatype Effect = Effect(memory: Memory, charged: bool, blocks: bool)

  function Store(data: Data, answer: Answer, value: int): Data {
    match answer
    case Drop => data
    case StoreIn(variable) => Write(data, variable, value)
  }

  /** `accepts(n)` tells whether the process's n-th non-blocking request finds a free I/O thread. */
  function Execute(accepts: nat -> bool, instr: Instr, line: string, pc: nat, m: Memory): Effect {
    match instr
    case Nothing => Effect(m, false, false)
    case Declare(names) => Effect(m.(data := m.data + Declared(names)), false, false)
    case Print(v) => Effect(m.(events := m.events + [Printed(v, Read(m.data, v))]), false, false)
    case JumpIfZero(_, _) => Effect(m, true, false)
    case JumpIfNonzero(_, _) => Effect(m, true, false)
    case Assign(target) =>
      var value := if |line| < 1 then 0 else SumFrom(line, 1, m.data);
      Effect(m.(data := Write(m.data, target, value)), true, false)
    case AskIo(answer, time, true) =>
      Effect(Memory(Store(m.data, answer, 1), m.events + [Started(time, true)], m.asks), answer.StoreIn?, true)
    case AskIo(answer, time, false) =>
      if accepts(m.asks) then
        Effect(Memory(Store(m.data, answer, 1), m.events + [Started(time, false)], m.asks + 1), answer.StoreIn?, false)
      else
        Effect(Memory(Store(m.data, answer, 0), m.events + [Refused(pc + 1)], m.asks + 1), answer.StoreIn?, false)
    case Call(_) => Effect(m, false, false)
  }

  // ----- whole scripts

  function FindLine(code: seq<string>, line: string, i: nat := 0): (k: nat)
    requires i <= |code|
    ensures i <= k <= |code|
    ensures k < |code| ==> code[k] == line
    ensures forall j :: i <= j < k ==> code[j] != line
    decreases |code| - i
  {
    if i == |code| || code[i] == line then i else FindLine(code, line, i + 1)
  }

  function FunctionLine(code: seq<string>, name: string): (k: nat)
    ensures k <= |code|
  {
    FindLine(code, FUNCTION_BEGIN + name)
  }

  function TagLine(code: seq<string>, tag: string): (k: nat)
    ensures k <= |code|
  {
    FindLine(code, tag + ":")
  }

  predicate EndsFunction(line: string, name: string) {
    StartsWith(line, FUNCTION_END) && EndsWith(line, name)
  }

  predicate ReachesProgramEnd(code: seq<string>, i: nat) {
    exists j :: i <= j < |code| && code[j] == PROGRAM_END
  }

  predicate ReachesFunctionEnd(code: seq<string>, i: nat, name: string) {
    exists j :: i <= j < |code| && EndsFunction(code[j], name)
  }

  predicate NameOk(name: string) {
    name != "" && ')' !in name
  }

  predicate CallOk(code: seq<string>, name: string) {
    && NameOk(name)
    && FunctionLine(code, name) < |code|
    && ReachesFunctionEnd(code, FunctionLine(code, name), name)
  }

  function JumpTag(instr: Instr): Option<string> {
    match instr
    case JumpIfZero(_, tag) => Some(tag)
    case JumpIfNonzero(_, tag) => Some(tag)
    case _ => None
  }

  predicate TagOk(code: seq<string>, tag: string) {
    && TagLine(code, tag) < |code|
    && ReachesProgramEnd(code, TagLine(code, tag))
  }

  /** A call finds its function and that function its end; a jump finds its tag. */
  predicate LineOk(code: seq<string>, i: nat)
    requires i < |code|
  {
    && (DecodeFunction(code[i]).Call? ==> CallOk(code, DecodeFunction(code[i]).name))
    && (JumpTag(DecodeMain(code[i])).Some? ==> TagOk(code, JumpTag(DecodeMain(code[i])).value))
  }

  /** What the interpreter relies on without checking: its searches for a function, a tag or an
      end line never run off the code, and line numbers fit its 16-bit program counters. */
  predicate WellFormed(code: seq<string>) {
    && |code| <= 0xFFFF
    && ReachesProgramEnd(code, 0)
    && (forall i :: 0 <= i < |code| ==> LineOk(code, i))
  }

  /** A call line never ends the function it stands in. */
  lemma CallIsNotAnEnd(line: string, name: string)
    requires DecodeFunction(line).Call? && NameOk(name)
    ensures !EndsFunction(line, name)
  {
    assert EndsWith(line, "()");
    assert line[|line| - 2..][1] == ')';
  }

  lemma ProgramEndIsNotACall()
    ensures !DecodeFunction(PROGRAM_END).Call?
  {
    assert PROGRAM_END[|PROGRAM_END| - 2..][0] == 'm';
  }

  lemma BeginIsNotAnEnd(name: string)
    ensures !EndsFunction(FUNCTION_BEGIN + name, name)
  {
    assert (FUNCTION_BEGIN + name)[0] == 'c';
    assert FUNCTION_END[0] == 'f';
  }
}
