/**
 * What the assignment evaluator is for: a written sum of terms is evaluated to that sum and
 * stored in its target, whatever the terms, and no other variable changes.
 */
module Rendering {
  import opened CStrings
  import opened Options
  import opened Script
  import opened Evaluator

  datatype Operand = Named(name: char) | Number(n: nat)

  datatype Term = Term(negative: bool, operand: Operand)

  predicate IsLetter(c: char) {
    'a' <= c <= 'z' || 'A' <= c <= 'Z'
  }

  predicate WellNamed(terms: seq<Term>) {
    forall i :: 0 <= i < |terms| && terms[i].operand.Named? ==> IsLetter(terms[i].operand.name)
  }

  function Digit(d: nat): (c: char)
    requires d < 10
    ensures IsDigit(c) && DigitValue(c) == d
  {
    "0123456789"[d]
  }

  function Decimal(n: nat): (s: string)
    ensures s != "" && (forall c :: c in s ==> IsDigit(c)) && (|s| == 1 <==> n < 10)
  {
    if n < 10 then [Digit(n)] else Decimal(n / 10) + [Digit(n % 10)]
  }

  function Written(operand: Operand): (s: string)
    ensures s != ""
  {
    match operand
    case Named(name) => [name]
    case Number(n) => Decimal(n)
  }

  /** Every term with its sign in front. */
  function SignedTerms(terms: seq<Term>): string {
    if terms == [] then ""
    else [if terms[0].negative then '-' else '+'] + Written(terms[0].operand) + SignedTerms(terms[1..])
  }

  /** The right-hand side: a leading '+' is not written. */
  function RightHandSide(terms: seq<Term>): string
    requires terms != []
  {
    if terms[0].negative then SignedTerms(terms) else SignedTerms(terms)[1..]
  }

  function Delay(delay: Option<nat>): string {
    if delay.Some? then ";" + Decimal(delay.value) else ""
  }

  function Statement(target: char, terms: seq<Term>, delay: Option<nat>): string
    requires terms != []
  {
    [target] + "=" + RightHandSide(terms) + Delay(delay)
  }

  // ----- the meaning

  function OperandValue(operand: Operand, data: Data): int {
    match operand
    case Named(name) => Read(data, name)
    case Number(n) => n
  }

  function Sum(terms: seq<Term>, data: Data): int {
    if terms == [] then 0
    else (if terms[0].negative then -OperandValue(terms[0].operand, data) else OperandValue(terms[0].operand, data))
         + Sum(terms[1..], data)
  }

  /** No variable is named by a digit or by NUL. */
  predicate OrdinaryNames(data: Data) {
    forall i :: 0 <= i < |data| ==> !IsDigit(data[i].name) && data[i].name != NUL
  }

  // ----- numbers

  lemma {:induction false} DigitsOfDecimal(n: nat)
    ensures Digits(Decimal(n)) == n
  {
    if n < 10 {
      assert Decimal(n)[..0] == "";
    } else {
      DigitsOfDecimal(n / 10);
      var s := Decimal(n);
      assert s[..|s| - 1] == Decimal(n / 10);
    }
  }

  lemma {:induction false} AllDigits(s: string)
    requires s != "" && forall c :: c in s ==> IsDigit(c)
    ensures DigitPrefix(s) == s && Atoi(s) == Digits(s)
  {
    assert IsDigit(s[0]);
    var k := Scan(s, c => !IsDigit(c));
    assert k == |s|;
    assert s[..k] == s;
  }

  lemma {:induction false} AtoiSkips(spaces: string, s: string)
    requires forall i :: 0 <= i < |spaces| ==> IsSpace(spaces[i])
    ensures Atoi(spaces + s) == Atoi(s)
  {
    if spaces == "" {
      assert spaces + s == s;
    } else {
      assert (spaces + s)[1..] == spaces[1..] + s;
      AtoiSkips(spaces[1..], s);
    }
  }

  lemma PrefixOf(s: string, rest: string)
    requires s != "" && (forall c :: c in s ==> IsDigit(c)) && (rest != "" ==> !IsDigit(rest[0]))
    ensures DigitPrefix(s + rest) == s
  {
    var text := s + rest;
    assert forall j :: 0 <= j < |s| ==> text[j] == s[j] && s[j] in s;
    assert rest != "" ==> text[|s|] == rest[0];
    assert Scan(text, c => !IsDigit(c)) == |s|;
    assert text[..|s|] == s;
  }

  lemma AtoiOfSigned(n: nat, rest: string)
    requires rest != "" ==> !IsDigit(rest[0])
    ensures var number := Decimal(n) + rest;
            Atoi(number) == n && Atoi("+" + number) == n && Atoi("-" + number) == -(n as int)
  {
    var number := Decimal(n) + rest;
    PrefixOf(Decimal(n), rest);
    DigitsOfDecimal(n);
    hide DigitPrefix, Digits, Decimal;
    assert number[0] == Decimal(n)[0] && number[0] in Decimal(n);
    SignedNumber(number);
  }

  lemma SignedNumber(number: string)
    requires number != "" && IsDigit(number[0])
    ensures Atoi(number) == Digits(DigitPrefix(number))
    ensures Atoi("+" + number) == Digits(DigitPrefix(number))
    ensures Atoi("-" + number) == -(Digits(DigitPrefix(number)) as int)
  {
    hide DigitPrefix, Digits;
    assert ("+" + number)[1..] == number && ("-" + number)[1..] == number;
  }

  /** atoi reads white space, a sign and a decimal number, and stops at the first other character. */
  lemma AtoiReads(spaces: string, n: nat, rest: string)
    requires (forall i :: 0 <= i < |spaces| ==> IsSpace(spaces[i])) && (rest != "" ==> !IsDigit(rest[0]))
    ensures Atoi(spaces + (Decimal(n) + rest)) == n
    ensures Atoi(spaces + ("+" + (Decimal(n) + rest))) == n
    ensures Atoi(spaces + ("-" + (Decimal(n) + rest))) == -(n as int)
  {
    hide Atoi, Decimal;
    var number := Decimal(n) + rest;
    AtoiSkips(spaces, number);
    AtoiSkips(spaces, "+" + number);
    AtoiSkips(spaces, "-" + number);
    AtoiOfSigned(n, rest);
  }

  lemma {:induction false} UnknownName(data: Data, c: char)
    requires forall i :: 0 <= i < |data| ==> data[i].name != c
    ensures Read(data, c) == Atoi([c])
  {
    if data != [] {
      UnknownName(data[1..], c);
    }
  }

  lemma TermValueIs(operand: Operand, data: Data)
    requires OrdinaryNames(data)
    ensures TermValue(Written(operand), data) == OperandValue(operand, data)
  {
    match operand
    case Named(_) =>
    case Number(n) =>
      AllDigits(Decimal(n));
      DigitsOfDecimal(n);
      if n < 10 {
        UnknownName(data, Digit(n));
        assert Decimal(n) == [Digit(n)];
      }
  }

  // ----- the sum

  lemma NoSeparators(operand: Operand)
    requires operand.Named? ==> IsLetter(operand.name)
    ensures forall j :: 0 <= j < |Written(operand)| ==> !EndsTerm(Written(operand)[j])
  {
    if operand.Number? {
      assert forall j :: 0 <= j < |Decimal(operand.n)| ==> IsDigit(Decimal(operand.n)[j]);
    }
  }

  lemma Slices(line: string, i: nat, sign: char, text: string, rest: string)
    requires i < |line| && line[i..] == [sign] + text + rest
    ensures var k := i + 1 + |text|;
            && |line| == k + |rest| && line[i] == sign && line[i + 1..k] == text && line[k..] == rest
            && (forall j :: i + 1 <= j < k ==> line[j] == text[j - (i + 1)])
            && (rest != "" ==> line[k] == rest[0])
  {
    var k := i + 1 + |text|;
    var here := line[i..];
    assert |line| == i + |here| == k + |rest|;
    assert line[i] == here[0] && line[i + 1..k] == here[1..1 + |text|] && line[k..] == here[1 + |text|..];
  }

  lemma SumStep(line: string, i: nat, k: nat, data: Data)
    requires i < k <= |line| && line[i] != ';' && Scan(line, EndsTerm, i + 1) == k
    ensures SumFrom(line, i, data) == Signed(line[i], TermValue(line[i + 1..k], data)) + SumFrom(line, k, data)
  {
    hide TermValue, Signed;
  }

  /** One term of the line is scanned as written. */
  lemma OneTerm(line: string, i: nat, sign: char, operand: Operand, rest: string, data: Data)
    requires i < |line| && line[i..] == [sign] + Written(operand) + rest && sign != ';'
    requires rest == "" || EndsTerm(rest[0])
    requires OrdinaryNames(data) && (operand.Named? ==> IsLetter(operand.name))
    ensures var k := i + 1 + |Written(operand)|;
            && k <= |line| && line[k..] == rest
            && SumFrom(line, i, data) == Signed(sign, OperandValue(operand, data)) + SumFrom(line, k, data)
  {
    hide *;
    var text := Written(operand);
    var k := i + 1 + |text|;
    Slices(line, i, sign, text, rest);
    NoSeparators(operand);
    ScanIs(line, i + 1, k);
    SumStep(line, i, k, data);
    TermValueIs(operand, data);
  }

  lemma NoTerms(line: string, i: nat, tail: string, data: Data)
    requires i <= |line| && line[i..] == tail
    requires tail == "" || tail[0] == ';'
    ensures SumFrom(line, i, data) == 0
  {
    if i < |line| { assert line[i] == line[i..][0]; }
  }

  lemma SumUnfold(terms: seq<Term>, tail: string, data: Data)
    ensures terms == [] ==> Sum(terms, data) == 0 && SignedTerms(terms) + tail == tail
    ensures terms != [] ==>
              Sum(terms, data) == Signed(if terms[0].negative then '-' else '+', OperandValue(terms[0].operand, data))
                                  + Sum(terms[1..], data)
  {
    hide OperandValue, Written;
  }

  lemma {:induction false} ManyTerms(line: string, i: nat, terms: seq<Term>, tail: string, data: Data)
    requires i <= |line| && line[i..] == SignedTerms(terms) + tail
    requires tail == "" || tail[0] == ';'
    requires OrdinaryNames(data) && WellNamed(terms)
    ensures SumFrom(line, i, data) == Sum(terms, data)
    decreases |terms|
  {
    hide *;
    SumUnfold(terms, tail, data);
    if terms == [] {
      NoTerms(line, i, tail, data);
    } else {
      var t := terms[0];
      var sign := if t.negative then '-' else '+';
      var rest := SignedTerms(terms[1..]) + tail;
      SignedUnfold(terms, tail);
      assert line[i..] == [sign] + Written(t.operand) + rest;
      assert i < |line| by { assert |line[i..]| > 0; }
      RestEnds(terms[1..], tail);
      NamesOfRest(terms);
      OneTerm(line, i, sign, t.operand, rest, data);
      ManyTerms(line, i + 1 + |Written(t.operand)|, terms[1..], tail, data);
    }
  }

  lemma SignedUnfold(terms: seq<Term>, tail: string)
    requires terms != []
    ensures SignedTerms(terms) + tail
            == [if terms[0].negative then '-' else '+'] + Written(terms[0].operand) + (SignedTerms(terms[1..]) + tail)
  {
  }

  lemma RestEnds(terms: seq<Term>, tail: string)
    requires tail == "" || tail[0] == ';'
    ensures var rest := SignedTerms(terms) + tail; rest == "" || EndsTerm(rest[0])
  {
  }

  lemma NamesOfRest(terms: seq<Term>)
    requires terms != [] && WellNamed(terms)
    ensures WellNamed(terms[1..]) && (terms[0].operand.Named? ==> IsLetter(terms[0].operand.name))
  {
  }

  // the empty term between '=' and a first '-' is worth nothing
  lemma LeadingMinus(line: string, rest: string, data: Data)
    requires |line| >= 1 && line[1..] == "=-" + rest && OrdinaryNames(data)
    ensures SumFrom(line, 1, data) == SumFrom(line, 2, data)
  {
    assert line[1] == line[1..][0] == '=' && line[2] == line[1..][1] == '-';
    ScanIs(line, 2, 2);
    assert line[2..2] == "";
    UnknownName(data, NUL);
    assert TermValue("", data) == Atoi([NUL]) == 0;
  }

  lemma NegativeShape(target: char, w: string, r: string, tail: string)
    ensures var line := [target] + "=" + (['-'] + w + r) + tail;
            line[0] == target && line[1] == '=' && line[1..] == "=-" + (w + (r + tail))
              && line[2..] == ['-'] + w + r + tail
  {
  }

  lemma PositiveShape(target: char, w: string, r: string, tail: string)
    ensures var line := [target] + "=" + (['+'] + w + r)[1..] + tail;
            line[0] == target && line[1] == '=' && line[1..] == "=" + w + (r + tail)
  {
  }

  // the line behind its target: '=', a '-' if the first term is negative, the first operand, the rest
  lemma StatementShape(target: char, terms: seq<Term>, delay: Option<nat>)
    requires terms != []
    ensures var line := Statement(target, terms, delay);
            && |line| >= 2 && line[0] == target && line[1] == '='
            && var rest := SignedTerms(terms[1..]) + Delay(delay);
            && (terms[0].negative ==> line[1..] == "=-" + (Written(terms[0].operand) + rest))
            && (terms[0].negative ==> line[2..] == SignedTerms(terms) + Delay(delay))
            && (!terms[0].negative ==> line[1..] == "=" + Written(terms[0].operand) + rest)
  {
    hide Written, Delay;
    if terms[0].negative {
      NegativeShape(target, Written(terms[0].operand), SignedTerms(terms[1..]), Delay(delay));
    } else {
      PositiveShape(target, Written(terms[0].operand), SignedTerms(terms[1..]), Delay(delay));
    }
  }

  /** The evaluator computes exactly the signed sum. */
  lemma SumOfStatement(target: char, terms: seq<Term>, delay: Option<nat>, data: Data)
    requires terms != [] && WellNamed(terms) && OrdinaryNames(data)
    ensures SumFrom(Statement(target, terms, delay), 1, data) == Sum(terms, data)
  {
    hide SumFrom, Written, OperandValue, EndsTerm, WellNamed, OrdinaryNames, SignedTerms, Statement;
    var line, tail := Statement(target, terms, delay), Delay(delay);
    var rest := SignedTerms(terms[1..]) + tail;
    StatementShape(target, terms, delay);
    NamesOfRest(terms);
    RestEnds(terms[1..], tail);
    if terms[0].negative {
      LeadingMinus(line, Written(terms[0].operand) + rest, data);
      ManyTerms(line, 2, terms, tail, data);
    } else {
      OneTerm(line, 1, '=', terms[0].operand, rest, data);
      ManyTerms(line, 2 + |Written(terms[0].operand)|, terms[1..], tail, data);
    }
  }

  // ----- the whole statement

  predicate IsPlain(c: char) {
    IsLetter(c) || IsDigit(c) || IsSign(c)
  }

  predicate Plain(s: string) {
    forall i :: 0 <= i < |s| ==> IsPlain(s[i])
  }

  lemma WrittenIsPlain(operand: Operand)
    requires operand.Named? ==> IsLetter(operand.name)
    ensures Plain(Written(operand))
  {
    if operand.Number? {
      assert forall j :: 0 <= j < |Decimal(operand.n)| ==> IsDigit(Decimal(operand.n)[j]);
    }
  }

  lemma {:induction false} SignedTermsArePlain(terms: seq<Term>)
    requires WellNamed(terms)
    ensures Plain(SignedTerms(terms)) && (terms != [] ==> |SignedTerms(terms)| > 1)
  {
    if terms != [] {
      NamesOfRest(terms);
      WrittenIsPlain(terms[0].operand);
      SignedTermsArePlain(terms[1..]);
    }
  }

  lemma RightHandSideIsPlain(terms: seq<Term>)
    requires terms != [] && WellNamed(terms)
    ensures Plain(RightHandSide(terms)) && RightHandSide(terms) != ""
  {
    SignedTermsArePlain(terms);
  }

  lemma DelayIsTail(delay: Option<nat>)
    ensures var tail := Delay(delay);
            && (tail == "" <==> delay == None)
            && (delay.Some? ==> tail[0] == ';' && tail[1..] == Decimal(delay.value))
            && forall i :: 0 <= i < |tail| ==> tail[i] != '(' && tail[i] != ':'
  {
    if delay.Some? {
      assert forall j :: 0 <= j < |Decimal(delay.value)| ==> IsDigit(Decimal(delay.value)[j]);
    }
  }

  /** The scan stops at the ';' of the delay, or at the end. */
  lemma ScanStopsAtTail(target: char, terms: seq<Term>, delay: Option<nat>)
    requires terms != [] && WellNamed(terms)
    ensures var line := Statement(target, terms, delay); var k := Scan(line, IsSemicolon, 1);
            && k == 2 + |RightHandSide(terms)|
            && (k == |line| <==> delay == None)
            && (delay.Some? ==> Atoi(line[k + 1..]) == delay.value)
  {
    hide RightHandSide, Delay, Atoi, Digits, Decimal;
    var line, rhs, tail := Statement(target, terms, delay), RightHandSide(terms), Delay(delay);
    RightHandSideIsPlain(terms);
    DelayIsTail(delay);
    var k := 2 + |rhs|;
    forall j | 1 <= j < k ensures !IsSemicolon(line[j]) {
      assert j > 1 ==> line[j] == rhs[j - 2] && IsPlain(rhs[j - 2]);
    }
    SemicolonAt(line, 1, k);
    if delay.Some? {
      assert line[k + 1..] == tail[1..];
      AllDigits(Decimal(delay.value));
      DigitsOfDecimal(delay.value);
    }
  }

  lemma {:induction false} SemicolonAt(line: string, i: nat, k: nat)
    requires i <= k <= |line| && (forall j :: i <= j < k ==> !IsSemicolon(line[j]))
            && (k < |line| ==> IsSemicolon(line[k]))
    ensures Scan(line, IsSemicolon, i) == k
  {
  }

  /** Both interpreter loops take the line for an assignment to its target. */
  lemma StatementIsAssignment(target: char, terms: seq<Term>, delay: Option<nat>)
    requires terms != [] && WellNamed(terms)
    ensures DecodeMain(Statement(target, terms, delay)) == Assign(target)
    ensures DecodeFunction(Statement(target, terms, delay)) == Assign(target)
  {
    hide RightHandSide, Delay;
    var line, rhs, tail := Statement(target, terms, delay), RightHandSide(terms), Delay(delay);
    RightHandSideIsPlain(terms);
    DelayIsTail(delay);
    forall j | 2 <= j < |line| ensures line[j] != '(' && line[j] != ':' {
      assert line[j] == if j < 2 + |rhs| then rhs[j - 2] else tail[j - 2 - |rhs|];
      assert j < 2 + |rhs| ==> IsPlain(rhs[j - 2]);
    }
    NotSomethingElse(line);
  }

  lemma NotSomethingElse(line: string)
    requires |line| > 2 && line[1] == '='
    requires forall j :: 2 <= j < |line| ==> line[j] != '(' && line[j] != ':'
    ensures DecodeMain(line) == DecodeFunction(line) == Assign(line[0])
  {
    assert !EndsWith(line, ":") by { assert line[|line| - 1..] == [line[|line| - 1]]; }
    assert !StartsWith(line, "variables") by { assert "variables"[1] == 'a'; }
    assert !StartsWith(line, "imprimir") by { assert "imprimir"[1] == 'm'; }
    assert !StartsWith(line, "ssc") by { assert "ssc"[1] == 's'; }
    assert !StartsWith(line, "snc") by { assert "snc"[1] == 'n'; }
    assert !StartsWith(From(line, 2), "io(") by {
      assert "io("[2] == '(';
      assert |line| > 4 ==> line[2..][2] == line[4];
    }
  }

  lemma {:induction false} WriteThenRead(data: Data, target: char, value: int, name: char)
    ensures Read(Write(data, target, value), name) ==
            if name == target && Declares(data, target) then value else Read(data, name)
  {
    if data != [] {
      WriteThenRead(data[1..], target, value, name);
      if data[0].name == target {
        assert Declares(data, target);
      } else {
        assert Declares(data, target) <==> Declares(data[1..], target) by { DeclaresTail(data, target); }
      }
    }
  }

  lemma DeclaresTail(data: Data, target: char)
    requires data != [] && data[0].name != target
    ensures Declares(data, target) <==> Declares(data[1..], target)
  {
    if Declares(data, target) {
      var k :| 0 <= k < |data| && data[k].name == target;
      assert data[1..][k - 1].name == target;
    }
    if Declares(data[1..], target) {
      var k :| 0 <= k < |data[1..]| && data[1..][k].name == target;
      assert data[k + 1].name == target;
    }
  }

  /**
   * Executing a written assignment stores exactly the signed sum in its declared target, leaves
   * every other variable as it was, does nothing else, and is charged to the burst.
   */
  lemma AssignmentStoresTheSum(accepts: nat -> bool, pc: nat, m: Memory, target: char, terms: seq<Term>,
      delay: Option<nat>, name: char)
    requires terms != [] && WellNamed(terms) && OrdinaryNames(m.data) && Declares(m.data, target)
    ensures var line := Statement(target, terms, delay);
            DecodeFunction(line) == DecodeMain(line)
    ensures var line := Statement(target, terms, delay);
            var e := Execute(accepts, DecodeFunction(line), line, pc, m);
            && Read(e.memory.data, name) == (if name == target then Sum(terms, m.data) else Read(m.data, name))
            && |e.memory.data| == |m.data|
            && e.memory.events == m.events && e.memory.asks == m.asks && e.charged && !e.blocks
  {
    hide Statement, SumFrom, Write, Read, Sum, DecodeMain, DecodeFunction;
    StatementIsAssignment(target, terms, delay);
    SumOfStatement(target, terms, delay, m.data);
    StatementShape(target, terms, delay);
    WriteThenRead(m.data, target, Sum(terms, m.data), name);
  }
}
