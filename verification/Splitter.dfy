/**
 * From the text of a script to its lines (PP/src/procer_defs.c, codeSegmentCreator;
 * commons/string.c, string_trim). A `string` is the text before its NUL.
 */
module Splitter {
  import opened CStrings
  import opened Options

  predicate IsNewline(c: char) { c == '\n' }

  predicate IsHash(c: char) { c == '#' }

  predicate IsInk(c: char) { !IsBlank(c) }

  // ----- what is meant

  /** The text split at every newline. */
  function Pieces(text: string): (pieces: seq<string>)
    ensures pieces != []
    decreases |text|
  {
    var k := Scan(text, IsNewline);
    if k == |text| then [text] else [text[..k]] + Pieces(text[k + 1..])
  }

  function CutComment(piece: string): string {
    piece[..Scan(piece, IsHash)]
  }

  function TrimLeft(text: string): string {
    text[Scan(text, IsInk)..]
  }

  function TrimRight(text: string): string {
    if text != "" && IsSpace(text[|text| - 1]) then TrimRight(text[..|text| - 1]) else text
  }

  function Trim(text: string): string {
    TrimRight(TrimLeft(text))
  }

  function Clean(pieces: seq<string>): (lines: seq<string>)
    ensures |lines| == |pieces|
  {
    if pieces == [] then [] else [Trim(CutComment(pieces[0]))] + Clean(pieces[1..])
  }

  /** The lines of a script: split at newlines, cut at the first '#', trimmed. */
  function Lines(script: string): seq<string> {
    Clean(Pieces(script))
  }

  /** The uncommented part of every piece, and the number of pieces with the final null, fit 16 bits. */
  predicate Short(pieces: seq<string>) {
    |pieces| + 1 <= 0xFFFF && forall i :: 0 <= i < |pieces| ==> |CutComment(pieces[i])| <= 0xFFFF
  }

  predicate Splittable(script: string) {
    var pieces := Pieces(script);
    '#' !in pieces[|pieces| - 1] && Short(pieces)
  }

  // ----- the code

  /** Text without exactly its leading blanks, and text without exactly its trailing white space. */
  ghost predicate WithoutLeadingBlanks(text: string, r: string) {
    exists k :: 0 <= k <= |text| && r == text[k..] && (forall j :: 0 <= j < k ==> IsBlank(text[j]))
                && (k < |text| ==> !IsBlank(text[k]))
  }

  ghost predicate WithoutTrailingSpace(text: string, r: string) {
    exists k :: 0 <= k <= |text| && r == text[..k] && (forall j :: k <= j < |text| ==> IsSpace(text[j]))
                && (k > 0 ==> !IsSpace(text[k - 1]))
  }

  method StringTrimLeft(text: string) returns (r: string)
    requires NUL !in text
    ensures r == TrimLeft(text)
    ensures WithoutLeadingBlanks(text, r)
  {
    var i := 0;
    while IsBlank(At(text, i))
      invariant i <= |text| && forall j :: 0 <= j < i ==> IsBlank(text[j])
      decreases |text| - i
    {
      i := i + 1;
    }
    r := text[i..];
  }

  method StringTrimRight(text: string) returns (r: string)
    ensures r == TrimRight(text)
    ensures WithoutTrailingSpace(text, r)
  {
    var i := |text| - 1;
    r := text;
    while i >= 0 && IsSpace(text[i])
      invariant -1 <= i < |text| && r == text[..i + 1] && TrimRight(r) == TrimRight(text)
      invariant forall j :: i < j < |text| ==> IsSpace(text[j])
    {
      r := r[..i];
      i := i - 1;
    }
  }

  method StrlenCS(line: string) returns (n: nat)
    requires NUL !in line
    ensures n == Scan(line, IsNewline)
  {
    n := 0;
    while At(line, n) != NUL && At(line, n) != '\n'
      invariant n <= |line| && forall j :: 0 <= j < n ==> !IsNewline(line[j])
      decreases |line| - n
    {
      n := n + 1;
    }
  }

  // the inner loop of codeSegmentCreator; `None` when its 16-bit counter wraps and it never ends
  method UncommentedLength(code: string) returns (r: Option<nat>)
    requires NUL !in code
    ensures var k := Scan(CutNewline(code), IsHash); k <= |code| && r == if k <= 0xFFFF then Some(k) else None
  {
    var lineLength := 0;
    while At(code, lineLength) != '\n' && At(code, lineLength) != NUL && At(code, lineLength) != '#'
      invariant lineLength <= |code| && lineLength <= 0xFFFF
      invariant forall j :: 0 <= j < lineLength ==> !IsNewline(code[j]) && !IsHash(code[j])
      decreases |code| - lineLength
    {
      if lineLength == 0xFFFF {
        return None;
      }
      lineLength := lineLength + 1;
    }
    r := Some(lineLength);
  }

  function CutNewline(code: string): string {
    code[..Scan(code, IsNewline)]
  }

  lemma FirstPiece(code: string)
    ensures var k := Scan(code, IsNewline);
            Pieces(code) == if k == |code| then [CutNewline(code)] else [CutNewline(code)] + Pieces(code[k + 1..])
  {
    if Scan(code, IsNewline) == |code| {
      assert CutNewline(code) == code;
    }
  }

  /** What the character that ended the inner loop tells. */
  lemma EndOfCut(code: string)
    requires NUL !in code
    ensures var cut := Scan(CutNewline(code), IsHash);
            && CutComment(CutNewline(code)) == code[..cut]
            && (At(code, cut) == NUL <==> Scan(code, IsNewline) == |code| && '#' !in CutNewline(code))
  {
    var k := Scan(code, IsNewline);
    var first := code[..k];
    var cut := Scan(first, IsHash);
    assert code[..cut] == first[..cut];
    if cut < k {
      assert first[cut] == '#' && code[cut] == '#';
    } else if k < |code| {
      assert code[k] == '\n';
    }
  }

  lemma {:induction false} CleanSnoc(done: seq<string>, piece: string)
    ensures Clean(done + [piece]) == Clean(done) + [Trim(CutComment(piece))]
  {
    hide Trim, CutComment;
    if done != [] {
      assert (done + [piece])[1..] == done[1..] + [piece];
      CleanSnoc(done[1..], piece);
    }
  }

  /** The pieces before `code` have been turned into `lines`. */
  ghost predicate Progress(script: string, code: string, done: seq<string>, lines: seq<string>) {
    && Pieces(script) == done + Pieces(code)
    && lines == Clean(done) && |done| < 0xFFFF
    && forall i :: 0 <= i < |done| ==> |CutComment(done[i])| <= 0xFFFF
  }

  lemma ProgressStarts(script: string)
    ensures Progress(script, script, [], [])
  {
  }

  lemma TooLong(script: string, code: string, done: seq<string>, lines: seq<string>)
    requires Progress(script, code, done, lines)
    requires |CutComment(CutNewline(code))| > 0xFFFF || |done| + 1 == 0xFFFF
    ensures !Splittable(script)
  {
    FirstPiece(code);
    hide CutComment, CutNewline, Scan, Pieces;
    assert Pieces(script)[|done|] == CutNewline(code);
  }

  lemma LastLine(script: string, code: string, done: seq<string>, lines: seq<string>)
    requires Progress(script, code, done, lines) && Scan(code, IsNewline) == |code|
    requires |CutComment(CutNewline(code))| <= 0xFFFF && |done| + 1 < 0xFFFF
    ensures Splittable(script) <==> '#' !in CutNewline(code)
    ensures Lines(script) == lines + [Trim(CutComment(CutNewline(code)))]
  {
    FirstPiece(code);
    var first := CutNewline(code);
    CleanSnoc(done, first);
    hide CutComment, CutNewline, Scan, Pieces, Clean, Trim;
    var all := Pieces(script);
    assert all == done + [first] && all[|all| - 1] == first;
  }

  lemma AnotherLine(script: string, code: string, done: seq<string>, lines: seq<string>)
    requires Progress(script, code, done, lines) && Scan(code, IsNewline) < |code|
    requires |CutComment(CutNewline(code))| <= 0xFFFF && |done| + 1 < 0xFFFF
    ensures var first := CutNewline(code);
            Progress(script, code[Scan(code, IsNewline) + 1..], done + [first], lines + [Trim(CutComment(first))])
  {
    FirstPiece(code);
    var first := CutNewline(code);
    CleanSnoc(done, first);
    hide CutComment, CutNewline, Scan, Pieces, Clean, Trim;
    assert Pieces(script) == done + [first] + Pieces(code[Scan(code, IsNewline) + 1..]);
  }

  lemma LinesSoFar(script: string, code: string, done: seq<string>, lines: seq<string>)
    requires Progress(script, code, done, lines)
    ensures |lines| == |done| < 0xFFFF
  {
  }

  /**
   * codeSegmentCreator. `None` stands for running past the terminator, a 16-bit counter that
   * wraps, or a line table whose size wraps.
   */
  method CodeSegmentCreator(script: string) returns (codeSegment: Option<seq<string>>)
    requires NUL !in script
    ensures codeSegment == if Splittable(script) then Some(Lines(script)) else None
  {
    hide *;
    var linesCount := 0;
    var code := script;
    var lines: seq<string> := [];
    ghost var done: seq<string> := [];
    ProgressStarts(script);
    while true
      invariant NUL !in code && Progress(script, code, done, lines) && linesCount == |done|
      decreases |code|
    {
      LinesSoFar(script, code, done, lines);
      linesCount := linesCount + 1;
      var line, last := NextLine(code);
      if line == None || linesCount == 0xFFFF {
        TooLong(script, code, done, lines);
        return None;
      }
      var length := StrlenCS(code);
      if length == |code| {
        LastLine(script, code, done, lines);
      }
      if last {
        return Some(lines + [line.value]);
      }
      if length == |code| {
        return None;
      }
      AnotherLine(script, code, done, lines);
      lines := lines + [line.value];
      done := done + [CutNewline(code)];
      code := code[length + 1..];
    }
  }

  // one line, and whether the terminator ended it
  method NextLine(code: string) returns (line: Option<string>, last: bool)
    requires NUL !in code
    ensures var first := CutNewline(code);
            line == if |CutComment(first)| <= 0xFFFF then Some(Trim(CutComment(first))) else None
    ensures line != None ==> (last <==> Scan(code, IsNewline) == |code| && '#' !in CutNewline(code))
  {
    hide TrimRight, TrimLeft, CutNewline, Scan;
    last := false;
    EndOfCut(code);
    var lineLength := UncommentedLength(code);
    if lineLength == None {
      return None, false;
    }
    var trimmed := StringTrimLeft(code[..lineLength.value]);
    trimmed := StringTrimRight(trimmed);
    line := Some(trimmed);
    last := At(code, lineLength.value) == NUL;
  }

  // ----- what the lines are good for

  predicate Tidy(line: string) {
    && '\n' !in line && '#' !in line
    && (line != "" ==> !IsBlank(line[0]) && !IsSpace(line[|line| - 1]))
  }

  function Join(lines: seq<string>): string
    requires lines != []
  {
    if |lines| == 1 then lines[0] else lines[0] + ['\n'] + Join(lines[1..])
  }

  lemma {:induction false} TrimRightEnds(text: string)
    ensures TrimRight(text) <= text
    ensures TrimRight(text) != "" ==> !IsSpace(TrimRight(text)[|TrimRight(text)| - 1])
  {
    if text != "" && IsSpace(text[|text| - 1]) {
      TrimRightEnds(text[..|text| - 1]);
    }
  }

  lemma {:induction false} PiecesHaveNoNewline(text: string, i: nat)
    requires i < |Pieces(text)|
    ensures '\n' !in Pieces(text)[i]
    decreases |text|
  {
    FirstPiece(text);
    var k := Scan(text, IsNewline);
    if i > 0 {
      PiecesHaveNoNewline(text[k + 1..], i - 1);
    } else {
      forall j | 0 <= j < k ensures text[j] != '\n' { assert !IsNewline(text[j]); }
    }
  }

  lemma {:induction false} CleanAt(pieces: seq<string>, i: nat)
    requires i < |pieces|
    ensures Clean(pieces)[i] == Trim(CutComment(pieces[i]))
  {
    if i > 0 {
      CleanAt(pieces[1..], i - 1);
    }
  }

  /** Every line handed to the interpreter is tidy. */
  lemma LinesAreTidy(script: string, i: nat)
    requires i < |Lines(script)|
    ensures Tidy(Lines(script)[i])
  {
    hide *;
    var pieces := Pieces(script);
    LinesArePieces(script);
    CleanAt(pieces, i);
    PiecesHaveNoNewline(script, i);
    TrimmedIsTidy(pieces[i]);
  }

  lemma TrimmedIsTidy(piece: string)
    requires '\n' !in piece
    ensures Tidy(Trim(CutComment(piece)))
  {
    var cut := CutComment(piece);
    forall j | 0 <= j < |cut| ensures cut[j] != '#' { assert !IsHash(piece[j]); }
    hide CutComment;
    var left := TrimLeft(cut);
    assert left == cut[Scan(cut, IsInk)..];
    TrimRightEnds(left);
    assert left != "" ==> IsInk(left[0]);
    var line := TrimRight(left);
    forall j | 0 <= j < |line| ensures line[j] != '\n' && line[j] != '#' {
      assert line[j] == left[j] && left[j] in cut;
    }
  }

  lemma TidyIsKept(line: string)
    requires Tidy(line)
    ensures Trim(CutComment(line)) == line
  {
    assert Scan(line, IsHash) == |line|;
    assert Scan(line, IsInk) == 0;
  }

  /** Splitting undoes joining tidy lines with newlines. */
  lemma {:induction false} SplitUndoesJoin(lines: seq<string>)
    requires lines != [] && forall i :: 0 <= i < |lines| ==> Tidy(lines[i])
    ensures Lines(Join(lines)) == lines
  {
    var text := Join(lines);
    var line := lines[0];
    TidyIsKept(line);
    FirstPiece(text);
    if |lines| == 1 {
      assert Scan(text, IsNewline) == |text|;
      assert CutNewline(text) == text;
    } else {
      assert text[|line|] == '\n' && text[..|line|] == line && text[|line| + 1..] == Join(lines[1..]);
      forall j | 0 <= j < |line| ensures !IsNewline(text[j]) { assert text[j] == line[j]; }
      assert Scan(text, IsNewline) == |line|;
      SplitUndoesJoin(lines[1..]);
    }
  }

  // ----- what trimming and cutting keep

  predicate Blanks(s: string) {
    forall i :: 0 <= i < |s| ==> IsBlank(s[i])
  }

  predicate Spaces(s: string) {
    forall i :: 0 <= i < |s| ==> IsSpace(s[i]) && s[i] != '\n'
  }

  /** A line as somebody writes it: indented, with white space behind and perhaps a comment. */
  datatype Written = Written(before: string, line: string, after: string, comment: string)

  predicate WrittenOk(w: Written) {
    && Blanks(w.before) && Tidy(w.line) && Spaces(w.after)
    && (w.comment != "" ==> w.comment[0] == '#' && '\n' !in w.comment)
  }

  function TextOf(w: Written): string {
    w.before + w.line + w.after + w.comment
  }

  function Texts(ws: seq<Written>): seq<string> {
    if ws == [] then [] else [TextOf(ws[0])] + Texts(ws[1..])
  }

  function TidyLines(ws: seq<Written>): seq<string> {
    if ws == [] then [] else [ws[0].line] + TidyLines(ws[1..])
  }

  lemma {:induction false} TrimRightDrops(text: string, after: string)
    requires Spaces(after) && (text != "" ==> !IsSpace(text[|text| - 1]))
    ensures TrimRight(text + after) == text
    decreases |after|
  {
    if after == "" {
      assert text + after == text;
    } else {
      assert (text + after)[..|text + after| - 1] == text + after[..|after| - 1];
      TrimRightDrops(text, after[..|after| - 1]);
    }
  }

  lemma {:induction false} OnlySpaces(text: string)
    requires forall i :: 0 <= i < |text| ==> IsSpace(text[i])
    ensures TrimRight(text) == ""
  {
    if text != "" {
      OnlySpaces(text[..|text| - 1]);
    }
  }

  /** Trimming takes off what was written around a tidy line, and nothing of the line. */
  lemma TrimUndoesPadding(before: string, line: string, after: string)
    requires Blanks(before) && Tidy(line) && Spaces(after)
    ensures Trim(before + line + after) == line
  {
    var text := before + line + after;
    if line == "" {
      OnlySpaces(TrimLeft(text));
    } else {
      assert text[|before|] == line[0];
      assert forall j :: 0 <= j < |before| ==> text[j] == before[j];
      ScanIs(text, IsInk, |before|);
      assert TrimLeft(text) == line + after;
      TrimRightDrops(line, after);
    }
  }

  lemma ScanIs(text: string, stop: char -> bool, k: nat)
    requires k <= |text| && (forall j :: 0 <= j < k ==> !stop(text[j])) && (k < |text| ==> stop(text[k]))
    ensures Scan(text, stop) == k
  {
  }

  lemma PaddingIsClean(w: Written)
    requires WrittenOk(w)
    ensures CutComment(TextOf(w)) == w.before + w.line + w.after && '\n' !in TextOf(w)
  {
    var kept, text := w.before + w.line + w.after, TextOf(w);
    forall j | 0 <= j < |kept| ensures kept[j] != '#' && kept[j] != '\n' {
      if j < |w.before| {
        assert kept[j] == w.before[j];
      } else if j < |w.before| + |w.line| {
        assert kept[j] == w.line[j - |w.before|];
      } else {
        assert kept[j] == w.after[j - |w.before| - |w.line|];
      }
    }
    assert text == kept + w.comment;
    assert forall j :: 0 <= j < |kept| ==> text[j] == kept[j];
    ScanIs(text, IsHash, |kept|);
    assert text[..|kept|] == kept;
  }

  lemma {:induction false} PiecesOfJoin(texts: seq<string>)
    requires texts != [] && forall i :: 0 <= i < |texts| ==> '\n' !in texts[i]
    ensures Pieces(Join(texts)) == texts
  {
    var text, first := Join(texts), texts[0];
    if |texts| == 1 {
      ScanIs(text, IsNewline, |text|);
    } else {
      assert text[|first|] == '\n' && text[..|first|] == first && text[|first| + 1..] == Join(texts[1..]);
      assert forall j :: 0 <= j < |first| ==> text[j] == first[j];
      ScanIs(text, IsNewline, |first|);
      PiecesOfJoin(texts[1..]);
    }
  }

  lemma {:induction false} CleanOfTexts(ws: seq<Written>)
    requires forall i :: 0 <= i < |ws| ==> WrittenOk(ws[i])
    ensures Clean(Texts(ws)) == TidyLines(ws) && |Texts(ws)| == |ws|
    ensures forall i :: 0 <= i < |ws| ==> Texts(ws)[i] == TextOf(ws[i]) && '\n' !in Texts(ws)[i]
  {
    hide CutComment, TextOf, Trim, Tidy, WrittenOk;
    if ws != [] {
      OneText(ws[0]);
      CleanOfTexts(ws[1..]);
      assert Texts(ws)[1..] == Texts(ws[1..]);
    }
  }

  lemma OneText(w: Written)
    requires WrittenOk(w)
    ensures Trim(CutComment(TextOf(w))) == w.line && '\n' !in TextOf(w)
  {
    PaddingIsClean(w);
    TrimUndoesPadding(w.before, w.line, w.after);
  }

  /** However they are indented and commented, lines come back as they are, none lost and none changed. */
  lemma SplitUndoesWriting(ws: seq<Written>)
    requires ws != [] && forall i :: 0 <= i < |ws| ==> WrittenOk(ws[i])
    ensures Lines(Join(Texts(ws))) == TidyLines(ws)
    ensures |TidyLines(ws)| == |ws| && forall i :: 0 <= i < |ws| ==> TidyLines(ws)[i] == ws[i].line
  {
    hide *;
    CleanOfTexts(ws);
    SomeText(ws);
    PiecesOfJoin(Texts(ws));
    LinesArePieces(Join(Texts(ws)));
    TidyLinesAt(ws);
  }

  lemma SomeText(ws: seq<Written>)
    ensures ws != [] ==> Texts(ws) != []
  {
  }

  lemma LinesArePieces(text: string)
    ensures Lines(text) == Clean(Pieces(text))
  {
  }

  lemma {:induction false} TidyLinesAt(ws: seq<Written>)
    ensures |TidyLines(ws)| == |ws| && forall i :: 0 <= i < |ws| ==> TidyLines(ws)[i] == ws[i].line
  {
    if ws != [] {
      TidyLinesAt(ws[1..]);
    }
  }
}
