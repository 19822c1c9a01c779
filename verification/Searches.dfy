/** The linear searches the interpreter and the long-term scheduler are built on. */
module Searches {
  import opened CStrings
  import opened Lists
  import opened Options
  import opened Scheduler
  import opened Script

  /** findFunctionLine; `None` when the search runs off the code, which the program does not survive. */
  method FindFunctionLine(code: seq<string>, fname: string) returns (offset: Option<nat>)
    ensures var k := FunctionLine(code, fname); offset == if k < |code| then Some(k) else None
  {
    var line := FUNCTION_BEGIN + fname;
    var i := 0;
    while i < |code| && code[i] != line
      invariant i <= |code| && FindLine(code, line) == FindLine(code, line, i)
    {
      i := i + 1;
    }
    offset := if i < |code| then Some(i) else None;
  }

  /** changePC: the line of the tag that ends at the ';' or at the end of the text. */
  method ChangePC(code: seq<string>, tagName: string) returns (pc: Option<nat>)
    requires NUL !in tagName
    ensures var k := TagLine(code, TagOf(tagName)); pc == if k < |code| then Some(k) else None
  {
    var i := 0;
    while At(tagName, i) != ';' && At(tagName, i) != NUL
      invariant i <= |tagName| && Scan(tagName, c => c == ';') == Scan(tagName, c => c == ';', i)
      decreases |tagName| - i
    {
      i := i + 1;
    }
    var tag := tagName[..i] + ":";
    TagIs(tagName, i);
    i := 0;
    while i < |code| && tag != code[i]
      invariant i <= |code| && FindLine(code, tag) == FindLine(code, tag, i)
    {
      i := i + 1;
    }
    pc := if i < |code| then Some(i) else None;
  }

  lemma TagIs(text: string, i: nat)
    requires i <= |text| && (i < |text| ==> text[i] == ';') && forall j :: 0 <= j < i ==> text[j] != ';'
    ensures TagOf(text) == text[..i]
  {
  }

  // the loop shared by restoreSuspended and list_fd_msg_get; both read an element before they know
  // there is one, so the list must not be empty
  method FindByFd<T>(list: List<T>, clientfd: nat, fd: T -> nat) returns (i: nat, element: T)
    requires list.Valid() && list.contents != []
    ensures i <= |list.contents| && forall j :: 0 <= j < i ==> fd(list.contents[j]) != clientfd
    ensures i < |list.contents| ==> element == list.contents[i] && fd(element) == clientfd
    ensures i == |list.contents| ==> fd(element) != clientfd
  {
    var listSize := list.Size();
    var got := list.Get(0);
    i := 0;
    while i < listSize
      invariant 0 <= i <= listSize && got.Some?
      invariant forall j :: 0 <= j < i ==> fd(list.contents[j]) != clientfd
      invariant i > 0 ==> got.value == list.contents[i - 1]
    {
      got := list.Get(i);
      if fd(got.value) == clientfd {
        break;
      }
      i := i + 1;
    }
    element := got.value;
  }

  /** restoreSuspended: the first suspended process of the client leaves LPS. */
  method RestoreSuspended(lps: List<Proc>, clientfd: nat) returns (r: Option<Proc>)
    requires lps.Valid() && lps.contents != []
    modifies lps, lps.repr
    ensures lps.Valid()
    ensures var before := old(lps.contents); var i := FindProc(before, clientfd);
            if i < |before| then r == Some(before[i]) && lps.contents == Without(before, i)
            else r == None && lps.contents == before
  {
    hide List.Valid;
    var i, processImage := FindByFd(lps, clientfd, (p: Proc) => p.fd);
    if processImage.fd == clientfd {
      r := lps.Remove(i);
    } else {
      r := None;
    }
  }

  /** list_fd_msg_get: the oldest message for the client leaves the list. */
  method ListFdMsgGet(list: List<Msg>, clientfd: nat) returns (r: Option<Msg>)
    requires list.Valid() && list.contents != []
    modifies list, list.repr
    ensures list.Valid()
    ensures var before := old(list.contents); var i := FindMsg(before, clientfd);
            if i < |before| then r == Some(before[i]) && list.contents == Without(before, i)
            else r == None && list.contents == before
  {
    hide List.Valid;
    var i, msg := FindByFd(list, clientfd, (m: Msg) => m.fd);
    if msg.fd == clientfd {
      r := list.Remove(i);
    } else {
      r := None;
    }
  }
}
