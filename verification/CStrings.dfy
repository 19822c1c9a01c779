/** The C string operations the interpreter relies on.
    A `string` here is the text before the terminating NUL. */
module CStrings {

  const NUL: char := '\0'

  /** The character a C program sees at index `i`: the terminator (and, in this model, whatever
      lies behind it) reads as NUL. */
  function At(s: string, i: nat): char {
    if i < |s| then s[i] else NUL
  }

  // string_starts_with: strncmp over the length of the prefix
  predicate StartsWith(text: string, begin: string) {
    begin <= text
  }

  // string_ends_with
  predicate EndsWith(text: string, end: string) {
    |end| <= |text| && text[|text| - |end|..] == end
  }

  /** The text from `i` on; empty when `i` is beyond the end. */
  function From(s: string, i: nat): string {
    if i <= |s| then s[i..] else ""
  }

  /** The first index at or after `i` that satisfies `stop`, or the length. */
  function Scan(s: string, stop: char -> bool, i: nat := 0): (k: nat)
    requires i <= |s|
    ensures i <= k <= |s|
    ensures forall j :: i <= j < k ==> !stop(s[j])
    ensures k < |s| ==> stop(s[k])
    decreases |s| - i
  {
    if i == |s| || stop(s[i]) then i else Scan(s, stop, i + 1)
  }

  predicate IsDigit(c: char) { '0' <= c <= '9' }

  predicate IsSpace(c: char) {
    c == ' ' || c == '\t' || c == '\n' || c == '\r' || c == '\U{000B}' || c == '\U{000C}'
  }

  predicate IsBlank(c: char) { c == ' ' || c == '\t' }

  function DigitValue(c: char): (v: nat)
    requires IsDigit(c)
    ensures v <= 9
  {
    c as int - '0' as int
  }

  /** The value of a run of decimal digits, least significant digit last. */
  function Digits(s: string): nat
    requires forall c :: c in s ==> IsDigit(c)
  {
    if s == "" then 0 else 10 * Digits(s[..|s| - 1]) + DigitValue(s[|s| - 1])
  }

  /** The longest prefix made of digits. */
  function DigitPrefix(s: string): (p: string)
    ensures p <= s
    ensures forall c :: c in p ==> IsDigit(c)
    ensures |p| < |s| ==> !IsDigit(s[|p|])
  {
    s[..Scan(s, c => !IsDigit(c))]
  }

  /** atoi: blanks, an optional sign, then digits. */
  function Atoi(s: string): int {
    if s == "" then 0
    else if IsSpace(s[0]) then Atoi(s[1..])
    else if s[0] == '-' then -(Digits(DigitPrefix(s[1..])) as int)
    else if s[0] == '+' then Digits(DigitPrefix(s[1..]))
    else Digits(DigitPrefix(s))
  }
}
