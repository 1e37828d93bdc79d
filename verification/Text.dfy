/**
  The string functions the splitter is written with: runs, trimming, and lines.
  A string here is a sequence of code units, as in the original.
 */
module Text {

  /** What ends a line for the regular expressions (`.`, and `^` in multiline mode). */
  predicate IsTerminator(c: char) {
    c == '\n' || c == '\r' || c == '\U{2028}' || c == '\U{2029}'
  }

  /** What `trim` removes. */
  predicate IsWhite(c: char) {
    || IsTerminator(c)
    || c == ' ' || c == '\t' || c == '\U{0B}' || c == '\U{0C}' || c == '\U{A0}' || c == '\U{1680}'
    || '\U{2000}' <= c <= '\U{200A}' || c == '\U{202F}' || c == '\U{205F}' || c == '\U{3000}'
    || c == '\U{FEFF}'
  }

  predicate AllWhite(s: string) {
    forall i :: 0 <= i < |s| ==> IsWhite(s[i])
  }

  predicate OneLine(s: string) {
    forall i :: 0 <= i < |s| ==> !IsTerminator(s[i])
  }

  predicate AllOf(s: string, c: char) {
    forall i :: 0 <= i < |s| ==> s[i] == c
  }

  /** The length of the run of `c` that `s` starts with. */
  function Run(s: string, c: char): (n: nat)
    ensures n <= |s| && AllOf(s[..n], c)
    ensures n < |s| ==> s[n] != c
  {
    if s == "" || s[0] != c then 0 else 1 + Run(s[1..], c)
  }

  function TrimLeft(s: string): (t: string)
    ensures t != "" ==> !IsWhite(t[0])
    ensures |t| <= |s| && t == s[|s| - |t|..] && AllWhite(s[..|s| - |t|])
    ensures OneLine(s) ==> OneLine(t)
  {
    if s != "" && IsWhite(s[0]) then
      var t := TrimLeft(s[1..]);
      assert s[..|s| - |t|] == [s[0]] + s[1..][..|s| - 1 - |t|];
      t
    else s
  }

  function TrimRight(s: string): (t: string)
    ensures t != "" ==> !IsWhite(t[|t| - 1])
    ensures |t| <= |s| && t == s[..|t|] && AllWhite(s[|t|..])
    ensures OneLine(s) ==> OneLine(t)
  {
    if s != "" && IsWhite(s[|s| - 1]) then
      var t := TrimRight(s[..|s| - 1]);
      assert s[|t|..] == s[..|s| - 1][|t|..] + [s[|s| - 1]];
      t
    else s
  }

  predicate Trimmed(s: string) {
    s != "" ==> !IsWhite(s[0]) && !IsWhite(s[|s| - 1])
  }

  function Trim(s: string): (t: string)
    ensures Trimmed(t)
    ensures Trimmed(s) ==> t == s
    ensures OneLine(s) ==> OneLine(t)
  {
    TrimRight(TrimLeft(s))
  }

  /** `s` without the newlines it ends with. */
  function StripNewlines(s: string): (t: string)
    ensures |t| <= |s| && t == s[..|t|] && AllOf(s[|t|..], '\n')
    ensures t != "" ==> t[|t| - 1] != '\n'
  {
    if s != "" && s[|s| - 1] == '\n' then
      var t := StripNewlines(s[..|s| - 1]);
      assert s[|t|..] == s[..|s| - 1][|t|..] + ['\n'];
      t
    else s
  }

  /** Where the last space of `s` is, or -1. */
  function LastSpace(s: string): (k: int)
    ensures -1 <= k < |s|
    ensures k >= 0 ==> s[k] == ' '
    ensures forall i :: k < i < |s| ==> s[i] != ' '
  {
    if s == "" then -1
    else if s[|s| - 1] == ' ' then |s| - 1
    else
      var k := LastSpace(s[..|s| - 1]);
      assert k >= 0 ==> s[k] == s[..|s| - 1][k];
      assert forall i | k < i < |s| - 1 :: s[i] == s[..|s| - 1][i];
      k
  }

  /** Where the first newline of `s` at or after `at` is, or -1. */
  function IndexOfNewline(s: string, at: nat): (k: int)
    requires at <= |s|
    ensures k == -1 ==> forall i :: at <= i < |s| ==> s[i] != '\n'
    ensures k != -1 ==> at <= k < |s| && s[k] == '\n' && forall i :: at <= i < k ==> s[i] != '\n'
    decreases |s| - at
  {
    if at == |s| then -1 else if s[at] == '\n' then at else IndexOfNewline(s, at + 1)
  }

  /** The lines of a text that has one more character in front. */
  function Prepend(c: char, ls: seq<string>): (r: seq<string>)
    requires ls != []
    ensures r != []
  {
    if c == '\n' then [""] + ls else [[c] + ls[0]] + ls[1..]
  }

  /** `split("\n")`: never empty, and the last line may be. */
  function Lines(s: string): (ls: seq<string>)
    ensures ls != []
  {
    if s == "" then [""] else Prepend(s[0], Lines(s[1..]))
  }

  function Max(a: int, b: int): int { if a < b then b else a }

  function Min(a: int, b: int): int { if a < b then a else b }
}
