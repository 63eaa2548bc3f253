/**
 * The character classes and .NET string operations that the client relies on, over
 * `string` = `seq<char>`, and the associativity of concatenation. Comparisons are ordinal.
 */
module Strings {

  /** Concatenation of sequences, strings among them, is associative. */
  lemma AppendAssociates<T>(a: seq<T>, b: seq<T>, c: seq<T>)
    ensures a + (b + c) == (a + b) + c
  {
  }

  /** A space or a tab: the only characters the markdown helpers treat as blank. */
  predicate IsBlank(c: char) {
    c == ' ' || c == '\t'
  }

  /** The line-ending characters removed by `ReplaceLineEndings("")`: CR and LF. */
  predicate IsLineEnding(c: char) {
    c == '\r' || c == '\n'
  }

  /** The white space removed by `Trim` and skipped by `int.TryParse`: TAB, LF, VT, FF, CR and space. */
  predicate IsWhite(c: char) {
    ('\t' <= c <= '\r') || c == ' '
  }

  /** `s.StartsWith(p)`, compared ordinally. */
  predicate StartsWith(s: string, p: string) {
    |p| <= |s| && s[..|p|] == p
  }

  /** `s.TrimStart()`: drops the longest white prefix. */
  function TrimStart(s: string): string {
    if |s| > 0 && IsWhite(s[0]) then TrimStart(s[1..]) else s
  }

  /** `s.TrimEnd()`: drops the longest white suffix. */
  function TrimEnd(s: string): string {
    if |s| > 0 && IsWhite(s[|s| - 1]) then TrimEnd(s[..|s| - 1]) else s
  }

  /** `TrimStart` keeps a suffix, drops only white space, and stops at the first other character. */
  lemma {:induction false} TrimStartDropsWhitePrefix(s: string)
    ensures var r := TrimStart(s);
      && |r| <= |s| && r == s[|s| - |r|..]
      && (forall i :: 0 <= i < |s| - |r| ==> IsWhite(s[i]))
      && (r == [] || !IsWhite(r[0]))
  {
    if |s| > 0 && IsWhite(s[0]) {
      TrimStartDropsWhitePrefix(s[1..]);
      var r := TrimStart(s[1..]);
      assert s[1..][|s| - 1 - |r|..] == s[|s| - |r|..];
      forall i | 0 <= i < |s| - |r|
        ensures IsWhite(s[i])
      {
        if i > 0 {
          assert s[i] == s[1..][i - 1];
        }
      }
    }
  }

  /** `TrimEnd` keeps a prefix, drops only white space, and stops at the last other character. */
  lemma {:induction false} TrimEndDropsWhiteSuffix(s: string)
    ensures var r := TrimEnd(s);
      && |r| <= |s| && r == s[..|r|]
      && (forall i :: |r| <= i < |s| ==> IsWhite(s[i]))
      && (r == [] || !IsWhite(r[|r| - 1]))
  {
    if |s| > 0 && IsWhite(s[|s| - 1]) {
      var front := s[..|s| - 1];
      TrimEndDropsWhiteSuffix(front);
      var r := TrimEnd(front);
      assert front[..|r|] == s[..|r|];
      forall i | |r| <= i < |s|
        ensures IsWhite(s[i])
      {
        if i < |s| - 1 {
          assert s[i] == front[i];
        }
      }
    }
  }

  /** `s.Trim()`: white space dropped at both ends, the middle kept as it is. */
  function Trim(s: string): string {
    TrimEnd(TrimStart(s))
  }

  /** `s.ReplaceLineEndings("")`: removes every line-ending character and keeps the rest in order. */
  function RemoveLineEndings(s: string): string {
    if s == [] then []
    else
      var rest := RemoveLineEndings(s[1..]);
      if IsLineEnding(s[0]) then rest else [s[0]] + rest
  }

  /** `RemoveLineEndings` keeps exactly the characters that are not line endings, and a string without any unchanged. */
  lemma {:induction false} RemoveLineEndingsKeepsTheRest(s: string)
    ensures var r := RemoveLineEndings(s);
      && |r| <= |s|
      && (forall c :: c in r <==> c in s && !IsLineEnding(c))
      && ((forall c :: c in s ==> !IsLineEnding(c)) ==> r == s)
  {
    if s != [] {
      RemoveLineEndingsKeepsTheRest(s[1..]);
      assert forall c :: c in s <==> c == s[0] || c in s[1..];
    }
  }
}
