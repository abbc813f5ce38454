/**
  The string operations of .NET that the build support relies on, over
  `seq<char>`: `string.IsNullOrEmpty`, `Trim`, `ToLower`, `StartsWith`,
  `Contains`, plus the double-quote wrapping used when commands are built and
  a splitter that reads quoted arguments back out of a command.

  `Trim` and `ToLower` are ASCII approximations of their culture-aware .NET
  counterparts; `StartsWith` and `Contains` compare ordinally.
 */
module Strings {
  import opened Wrappers

  /** `string.IsNullOrEmpty`: a missing (`null`) string or one of length zero. */
  predicate IsNullOrEmpty(s: Option<string>) {
    s.None? || |s.value| == 0
  }

  /** ASCII white space: space, tab, line feed, vertical tab, form feed, carriage return. */
  predicate IsWhiteSpace(c: char) {
    c == ' ' || '\t' <= c <= '\r'
  }

  /** Drops leading white space. */
  function TrimStart(s: string): string {
    if s != [] && IsWhiteSpace(s[0]) then TrimStart(s[1..]) else s
  }

  /** Drops trailing white space. */
  function TrimEnd(s: string): string {
    if s != [] && IsWhiteSpace(s[|s| - 1]) then TrimEnd(s[..|s| - 1]) else s
  }

  /** `TrimStart` drops a prefix made of white space, and what it keeps does not start with white space. */
  lemma {:induction false} TrimStartDropsWhiteSpace(s: string)
    ensures var r := TrimStart(s);
      && |r| <= |s| && r == s[|s| - |r|..]
      && (forall k :: 0 <= k < |s| - |r| ==> IsWhiteSpace(s[k]))
      && (r == [] || !IsWhiteSpace(r[0]))
  {
    if s != [] && IsWhiteSpace(s[0]) {
      TrimStartDropsWhiteSpace(s[1..]);
      var r := TrimStart(s);
      assert forall k :: 1 <= k < |s| - |r| ==> s[k] == s[1..][k - 1];
    }
  }

  /** `TrimEnd` drops a suffix made of white space, and what it keeps does not end with white space. */
  lemma {:induction false} TrimEndDropsWhiteSpace(s: string)
    ensures var r := TrimEnd(s);
      && |r| <= |s| && r == s[..|r|]
      && (forall k :: |r| <= k < |s| ==> IsWhiteSpace(s[k]))
      && (r == [] || !IsWhiteSpace(r[|r| - 1]))
  {
    if s != [] && IsWhiteSpace(s[|s| - 1]) {
      TrimEndDropsWhiteSpace(s[..|s| - 1]);
      var r := TrimEnd(s);
      assert forall k :: |r| <= k < |s| - 1 ==> s[k] == s[..|s| - 1][k];
    }
  }

  /** `r` is the slice of `s` starting at `i`, and only white space lies outside it. */
  ghost predicate TrimmedAt(s: string, r: string, i: int) {
    && 0 <= i && i + |r| <= |s|
    && r == s[i..i + |r|]
    && (forall k :: 0 <= k < i ==> IsWhiteSpace(s[k]))
    && (forall k :: i + |r| <= k < |s| ==> IsWhiteSpace(s[k]))
  }

  /** `string.Trim()`: removes white space from both ends and nothing else. */
  function Trim(s: string): (r: string)
    ensures exists i :: TrimmedAt(s, r, i)
    ensures r == [] || (!IsWhiteSpace(r[0]) && !IsWhiteSpace(r[|r| - 1]))
  {
    TrimBothEnds(s);
    TrimEnd(TrimStart(s))
  }

  /** Trimming the start and then the end leaves the slice after the leading white space. */
  lemma TrimBothEnds(s: string)
    ensures var t := TrimStart(s);
      var r := TrimEnd(t);
      && TrimmedAt(s, r, |s| - |t|)
      && (r == [] || (!IsWhiteSpace(r[0]) && !IsWhiteSpace(r[|r| - 1])))
  {
    var t := TrimStart(s);
    var r := TrimEnd(t);
    TrimStartDropsWhiteSpace(s);
    TrimEndDropsWhiteSpace(t);
    var i := |s| - |t|;
    assert r == s[i..i + |r|];
    assert forall k :: i + |r| <= k < |s| ==> s[k] == t[k - i];
  }

  /** Lower-cases an ASCII capital letter and leaves every other character alone. */
  function LowerChar(c: char): char {
    if 'A' <= c <= 'Z' then (c as int + 32) as char else c
  }

  /** `string.ToLower()`, ASCII letters only. */
  function ToLower(s: string): (r: string)
    ensures |r| == |s|
    ensures forall i :: 0 <= i < |s| ==> r[i] == LowerChar(s[i])
  {
    if s == [] then [] else [LowerChar(s[0])] + ToLower(s[1..])
  }

  /** `string.StartsWith(prefix)`, compared ordinally. */
  predicate StartsWith(s: string, prefix: string) {
    |prefix| <= |s| && s[..|prefix|] == prefix
  }

  /** `needle` occurs in `s` starting at index `k`. */
  predicate OccursAt(s: string, needle: string, k: int) {
    0 <= k && k + |needle| <= |s| && s[k..k + |needle|] == needle
  }

  /** `string.Contains(needle)`, compared ordinally. */
  function Contains(s: string, needle: string): (b: bool)
    ensures b <==> exists k :: OccursAt(s, needle, k)
    decreases |s|
  {
    if StartsWith(s, needle) then
      assert OccursAt(s, needle, 0);
      true
    else if s == [] then
      false
    else
      var b := Contains(s[1..], needle);
      assert forall k {:trigger OccursAt(s, needle, k)} :: 1 <= k ==> (OccursAt(s, needle, k) <==> OccursAt(s[1..], needle, k - 1)) by {
        forall k | 1 <= k {
          OccursAtTail(s, needle, k);
        }
      }
      assert b ==> exists k :: OccursAt(s, needle, k) by {
        if b {
          var k' :| OccursAt(s[1..], needle, k');
          assert OccursAt(s, needle, k' + 1);
        }
      }
      b
  }

  /** An occurrence past index 0 is an occurrence in the tail, one position earlier. */
  lemma OccursAtTail(s: string, needle: string, k: int)
    requires s != [] && 1 <= k
    ensures OccursAt(s, needle, k) <==> OccursAt(s[1..], needle, k - 1)
  {
    if k + |needle| <= |s| {
      var a, b := s[k..k + |needle|], s[1..][k - 1..k - 1 + |needle|];
      assert |a| == |b|;
      assert forall j :: 0 <= j < |a| ==> a[j] == s[k + j] == b[j];
      assert a == b;
    }
  }

  /** Wraps `s` in double quotes, with no escaping of quotes inside `s`. */
  function Quote(s: string): string {
    "\"" + s + "\""
  }

  /** Splits `s` at every occurrence of `d`; the result always has one more piece than there are `d`s. */
  function SplitOn(s: string, d: char): (parts: seq<string>)
    ensures |parts| >= 1
  {
    if s == [] then [[]]
    else
      var rest := SplitOn(s[1..], d);
      if s[0] == d then [[]] + rest else [[s[0]] + rest[0]] + rest[1..]
  }

  /** Splitting at the first separator: the part before it is the first piece. */
  lemma {:induction false} SplitOnFirst(x: string, d: char, y: string)
    requires d !in x
    ensures SplitOn(x + [d] + y, d) == [x] + SplitOn(y, d)
  {
    if x == [] {
      assert x + [d] + y == [d] + y;
      assert ([d] + y)[1..] == y;
    } else {
      var s := x + [d] + y;
      assert s[1..] == x[1..] + [d] + y;
      SplitOnFirst(x[1..], d, y);
      assert [x[0]] + x[1..] == x;
    }
  }

  /** The odd-numbered pieces between double quotes: the quoted arguments of a command line. */
  function QuotedArguments(cmd: string): seq<string> {
    OddPieces(SplitOn(cmd, '"'))
  }

  /** The pieces at odd positions 1, 3, 5, ... */
  function OddPieces(parts: seq<string>): seq<string>
    decreases |parts|
  {
    if |parts| < 2 then [] else [parts[1]] + OddPieces(parts[2..])
  }
}
