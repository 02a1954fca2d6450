/**
 * String helpers with Python's meaning: `str.split(sep, n)`, `sep.join`,
 * slicing off the last character, ASCII `str.lower` and the decimal text of
 * an integer.
 */
module Text {

  predicate IsDigit(c: char) { '0' <= c <= '9' }

  predicate IsAsciiLetter(c: char) { 'a' <= c <= 'z' || 'A' <= c <= 'Z' }

  /** The regular-expression class `\w`, read over ASCII. */
  predicate IsWordChar(c: char) { IsAsciiLetter(c) || IsDigit(c) || c == '_' }

  /** Python's `s[:-1]`: every character but the last; empty stays empty. */
  function DropLast(s: string): (r: string)
    ensures |s| > 0 ==> r + [s[|s| - 1]] == s
    ensures |s| == 0 ==> r == ""
  {
    if |s| == 0 then "" else s[..|s| - 1]
  }

  lemma DropLastAppend(s: string, c: char)
    ensures DropLast(s + [c]) == s
  {
    assert (s + [c])[..|s|] == s;
  }

  /** The position of the first occurrence of `x` in `s`. */
  function IndexOf<T(==)>(s: seq<T>, x: T): (i: nat)
    requires x in s
    ensures i < |s| && s[i] == x && x !in s[..i]
  {
    if s[0] == x then 0
    else
      var j := IndexOf(s[1..], x);
      assert s[1..][..j] == s[1..j + 1];
      assert s[..j + 1] == [s[0]] + s[1..j + 1];
      1 + j
  }

  /** The first occurrence is the only `i` with that property. */
  lemma IndexOfUnique<T>(s: seq<T>, x: T, i: nat)
    requires i < |s| && s[i] == x && x !in s[..i]
    ensures IndexOf(s, x) == i
  {
  }

  /** `sep.join(parts)`. */
  function Join(parts: seq<string>, sep: char): string
  {
    if |parts| == 0 then ""
    else if |parts| == 1 then parts[0]
    else parts[0] + [sep] + Join(parts[1..], sep)
  }

  /**
   * Python's `s.split(sep, n)` for a one-character separator: cut at the first
   * `n` occurrences of `sep`, keeping empty pieces; the last piece holds the rest.
   */
  function SplitAtMost(s: string, sep: char, n: nat): (parts: seq<string>)
    ensures 1 <= |parts| <= n + 1
    decreases n
  {
    if n == 0 || sep !in s then [s]
    else
      var i := IndexOf(s, sep);
      [s[..i]] + SplitAtMost(s[i + 1..], sep, n - 1)
  }

  /** Python's `s.split(sep)` with no limit: there are at most `|s|` separators. */
  function Split(s: string, sep: char): seq<string>
  {
    SplitAtMost(s, sep, |s|)
  }

  /** Cutting at a separator that starts after a separator-free prefix. */
  lemma SplitAtMostCons(a: string, sep: char, b: string, n: nat)
    requires sep !in a && n >= 1
    ensures SplitAtMost(a + [sep] + b, sep, n) == [a] + SplitAtMost(b, sep, n - 1)
  {
    var s := a + [sep] + b;
    assert s[|a|] == sep;
    assert s[..|a|] == a;
    IndexOfUnique(s, sep, |a|);
    assert s[|a| + 1..] == b;
  }

  /** A text holding the separator is a separator-free piece, the separator, and the rest. */
  lemma SplitPoint(s: string, sep: char) returns (a: string, b: string)
    requires sep in s
    ensures sep !in a && s == a + [sep] + b
  {
    var i := IndexOf(s, sep);
    a, b := s[..i], s[i + 1..];
    assert s == s[..i] + [s[i]] + s[i + 1..];
  }

  lemma JoinCons(a: string, rest: seq<string>, sep: char, b: string)
    requires |rest| >= 1 && Join(rest, sep) == b
    ensures Join([a] + rest, sep) == a + [sep] + b
  {
    assert ([a] + rest)[1..] == rest;
  }

  /** Splitting loses nothing: joining the pieces gives the text back. */
  lemma {:induction false} JoinSplitAtMost(s: string, sep: char, n: nat)
    ensures Join(SplitAtMost(s, sep, n), sep) == s
    decreases n
  {
    if n == 0 || sep !in s {
      assert SplitAtMost(s, sep, n) == [s];
    } else {
      var a, b := SplitPoint(s, sep);
      JoinSplitAtMost(b, sep, n - 1);
      JoinSplitStep(a, sep, b, n);
    }
  }

  lemma JoinSplitStep(a: string, sep: char, b: string, n: nat)
    requires sep !in a && n >= 1
    requires Join(SplitAtMost(b, sep, n - 1), sep) == b
    ensures Join(SplitAtMost(a + [sep] + b, sep, n), sep) == a + [sep] + b
  {
    SplitAtMostCons(a, sep, b, n);
    JoinCons(a, SplitAtMost(b, sep, n - 1), sep, b);
  }

  /** Every piece but the last is free of the separator, and so is the last when the limit was not reached. */
  predicate PiecesFree(parts: seq<string>, sep: char, n: nat)
  {
    && (forall k :: 0 <= k < |parts| - 1 ==> sep !in parts[k])
    && (1 <= |parts| <= n ==> sep !in parts[|parts| - 1])
  }

  lemma {:induction false} SplitAtMostPieces(s: string, sep: char, n: nat)
    ensures PiecesFree(SplitAtMost(s, sep, n), sep, n)
    decreases n
  {
    if n == 0 || sep !in s {
      assert SplitAtMost(s, sep, n) == [s];
    } else {
      var a, b := SplitPoint(s, sep);
      SplitAtMostPieces(b, sep, n - 1);
      PiecesStep(a, sep, b, n);
    }
  }

  lemma PiecesStep(a: string, sep: char, b: string, n: nat)
    requires sep !in a && n >= 1
    requires PiecesFree(SplitAtMost(b, sep, n - 1), sep, n - 1)
    ensures PiecesFree(SplitAtMost(a + [sep] + b, sep, n), sep, n)
  {
    SplitAtMostCons(a, sep, b, n);
    PiecesCons(a, SplitAtMost(b, sep, n - 1), sep, n);
  }

  lemma PiecesCons(a: string, rest: seq<string>, sep: char, n: nat)
    requires sep !in a && n >= 1 && |rest| >= 1
    requires PiecesFree(rest, sep, n - 1)
    ensures PiecesFree([a] + rest, sep, n)
  {
    var parts := [a] + rest;
    assert forall k :: 1 <= k < |parts| ==> parts[k] == rest[k - 1];
  }

  /** Joining separator-free pieces and splitting again recovers the pieces. */
  lemma {:induction false} SplitAtMostJoin(parts: seq<string>, sep: char, n: nat)
    requires |parts| >= 1 && n + 1 >= |parts|
    requires forall k :: 0 <= k < |parts| ==> sep !in parts[k]
    ensures SplitAtMost(Join(parts, sep), sep, n) == parts
    decreases |parts|
  {
    if |parts| == 1 {
      assert Join(parts, sep) == parts[0];
      assert sep !in parts[0];
    } else {
      var head, rest := parts[0], parts[1..];
      assert sep !in head;
      assert forall k :: 0 <= k < |rest| ==> rest[k] == parts[k + 1];
      SplitAtMostJoin(rest, sep, n - 1);
      JoinSplitCons(head, rest, sep, n);
      assert parts == [head] + rest;
    }
  }

  lemma JoinSplitCons(head: string, rest: seq<string>, sep: char, n: nat)
    requires sep !in head && n >= 1 && |rest| >= 1
    requires SplitAtMost(Join(rest, sep), sep, n - 1) == rest
    ensures SplitAtMost(Join([head] + rest, sep), sep, n) == [head] + rest
  {
    var tail := Join(rest, sep);
    JoinCons(head, rest, sep, tail);
    SplitAtMostCons(head, sep, tail, n);
  }

  lemma {:induction false} JoinLength(parts: seq<string>, sep: char)
    requires |parts| >= 1
    ensures |Join(parts, sep)| >= |parts| - 1
    decreases |parts|
  {
    if |parts| > 1 {
      JoinLength(parts[1..], sep);
    }
  }

  /** Python's unlimited `split` undoes `join` on separator-free pieces. */
  lemma SplitJoin(parts: seq<string>, sep: char)
    requires |parts| >= 1
    requires forall k :: 0 <= k < |parts| ==> sep !in parts[k]
    ensures Split(Join(parts, sep), sep) == parts
  {
    JoinLength(parts, sep);
    SplitAtMostJoin(parts, sep, |Join(parts, sep)|);
  }

  /** `str.lower()` on one character, ASCII letters only. */
  function LowerChar(c: char): char
  {
    if 'A' <= c <= 'Z' then (c as int + 32) as char else c
  }

  /** `str.lower()` over ASCII: every character is lowered in place. */
  function Lower(s: string): (r: string)
    ensures |r| == |s|
    ensures forall i :: 0 <= i < |s| ==> r[i] == LowerChar(s[i])
  {
    if s == [] then [] else [LowerChar(s[0])] + Lower(s[1..])
  }

  /** The value of one decimal digit character. */
  function DigitValue(c: char): nat
  {
    if IsDigit(c) then (c as int) - ('0' as int) else 0
  }

  function DigitChar(d: nat): (c: char)
    requires d < 10
    ensures IsDigit(c) && DigitValue(c) == d
  {
    (('0' as int) + d) as char
  }

  /** The number a string of decimal digits denotes, most significant digit first. */
  function DecimalValue(s: string): nat
  {
    if s == [] then 0 else 10 * DecimalValue(s[..|s| - 1]) + DigitValue(s[|s| - 1])
  }

  /** The decimal text of a natural number: digits only, denoting `n`, with no leading zero (`0` is the single digit). */
  function NatToDecimal(n: nat): (r: string)
    ensures |r| >= 1
    ensures forall i :: 0 <= i < |r| ==> IsDigit(r[i])
    ensures DecimalValue(r) == n
    ensures n > 0 ==> r[0] != '0'
    ensures |r| == 1 || r[0] != '0'
  {
    if n < 10 then [DigitChar(n)]
    else
      var high := NatToDecimal(n / 10);
      var r := high + [DigitChar(n % 10)];
      assert r[..|r| - 1] == high;
      r
  }
}
