/**
 * The per-table primary-key pattern `{col_name}\[{col_type}\]:'?([\w\-]+)'?`
 * and what `pattern.search(text)` captures with it. The column name and type
 * are read as literal text.
 */
module KeyPatterns {
  import opened Text
  import opened Changes

  /** The configured primary-key column of one table. */
  datatype PrimaryKey = PrimaryKey(colName: string, colType: string)

  /** A compiled key pattern, represented by its literal head `col_name[col_type]:`. */
  datatype KeyPattern = KeyPattern(marker: string)

  function PatternFor(pk: PrimaryKey): KeyPattern
  {
    KeyPattern(pk.colName + "[" + pk.colType + "]:")
  }

  /** The class `[\w\-]`. */
  predicate IsKeyChar(c: char) { IsWordChar(c) || c == '-' }

  /** The greedy run `[\w\-]*` at the start of `s`: the longest prefix of key characters. */
  function KeyRun(s: string): (r: string)
    ensures |r| <= |s| && r == s[..|r|]
    ensures forall k :: 0 <= k < |r| ==> IsKeyChar(r[k])
    ensures |r| < |s| ==> !IsKeyChar(s[|r|])
  {
    if s == [] || !IsKeyChar(s[0]) then ""
    else [s[0]] + KeyRun(s[1..])
  }

  /**
   * The match attempt at position `i`: the literal head, an optional quote, and
   * a non-empty run of key characters, which is the captured group. When the
   * quote is taken and no key character follows, backing off the quote cannot
   * help, since a quote is not a key character.
   */
  function MatchAt(p: KeyPattern, s: string, i: nat): (r: Option<string>)
    requires i <= |s|
    ensures r.Some? ==> |r.value| > 0 && forall k :: 0 <= k < |r.value| ==> IsKeyChar(r.value[k])
  {
    var m := p.marker;
    if i + |m| <= |s| && s[i..i + |m|] == m then Capture(s[i + |m|..]) else None
  }

  /** After the head: skip one optional quote and capture the non-empty greedy run of key characters. */
  function Capture(after: string): (r: Option<string>)
    ensures r.Some? ==> |r.value| > 0 && forall k :: 0 <= k < |r.value| ==> IsKeyChar(r.value[k])
  {
    var body := if |after| > 0 && after[0] == '\'' then after[1..] else after;
    var run := KeyRun(body);
    if |run| > 0 then Some(run) else None
  }

  /** A maximal run of key characters is what `KeyRun` takes. */
  lemma KeyRunOf(key: string, rest: string)
    requires forall k :: 0 <= k < |key| ==> IsKeyChar(key[k])
    requires rest == [] || !IsKeyChar(rest[0])
    ensures KeyRun(key + rest) == key
  {
    var t := key + rest;
    assert t[..|key|] == key;
    assert |key| < |t| ==> t[|key|] == rest[0];
  }

  /** An optional quote and then a maximal non-empty run of key characters: the run is captured. */
  lemma CaptureOf(q: string, key: string, rest: string)
    requires q == "" || q == "'"
    requires |key| > 0 && forall k :: 0 <= k < |key| ==> IsKeyChar(key[k])
    requires rest == [] || !IsKeyChar(rest[0])
    ensures Capture(q + key + rest) == Some(key)
  {
    var after := q + key + rest;
    if q == "" {
      assert after == key + rest;
    } else {
      assert after[1..] == key + rest;
    }
    KeyRunOf(key, rest);
  }

  /** Every capture comes from an optional quote and a maximal run of key characters. */
  lemma CaptureShape(after: string) returns (q: string, key: string, rest: string)
    requires Capture(after).Some?
    ensures q == "" || q == "'"
    ensures key == Capture(after).value
    ensures rest == [] || !IsKeyChar(rest[0])
    ensures after == q + key + rest
  {
    q := if |after| > 0 && after[0] == '\'' then "'" else "";
    var body := after[|q|..];
    key := KeyRun(body);
    rest := body[|key|..];
    assert body == key + rest;
  }

  /** When the text at position `i` begins with the head, the match is the capture of what follows it. */
  lemma HeadAt(p: KeyPattern, s: string, i: nat, after: string)
    requires i <= |s| && s[i..] == p.marker + after
    ensures MatchAt(p, s, i) == Capture(after)
  {
    var m := p.marker;
    var tail := s[i..];
    assert tail[..|m|] == m && tail[|m|..] == after;
    assert s[i..i + |m|] == tail[..|m|];
    assert s[i + |m|..] == tail[|m|..];
  }

  /**
   * The head, an optional quote and a maximal non-empty run of key characters
   * at position `i` are a match that captures the whole run.
   */
  lemma MatchAtHead(p: KeyPattern, s: string, i: nat, q: string, key: string, rest: string)
    requires i <= |s|
    requires q == "" || q == "'"
    requires |key| > 0 && forall k :: 0 <= k < |key| ==> IsKeyChar(key[k])
    requires rest == [] || !IsKeyChar(rest[0])
    requires s[i..] == p.marker + q + key + rest
    ensures MatchAt(p, s, i) == Some(key)
  {
    var after := q + key + rest;
    assert p.marker + q + key + rest == p.marker + after;
    HeadAt(p, s, i, after);
    CaptureOf(q, key, rest);
  }

  /** Conversely, every match is the head, an optional quote and a maximal run of key characters. */
  lemma MatchAtShape(p: KeyPattern, s: string, i: nat) returns (q: string, key: string, rest: string)
    requires i <= |s| && MatchAt(p, s, i).Some?
    ensures q == "" || q == "'"
    ensures key == MatchAt(p, s, i).value
    ensures rest == [] || !IsKeyChar(rest[0])
    ensures s[i..] == p.marker + q + key + rest
  {
    var after := HeadOf(p, s, i);
    HeadAt(p, s, i, after);
    q, key, rest := CaptureShape(after);
    Assoc(p.marker, q, key, rest);
  }

  /** A match starts with the head; what follows it is returned. */
  lemma HeadOf(p: KeyPattern, s: string, i: nat) returns (after: string)
    requires i <= |s| && MatchAt(p, s, i).Some?
    ensures s[i..] == p.marker + after
  {
    var m := p.marker;
    assert i + |m| <= |s| && s[i..i + |m|] == m;
    after := s[i + |m|..];
    assert s[i..] == s[i..i + |m|] + after;
  }

  lemma Assoc(m: string, q: string, key: string, rest: string)
    ensures m + (q + key + rest) == m + q + key + rest
  {
  }

  /** The leftmost match at or after position `i`. */
  function SearchFrom(p: KeyPattern, s: string, i: nat): (r: Option<string>)
    requires i <= |s|
    ensures r.Some? ==> |r.value| > 0 && forall k :: 0 <= k < |r.value| ==> IsKeyChar(r.value[k])
    decreases |s| - i
  {
    match MatchAt(p, s, i)
    case Some(key) => Some(key)
    case None => if i == |s| then None else SearchFrom(p, s, i + 1)
  }

  /** `pattern.search(s)` followed by `groups()[0]`: the capture of the leftmost match. */
  function Search(p: KeyPattern, s: string): (r: Option<string>)
    ensures r.Some? ==> |r.value| > 0 && forall k :: 0 <= k < |r.value| ==> IsKeyChar(r.value[k])
  {
    SearchFrom(p, s, 0)
  }

  lemma {:induction false} SearchFromFinds(p: KeyPattern, s: string, i: nat) returns (j: nat)
    requires i <= |s| && SearchFrom(p, s, i).Some?
    ensures i <= j <= |s| && MatchAt(p, s, j) == SearchFrom(p, s, i)
    ensures forall k :: i <= k < j ==> MatchAt(p, s, k).None?
    decreases |s| - i
  {
    if MatchAt(p, s, i).Some? {
      j := i;
    } else {
      j := SearchFromFinds(p, s, i + 1);
    }
  }

  lemma {:induction false} SearchFromMisses(p: KeyPattern, s: string, i: nat)
    requires i <= |s|
    ensures SearchFrom(p, s, i).None? <==> forall k :: i <= k <= |s| ==> MatchAt(p, s, k).None?
    decreases |s| - i
  {
    if i < |s| {
      SearchFromMisses(p, s, i + 1);
    }
  }

  lemma {:induction false} SearchFromFirst(p: KeyPattern, s: string, i: nat, j: nat)
    requires i <= j <= |s| && MatchAt(p, s, j).Some?
    requires forall k :: i <= k < j ==> MatchAt(p, s, k).None?
    ensures SearchFrom(p, s, i) == MatchAt(p, s, j)
    decreases j - i
  {
    if i < j {
      SearchFromFirst(p, s, i + 1, j);
    }
  }

  /** A successful search reports the capture at the leftmost position where the pattern matches. */
  lemma SearchLeftmost(p: KeyPattern, s: string) returns (j: nat)
    requires Search(p, s).Some?
    ensures j <= |s| && MatchAt(p, s, j) == Search(p, s)
    ensures forall k :: 0 <= k < j ==> MatchAt(p, s, k).None?
  {
    j := SearchFromFinds(p, s, 0);
  }

  /** The search fails exactly when the pattern matches nowhere. */
  lemma SearchMisses(p: KeyPattern, s: string)
    ensures Search(p, s).None? <==> forall k :: 0 <= k <= |s| ==> MatchAt(p, s, k).None?
  {
    SearchFromMisses(p, s, 0);
  }

  /** Conversely, the leftmost matching position decides the capture. */
  lemma SearchFirst(p: KeyPattern, s: string, j: nat)
    requires j <= |s| && MatchAt(p, s, j).Some?
    requires forall k :: 0 <= k < j ==> MatchAt(p, s, k).None?
    ensures Search(p, s) == MatchAt(p, s, j)
  {
    SearchFromFirst(p, s, 0, j);
  }

  /** The head is found as a plain substring: the key `id` of type `uuid` also matches inside `uuid[uuid]:`. */
  lemma IdMatchesInsideUuid()
    ensures Search(PatternFor(PrimaryKey("id", "uuid")), "uuid[uuid]:'x-1'") == Some("x-1")
  {
    var p := PatternFor(PrimaryKey("id", "uuid"));
    var s := "uuid[uuid]:'x-1'";
    UuidNoMatchAt(0);
    UuidNoMatchAt(1);
    UuidMatchAtTwo();
    SearchFirst(p, s, 2);
  }

  lemma UuidNoMatchAt(i: nat)
    requires i < 2
    ensures MatchAt(PatternFor(PrimaryKey("id", "uuid")), "uuid[uuid]:'x-1'", i).None?
  {
    var p := PatternFor(PrimaryKey("id", "uuid"));
    var s := "uuid[uuid]:'x-1'";
    assert s[i..i + 9][0] != p.marker[0];
  }

  lemma UuidMatchAtTwo()
    ensures MatchAt(PatternFor(PrimaryKey("id", "uuid")), "uuid[uuid]:'x-1'", 2) == Some("x-1")
  {
    var p := PatternFor(PrimaryKey("id", "uuid"));
    var s := "uuid[uuid]:'x-1'";
    assert s[2..11] == p.marker;
    assert s[11..] == "'x-1'";
    KeyRunSample();
  }

  lemma KeyRunSample()
    ensures KeyRun("x-1'") == "x-1"
  {
    var tail := "x-1'";
    assert tail[1..] == "-1'" && tail[1..][1..] == "1'" && tail[1..][1..][1..] == "'";
  }
}
