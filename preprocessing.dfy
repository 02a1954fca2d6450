/**
 * The two replication-record preprocessors. A `Preprocessor` object holds the
 * configuration (primary-key map, full-capture flag, table filter, the key
 * patterns built from the map) and the transaction id seen last, which each
 * call may update. `ParseTestDecoding`, `NextXact` and `Wal2JsonChanges` are
 * the functions the two `Preprocess…` methods are proved against.
 */
module Preprocessing {
  import opened Text
  import opened Changes
  import opened KeyPatterns

  /** The output plugins a preprocessor exists for. */
  datatype OutputPlugin = TestDecoding | Wal2Json

  function PluginName(p: OutputPlugin): string
  {
    match p
    case TestDecoding => "test_decoding"
    case Wal2Json => "wal2json"
  }

  /** The registry `for_output_plugin` indexes by plugin name. */
  const Plugins: map<string, OutputPlugin> := map["test_decoding" := TestDecoding, "wal2json" := Wal2Json]

  /** The variant chosen by name; an unknown name is the lookup failure. */
  function PluginNamed(name: string): (r: Option<OutputPlugin>)
    ensures r.Some? <==> name == "test_decoding" || name == "wal2json"
    ensures r.Some? ==> PluginName(r.value) == name
  {
    if name in Plugins then Some(Plugins[name]) else None
  }

  lemma PluginNameRoundTrip(p: OutputPlugin)
    ensures PluginNamed(PluginName(p)) == Some(p)
  {
  }

  /** The class `[\w_\.]` of the default table pattern. */
  predicate IsTableChar(c: char) { IsWordChar(c) || c == '.' }

  /** `re.search(r'[\w_\.]+', name)` succeeds: some character of the name is in the class. */
  predicate DefaultTableFilter(name: string)
  {
    exists k :: 0 <= k < |name| && IsTableChar(name[k])
  }

  /** A pattern-table key: a table name followed by `:`. */
  predicate IsTableKey(key: string) { |key| > 0 && key[|key| - 1] == ':' }

  lemma TableKeyShape(key: string)
    requires IsTableKey(key)
    ensures key == DropLast(key) + ":"
  {
  }

  /**
   * The key-pattern table built from a primary-key map: table `t` is filed
   * under `t + ":"` (the form the table name takes in a test_decoding record)
   * with the pattern of its key column, and nothing else is filed.
   */
  ghost predicate IsPatternTable(pats: map<string, KeyPattern>, pkMap: map<string, PrimaryKey>)
  {
    && (forall key :: key in pats <==> IsTableKey(key) && DropLast(key) in pkMap)
    && (forall key :: key in pats ==> pats[key] == PatternFor(pkMap[DropLast(key)]))
  }

  /** A record's `name:` token is registered exactly when `name` is a key of the map. */
  lemma RegisteredTable(pats: map<string, KeyPattern>, pkMap: map<string, PrimaryKey>, name: string)
    requires IsPatternTable(pats, pkMap)
    ensures name + ":" in pats <==> name in pkMap
    ensures name in pkMap ==> pats[name + ":"] == PatternFor(pkMap[name])
  {
    DropLastAppend(name, ':');
    assert IsTableKey(name + ":");
  }

  /** The map determines the table: two tables built from one map are equal. */
  lemma PatternTableUnique(a: map<string, KeyPattern>, b: map<string, KeyPattern>, pkMap: map<string, PrimaryKey>)
    requires IsPatternTable(a, pkMap) && IsPatternTable(b, pkMap)
    ensures a == b
  {
    assert a.Keys == b.Keys;
  }

  // ---------------------------------------------------------------------------
  // test_decoding

  /**
   * `change.split(' ', 3)`: one to four pieces that join back to the payload,
   * all but the last free of spaces.
   */
  function Records(change: string): (rec: seq<string>)
    ensures 1 <= |rec| <= 4
    ensures Join(rec, ' ') == change
    ensures forall k :: 0 <= k < |rec| - 1 ==> ' ' !in rec[k]
  {
    JoinSplitAtMost(change, ' ', 3);
    SplitAtMostPieces(change, ' ', 3);
    SplitAtMost(change, ' ', 3)
  }

  /** The text before the first space. */
  function FirstToken(s: string): string
  {
    if ' ' in s then s[..IndexOf(s, ' ')] else s
  }

  lemma FirstPiece(s: string, n: nat)
    requires n >= 1
    ensures SplitAtMost(s, ' ', n)[0] == FirstToken(s)
  {
  }

  /** The transaction id after a test_decoding payload: only `BEGIN <xid>` changes it. */
  function NextXact(xact: Value, change: string): Value
  {
    var rec := Records(change);
    if rec[0] == "BEGIN" && |rec| >= 2 then Str(rec[1]) else xact
  }

  /** What one test_decoding payload yields, given the transaction id current before it. */
  function ParseTestDecoding(tableMatches: string -> bool, pats: map<string, KeyPattern>, xact: Value, change: string)
    : Result<seq<Change>>
  {
    var rec := Records(change);
    if rec[0] == "BEGIN" then
      if |rec| >= 2 then Ok([]) else Err(Runtime(IndexError))
    else if rec[0] == "COMMIT" then Ok([])
    else if rec[0] == "table" then
      if |rec| < 2 then Err(Runtime(IndexError))
      else
        var tableName := DropLast(rec[1]);
        if !tableMatches(tableName) then Ok([])
        else if rec[1] !in pats then Err(MissingTable(rec[1]))
        else if |rec| < 4 then Err(Runtime(IndexError))
        else
          match Search(pats[rec[1]], rec[3])
          case Some(pkey) => Ok([Change(xact, tableName, DropLast(rec[2]), pkey)])
          case None => Err(MissingPrimaryKey(tableName))
    else Err(UnknownChange(change))
  }

  /** `BEGIN <xid>` yields nothing and makes its first token after `BEGIN` the transaction id. */
  lemma BeginRecord(tableMatches: string -> bool, pats: map<string, KeyPattern>, xact: Value, rest: string)
    ensures ParseTestDecoding(tableMatches, pats, xact, "BEGIN " + rest) == Ok([])
    ensures NextXact(xact, "BEGIN " + rest) == Str(FirstToken(rest))
  {
    SplitAtMostCons("BEGIN", ' ', rest, 3);
    assert "BEGIN " + rest == "BEGIN" + [' '] + rest;
    FirstPiece(rest, 2);
  }

  /** `BEGIN` with nothing after it fails on the missing id and keeps the transaction id. */
  lemma BeginWithoutXid(tableMatches: string -> bool, pats: map<string, KeyPattern>, xact: Value)
    ensures ParseTestDecoding(tableMatches, pats, xact, "BEGIN") == Err(Runtime(IndexError))
    ensures NextXact(xact, "BEGIN") == xact
  {
    assert Records("BEGIN") == ["BEGIN"];
  }

  /** `COMMIT` yields nothing and keeps the transaction id. */
  lemma CommitRecord(tableMatches: string -> bool, pats: map<string, KeyPattern>, xact: Value)
    ensures ParseTestDecoding(tableMatches, pats, xact, "COMMIT") == Ok([])
    ensures NextXact(xact, "COMMIT") == xact
  {
    assert Records("COMMIT") == ["COMMIT"];
  }

  /** So does `COMMIT` followed by a trailer, such as the transaction id. */
  lemma CommitTrailer(tableMatches: string -> bool, pats: map<string, KeyPattern>, xact: Value, rest: string)
    ensures ParseTestDecoding(tableMatches, pats, xact, "COMMIT " + rest) == Ok([])
    ensures NextXact(xact, "COMMIT " + rest) == xact
  {
    assert "COMMIT " + rest == "COMMIT" + [' '] + rest;
    SplitAtMostCons("COMMIT", ' ', rest, 3);
    assert Records("COMMIT " + rest)[0] == "COMMIT";
  }

  /** Any other leading token, and only that, is an unknown change. */
  lemma UnknownRecord(tableMatches: string -> bool, pats: map<string, KeyPattern>, xact: Value, change: string)
    ensures ParseTestDecoding(tableMatches, pats, xact, change) == Err(UnknownChange(change))
        <==> FirstToken(change) != "BEGIN" && FirstToken(change) != "COMMIT" && FirstToken(change) != "table"
    ensures FirstToken(change) != "BEGIN" ==> NextXact(xact, change) == xact
  {
    FirstPiece(change, 3);
  }

  lemma TableLineAssoc(name: string, op: string, cols: string)
    ensures "table " + name + ": " + op + ": " + cols
         == "table" + [' '] + ((name + ":") + [' '] + ((op + ":") + [' '] + cols))
  {
  }

  lemma SplitLastTwo(o1: string, cols: string)
    requires ' ' !in o1
    ensures SplitAtMost(o1 + [' '] + cols, ' ', 1) == [o1, cols]
  {
    SplitAtMostCons(o1, ' ', cols, 1);
  }

  lemma SplitLastThree(n1: string, o1: string, cols: string)
    requires ' ' !in n1 && ' ' !in o1
    ensures SplitAtMost(n1 + [' '] + (o1 + [' '] + cols), ' ', 2) == [n1, o1, cols]
  {
    SplitLastTwo(o1, cols);
    SplitAtMostCons(n1, ' ', o1 + [' '] + cols, 2);
  }

  lemma SplitFourFields(head: string, n1: string, o1: string, cols: string)
    requires ' ' !in head && ' ' !in n1 && ' ' !in o1
    ensures SplitAtMost(head + [' '] + (n1 + [' '] + (o1 + [' '] + cols)), ' ', 3) == [head, n1, o1, cols]
  {
    SplitLastThree(n1, o1, cols);
    SplitAtMostCons(head, ' ', n1 + [' '] + (o1 + [' '] + cols), 3);
  }

  /** `table <name>: <OP>: <columns>` splits into its four fields. */
  lemma TableRecords(name: string, op: string, cols: string)
    requires ' ' !in name && ' ' !in op
    ensures Records("table " + name + ": " + op + ": " + cols) == ["table", name + ":", op + ":", cols]
  {
    TableLineAssoc(name, op, cols);
    SplitFourFields("table", name + ":", op + ":", cols);
  }

  /**
   * A table record, stated against the primary-key map the patterns were
   * built from: a filtered-out table is skipped, an unregistered one is a
   * missing table (reported with its trailing colon), a column dump without
   * the key is a missing primary key, and otherwise exactly one change comes
   * out. The transaction id is untouched.
   */
  lemma TableRecord(
    tableMatches: string -> bool, pats: map<string, KeyPattern>, pkMap: map<string, PrimaryKey>,
    xact: Value, name: string, op: string, cols: string)
    requires IsPatternTable(pats, pkMap)
    requires ' ' !in name && ' ' !in op
    ensures var c := "table " + name + ": " + op + ": " + cols;
      var r := ParseTestDecoding(tableMatches, pats, xact, c);
      && NextXact(xact, c) == xact
      && (!tableMatches(name) ==> r == Ok([]))
      && (tableMatches(name) && name !in pkMap ==> r == Err(MissingTable(name + ":")))
      && (tableMatches(name) && name in pkMap ==>
            match Search(PatternFor(pkMap[name]), cols)
            case None => r == Err(MissingPrimaryKey(name))
            case Some(pkey) => r == Ok([Change(xact, name, op, pkey)]))
  {
    var c := "table " + name + ": " + op + ": " + cols;
    TableRecords(name, op, cols);
    TableFields(tableMatches, pats, xact, c, name, op, cols);
    RegisteredTable(pats, pkMap, name);
  }

  /** The parse of a payload once its four fields are known. */
  lemma TableFields(
    tableMatches: string -> bool, pats: map<string, KeyPattern>, xact: Value,
    c: string, name: string, op: string, cols: string)
    requires Records(c) == ["table", name + ":", op + ":", cols]
    ensures NextXact(xact, c) == xact
    ensures ParseTestDecoding(tableMatches, pats, xact, c)
         == if !tableMatches(name) then Ok([])
            else if name + ":" !in pats then Err(MissingTable(name + ":"))
            else match Search(pats[name + ":"], cols)
                 case None => Err(MissingPrimaryKey(name))
                 case Some(pkey) => Ok([Change(xact, name, op, pkey)])
  {
    DropLastAppend(name, ':');
    DropLastAppend(op, ':');
  }

  /**
   * Whatever the payload, at most one change comes out, and one that does
   * carries the current transaction id and a non-empty key of `[\w\-]`
   * characters.
   */
  lemma TestDecodingShape(tableMatches: string -> bool, pats: map<string, KeyPattern>, xact: Value, change: string)
    ensures var r := ParseTestDecoding(tableMatches, pats, xact, change);
      r.Ok? ==> (|r.value| <= 1 &&
        forall c :: c in r.value ==>
          c.xid == xact && |c.pkey| > 0 && (forall k :: 0 <= k < |c.pkey| ==> IsKeyChar(c.pkey[k])))
  {
  }

  // ---------------------------------------------------------------------------
  // wal2json

  /** The change one filter-passing entry yields, or the error it raises. */
  function ConvertEntry(pkMap: map<string, PrimaryKey>, fullChange: bool, xid: Value, e: Entry): Result<AnyChange>
  {
    if fullChange then Ok(WholeChange(FullChange(xid, e)))
    else
      var full := e.schema + "." + e.table;
      if full !in pkMap then Err(MissingTable(full))
      else
        var col := pkMap[full].colName;
        if col !in e.columnNames then Err(Runtime(ValueError))
        else
          var idx := IndexOf(e.columnNames, col);
          if idx >= |e.columnValues| then Err(Runtime(IndexError))
          else Ok(KeyChange(Change(xid, full, Lower(e.kind), PyStr(e.columnValues[idx]))))
  }

  /** The entries whose bare table name passes the filter, in input order. */
  function Selected(tableMatches: string -> bool, es: seq<Entry>): (sel: seq<Entry>)
    ensures |sel| <= |es|
    ensures forall e :: e in sel <==> e in es && tableMatches(e.table)
  {
    if es == [] then []
    else
      var last := es[|es| - 1];
      Selected(tableMatches, es[..|es| - 1]) + if tableMatches(last.table) then [last] else []
  }

  /** Selection keeps input order: selecting from a concatenation concatenates the selections. */
  lemma {:induction false} SelectedAppend(tableMatches: string -> bool, a: seq<Entry>, b: seq<Entry>)
    ensures Selected(tableMatches, a + b) == Selected(tableMatches, a) + Selected(tableMatches, b)
    decreases |b|
  {
    if b == [] {
      assert a + b == a;
    } else {
      var pre, last := b[..|b| - 1], b[|b| - 1];
      var ab := a + b;
      assert ab[..|ab| - 1] == a + pre && ab[|ab| - 1] == last;
      SelectedAppend(tableMatches, a, pre);
      SelectedStep(tableMatches, ab);
      SelectedStep(tableMatches, b);
      var keep := if tableMatches(last.table) then [last] else [];
      var sa, sp := Selected(tableMatches, a), Selected(tableMatches, pre);
      assert (sa + sp) + keep == sa + (sp + keep);
    }
  }

  /** One entry is selected exactly when its bare table passes the filter; with `SelectedAppend` this fixes `Selected`. */
  lemma SelectedOne(tableMatches: string -> bool, e: Entry)
    ensures Selected(tableMatches, [e]) == if tableMatches(e.table) then [e] else []
  {
    assert [e][..0] == [];
  }

  lemma SelectedStep(tableMatches: string -> bool, es: seq<Entry>)
    requires es != []
    ensures var last := es[|es| - 1];
      Selected(tableMatches, es) == Selected(tableMatches, es[..|es| - 1]) + if tableMatches(last.table) then [last] else []
  {
  }

  /** The entries of a document converted in order; the first failing entry ends the conversion. */
  function Wal2JsonChanges(
    tableMatches: string -> bool, pkMap: map<string, PrimaryKey>, fullChange: bool, xid: Value, es: seq<Entry>)
    : Result<seq<AnyChange>>
  {
    if es == [] then Ok([])
    else
      match Wal2JsonChanges(tableMatches, pkMap, fullChange, xid, es[..|es| - 1])
      case Err(e) => Err(e)
      case Ok(prefix) =>
        var last := es[|es| - 1];
        if !tableMatches(last.table) then Ok(prefix)
        else
          match ConvertEntry(pkMap, fullChange, xid, last)
          case Err(e) => Err(e)
          case Ok(c) => Ok(prefix + [c])
  }

  /** Every entry of `sel` converts without error. */
  predicate AllConvert(pkMap: map<string, PrimaryKey>, fullChange: bool, xid: Value, sel: seq<Entry>)
  {
    forall i :: 0 <= i < |sel| ==> ConvertEntry(pkMap, fullChange, xid, sel[i]).Ok?
  }

  lemma AllConvertAppend(pkMap: map<string, PrimaryKey>, fullChange: bool, xid: Value, sel: seq<Entry>, e: Entry)
    ensures AllConvert(pkMap, fullChange, xid, sel + [e])
        <==> AllConvert(pkMap, fullChange, xid, sel) && ConvertEntry(pkMap, fullChange, xid, e).Ok?
  {
    var all := sel + [e];
    assert all[|sel|] == e;
    if AllConvert(pkMap, fullChange, xid, sel) && ConvertEntry(pkMap, fullChange, xid, e).Ok? {
      forall i | 0 <= i < |all|
        ensures ConvertEntry(pkMap, fullChange, xid, all[i]).Ok?
      {
        if i < |sel| {
          assert all[i] == sel[i];
        }
      }
    }
    if AllConvert(pkMap, fullChange, xid, all) {
      forall i | 0 <= i < |sel|
        ensures ConvertEntry(pkMap, fullChange, xid, sel[i]).Ok?
      {
        assert all[i] == sel[i];
      }
    }
  }

  /**
   * The conversion succeeds exactly when every selected entry converts, and
   * then yields one change per selected entry, in input order, each the
   * conversion of its entry.
   */
  lemma {:induction false} Wal2JsonShape(
    tableMatches: string -> bool, pkMap: map<string, PrimaryKey>, fullChange: bool, xid: Value, es: seq<Entry>)
    ensures Wal2JsonChanges(tableMatches, pkMap, fullChange, xid, es).Ok?
        <==> AllConvert(pkMap, fullChange, xid, Selected(tableMatches, es))
    ensures var r := Wal2JsonChanges(tableMatches, pkMap, fullChange, xid, es);
      var sel := Selected(tableMatches, es);
      r.Ok? ==> (|r.value| == |sel| &&
        forall i :: 0 <= i < |sel| ==> r.value[i] == ConvertEntry(pkMap, fullChange, xid, sel[i]).value)
    decreases |es|
  {
    if es != [] {
      var pre, last := es[..|es| - 1], es[|es| - 1];
      Wal2JsonShape(tableMatches, pkMap, fullChange, xid, pre);
      var selPre := Selected(tableMatches, pre);
      var rPre := Wal2JsonChanges(tableMatches, pkMap, fullChange, xid, pre);
      if tableMatches(last.table) {
        var sel := Selected(tableMatches, es);
        assert sel == selPre + [last];
        AllConvertAppend(pkMap, fullChange, xid, selPre, last);
        var r := Wal2JsonChanges(tableMatches, pkMap, fullChange, xid, es);
        if r.Ok? {
          assert r.value == rPre.value + [ConvertEntry(pkMap, fullChange, xid, last).value];
          forall i | 0 <= i < |sel|
            ensures r.value[i] == ConvertEntry(pkMap, fullChange, xid, sel[i]).value
          {
            if i < |selPre| {
              assert sel[i] == selPre[i] && r.value[i] == rPre.value[i];
            }
          }
        }
      } else {
        assert Selected(tableMatches, es) == selPre;
        assert Wal2JsonChanges(tableMatches, pkMap, fullChange, xid, es) == rPre;
      }
    }
  }

  /** When an entry fails to convert, the error reported is that of the first selected entry that fails. */
  lemma {:induction false} Wal2JsonFirstError(
    tableMatches: string -> bool, pkMap: map<string, PrimaryKey>, fullChange: bool, xid: Value, es: seq<Entry>, i: nat)
    requires var sel := Selected(tableMatches, es);
      && i < |sel| && ConvertEntry(pkMap, fullChange, xid, sel[i]).Err?
      && forall j :: 0 <= j < i ==> ConvertEntry(pkMap, fullChange, xid, sel[j]).Ok?
    ensures Wal2JsonChanges(tableMatches, pkMap, fullChange, xid, es)
         == Err(ConvertEntry(pkMap, fullChange, xid, Selected(tableMatches, es)[i]).error)
    decreases |es|
  {
    var pre, last := es[..|es| - 1], es[|es| - 1];
    var selPre := Selected(tableMatches, pre);
    var sel := Selected(tableMatches, es);
    if i < |selPre| {
      assert sel[..|selPre|] == selPre;
      assert sel[i] == selPre[i];
      forall j | 0 <= j < i
        ensures ConvertEntry(pkMap, fullChange, xid, selPre[j]).Ok?
      {
        assert sel[j] == selPre[j];
      }
      Wal2JsonFirstError(tableMatches, pkMap, fullChange, xid, pre, i);
    } else {
      assert tableMatches(last.table) && sel == selPre + [last] && sel[i] == last;
      Wal2JsonShape(tableMatches, pkMap, fullChange, xid, pre);
      forall j | 0 <= j < |selPre|
        ensures ConvertEntry(pkMap, fullChange, xid, selPre[j]).Ok?
      {
        assert sel[j] == selPre[j];
      }
    }
  }

  /**
   * Full-capture mode wraps every selected entry unchanged with the document's
   * xid, never fails and never looks at the primary-key map.
   */
  lemma FullCapture(
    tableMatches: string -> bool, pkMap: map<string, PrimaryKey>, xid: Value, es: seq<Entry>)
    ensures var r := Wal2JsonChanges(tableMatches, pkMap, true, xid, es);
      var sel := Selected(tableMatches, es);
      && r.Ok? && |r.value| == |sel|
      && forall i :: 0 <= i < |sel| ==> r.value[i] == WholeChange(FullChange(xid, sel[i]))
  {
    Wal2JsonShape(tableMatches, pkMap, true, xid, es);
  }

  /** Primary-key mode: a table missing from the map is a missing table named `schema.table`. */
  lemma KeyModeUnregistered(pkMap: map<string, PrimaryKey>, xid: Value, e: Entry)
    requires e.schema + "." + e.table !in pkMap
    ensures ConvertEntry(pkMap, false, xid, e) == Err(MissingTable(e.schema + "." + e.table))
  {
  }

  /**
   * Primary-key mode on a registered table: the key is the stringified value
   * at the first position of the key column among the column names; a column
   * that is absent, or a value list too short, is a runtime failure.
   */
  lemma KeyModeRegistered(pkMap: map<string, PrimaryKey>, xid: Value, e: Entry, j: nat)
    requires e.schema + "." + e.table in pkMap
    requires var col := pkMap[e.schema + "." + e.table].colName;
      j < |e.columnNames| && e.columnNames[j] == col && col !in e.columnNames[..j]
    ensures var full := e.schema + "." + e.table;
      ConvertEntry(pkMap, false, xid, e)
      == if j < |e.columnValues|
         then Ok(KeyChange(Change(xid, full, Lower(e.kind), PyStr(e.columnValues[j]))))
         else Err(Runtime(IndexError))
  {
    IndexOfUnique(e.columnNames, pkMap[e.schema + "." + e.table].colName, j);
  }

  lemma KeyModeNoColumn(pkMap: map<string, PrimaryKey>, xid: Value, e: Entry)
    requires e.schema + "." + e.table in pkMap
    requires pkMap[e.schema + "." + e.table].colName !in e.columnNames
    ensures ConvertEntry(pkMap, false, xid, e) == Err(Runtime(ValueError))
  {
  }

  /** A conversion that failed for a prefix of the entries fails the same way for all of them. */
  lemma {:induction false} Wal2JsonErrorSticks(
    tableMatches: string -> bool, pkMap: map<string, PrimaryKey>, fullChange: bool, xid: Value, es: seq<Entry>, n: nat)
    requires n <= |es| && Wal2JsonChanges(tableMatches, pkMap, fullChange, xid, es[..n]).Err?
    ensures Wal2JsonChanges(tableMatches, pkMap, fullChange, xid, es)
         == Wal2JsonChanges(tableMatches, pkMap, fullChange, xid, es[..n])
    decreases |es| - n
  {
    if n < |es| {
      assert es[..n + 1][..n] == es[..n];
      Wal2JsonErrorSticks(tableMatches, pkMap, fullChange, xid, es, n + 1);
    } else {
      assert es[..n] == es;
    }
  }

  // ---------------------------------------------------------------------------
  // The preprocessor object

  class Preprocessor {
    const plugin: OutputPlugin
    const primaryKeyMap: map<string, PrimaryKey>
    const fullChange: bool
    const tableMatches: string -> bool
    const keyPatterns: map<string, KeyPattern>
    var curXact: Value

    ghost predicate Valid()
    {
      IsPatternTable(keyPatterns, primaryKeyMap)
    }

    /** `tablePat` is the compiled table filter, or `None` for the default `[\w_\.]+`. */
    constructor (plugin: OutputPlugin, primaryKeyMap: map<string, PrimaryKey>, fullChange: bool,
                 tablePat: Option<string -> bool>)
      ensures Valid()
      ensures this.plugin == plugin && this.primaryKeyMap == primaryKeyMap && this.fullChange == fullChange
      ensures tablePat.Some? ==> tableMatches == tablePat.value
      ensures tablePat.None? ==> forall name :: tableMatches(name) == DefaultTableFilter(name)
      ensures curXact == Str("")
    {
      var pats := BuildKeyPatterns(primaryKeyMap);
      this.plugin := plugin;
      this.primaryKeyMap := primaryKeyMap;
      this.fullChange := fullChange;
      var filter: string -> bool := (name: string) => DefaultTableFilter(name);
      if tablePat.Some? {
        filter := tablePat.value;
      }
      tableMatches := filter;
      keyPatterns := pats;
      curXact := Str("");
    }

    /** The loop of the constructor that files one key pattern per table of the map. */
    static method BuildKeyPatterns(pkMap: map<string, PrimaryKey>) returns (pats: map<string, KeyPattern>)
      ensures IsPatternTable(pats, pkMap)
    {
      pats := map[];
      var todo := pkMap.Keys;
      while todo != {}
        invariant todo <= pkMap.Keys
        invariant forall key :: key in pats <==> IsTableKey(key) && DropLast(key) in pkMap && DropLast(key) !in todo
        invariant forall key :: key in pats ==> pats[key] == PatternFor(pkMap[DropLast(key)])
        decreases todo
      {
        var k :| k in todo;
        DropLastAppend(k, ':');
        forall key | IsTableKey(key) && DropLast(key) == k
          ensures key == k + ":"
        {
          TableKeyShape(key);
        }
        pats := pats[k + ":" := PatternFor(pkMap[k])];
        todo := todo - {k};
      }
    }

    /** `for_output_plugin`: a fresh preprocessor of the named variant, or nothing for an unknown name. */
    static method ForOutputPlugin(primaryKeyMap: map<string, PrimaryKey>, fullChange: bool,
                                  tablePat: Option<string -> bool>, outputPlugin: string)
      returns (r: Option<Preprocessor>)
      ensures r.None? <==> PluginNamed(outputPlugin).None?
      ensures r.Some? ==>
        && fresh(r.value) && r.value.Valid()
        && r.value.plugin == PluginNamed(outputPlugin).value
        && r.value.primaryKeyMap == primaryKeyMap && r.value.fullChange == fullChange
        && r.value.curXact == Str("")
        && (tablePat.Some? ==> r.value.tableMatches == tablePat.value)
        && (tablePat.None? ==> forall name :: r.value.tableMatches(name) == DefaultTableFilter(name))
    {
      var p := PluginNamed(outputPlugin);
      if p.None? {
        return None;
      }
      var pre := new Preprocessor(p.value, primaryKeyMap, fullChange, tablePat);
      return Some(pre);
    }

    /** `TestDecodingPreprocessor.preprocess`. */
    method PreprocessTestDecoding(change: string) returns (r: Result<seq<Change>>)
      requires plugin == TestDecoding
      modifies this`curXact
      ensures r == ParseTestDecoding(tableMatches, keyPatterns, old(curXact), change)
      ensures curXact == NextXact(old(curXact), change)
    {
      var rec := SplitAtMost(change, ' ', 3);
      if rec[0] == "BEGIN" {
        if |rec| < 2 {
          return Err(Runtime(IndexError));
        }
        curXact := Str(rec[1]);
      } else if rec[0] == "COMMIT" {
      } else if rec[0] == "table" {
        if |rec| < 2 {
          return Err(Runtime(IndexError));
        }
        var tableName := DropLast(rec[1]);
        if tableMatches(tableName) {
          if rec[1] !in keyPatterns {
            return Err(MissingTable(rec[1]));
          }
          if |rec| < 4 {
            return Err(Runtime(IndexError));
          }
          var mat := Search(keyPatterns[rec[1]], rec[3]);
          if mat.Some? {
            return Ok([Change(curXact, tableName, DropLast(rec[2]), mat.value)]);
          }
          return Err(MissingPrimaryKey(tableName));
        }
      } else {
        return Err(UnknownChange(change));
      }
      return Ok([]);
    }

    /**
     * `Wal2JsonPreprocessor.preprocess` on the decoded payload; `None` stands
     * for a falsy one, for which the result is `None` rather than a list.
     */
    method PreprocessWal2Json(decoded: Option<Wal2JsonDoc>) returns (r: Result<Option<seq<AnyChange>>>)
      requires plugin == Wal2Json
      modifies this`curXact
      ensures decoded.None? ==> r == Ok(None) && curXact == old(curXact)
      ensures decoded.Some? ==>
        && curXact == decoded.value.xid
        && r == match Wal2JsonChanges(tableMatches, primaryKeyMap, fullChange, decoded.value.xid, decoded.value.change)
                case Ok(cs) => Ok(Some(cs))
                case Err(e) => Err(e)
    {
      if decoded.None? {
        return Ok(None);
      }
      var doc := decoded.value;
      curXact := doc.xid;
      var changes: seq<AnyChange> := [];
      for i := 0 to |doc.change|
        invariant curXact == doc.xid
        invariant Wal2JsonChanges(tableMatches, primaryKeyMap, fullChange, doc.xid, doc.change[..i]) == Ok(changes)
      {
        var e := doc.change[i];
        assert doc.change[..i + 1][..i] == doc.change[..i];
        if tableMatches(e.table) {
          if fullChange {
            changes := changes + [WholeChange(FullChange(curXact, e))];
          } else {
            var fullTable := e.schema + "." + e.table;
            if fullTable !in primaryKeyMap {
              Wal2JsonErrorSticks(tableMatches, primaryKeyMap, fullChange, doc.xid, doc.change, i + 1);
              return Err(MissingTable(fullTable));
            }
            var col := primaryKeyMap[fullTable].colName;
            if col !in e.columnNames {
              Wal2JsonErrorSticks(tableMatches, primaryKeyMap, fullChange, doc.xid, doc.change, i + 1);
              return Err(Runtime(ValueError));
            }
            var idx := IndexOf(e.columnNames, col);
            if idx >= |e.columnValues| {
              Wal2JsonErrorSticks(tableMatches, primaryKeyMap, fullChange, doc.xid, doc.change, i + 1);
              return Err(Runtime(IndexError));
            }
            changes := changes + [KeyChange(Change(curXact, fullTable, Lower(e.kind), PyStr(e.columnValues[idx])))];
          }
        }
      }
      assert doc.change[..|doc.change|] == doc.change;
      return Ok(Some(changes));
    }
  }
}
