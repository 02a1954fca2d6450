/**
 * The message formatters: the base `Formatter` hands each change back as it
 * is, `CSVFormatter` writes `0,CDC,<xid>,<table>,<operation>,<pkey>` and
 * `CSVPayloadFormatter` writes `0,CDC,` followed by the JSON text of the
 * change. A formatter applied to a list of changes formats each in turn.
 */
module Formatting {
  import opened Text
  import opened Changes

  /** The formatter variants, looked up by the prefix of their class name. */
  datatype FormatterKind = Plain | Csv | CsvPayload

  /** The name that selects a variant: `Formatter`, `CSVFormatter`, `CSVPayloadFormatter`. */
  function FormatterName(k: FormatterKind): string
  {
    match k
    case Plain => ""
    case Csv => "CSV"
    case CsvPayload => "CSVPayload"
  }

  /** `get_formatter(name)`: the variant whose class is `name + "Formatter"`, if there is one. */
  function GetFormatter(name: string): (r: Option<FormatterKind>)
    ensures r.Some? <==> exists k :: FormatterName(k) == name
    ensures r.Some? ==> FormatterName(r.value) == name
  {
    if name == "" then
      assert FormatterName(Plain) == name;
      Some(Plain)
    else if name == "CSV" then
      assert FormatterName(Csv) == name;
      Some(Csv)
    else if name == "CSVPayload" then
      assert FormatterName(CsvPayload) == name;
      Some(CsvPayload)
    else
      assert forall k :: FormatterName(k) != name;
      None
  }

  /** Every variant is found again under its own name. */
  lemma GetFormatterRoundTrip(k: FormatterKind)
    ensures GetFormatter(FormatterName(k)) == Some(k)
  {
  }

  const Version: string := "0"
  const Type: string := "CDC"

  /** The version and type tag every formatted text starts with. */
  const Tag: string := Version + "," + Type + ","

  /** The base formatter returns the change itself; the others pair it with its text. */
  datatype Formatted = Unformatted(change: AnyChange) | Message(change: AnyChange, fmtMsg: string)

  /** The six comma-separated fields of the compact format. */
  function CsvFields(c: Change): seq<string>
  {
    [Version, Type, PyStr(c.xid), c.table, c.operation, c.pkey]
  }

  function CsvText(c: Change): string
  {
    Join(CsvFields(c), ',')
  }

  /** The compact text written out field by field. */
  lemma CsvLayout(c: Change)
    ensures CsvText(c) == Tag + PyStr(c.xid) + "," + c.table + "," + c.operation + "," + c.pkey
  {
    var x := PyStr(c.xid);
    var t5 := c.operation + "," + c.pkey;
    var t4 := c.table + "," + t5;
    var t3 := x + "," + t4;
    var t2 := Type + "," + t3;
    assert Join([c.pkey], ',') == c.pkey;
    JoinCons(c.operation, [c.pkey], ',', c.pkey);
    assert [c.operation] + [c.pkey] == [c.operation, c.pkey];
    JoinCons(c.table, [c.operation, c.pkey], ',', t5);
    assert [c.table] + [c.operation, c.pkey] == [c.table, c.operation, c.pkey];
    JoinCons(x, [c.table, c.operation, c.pkey], ',', t4);
    assert [x] + [c.table, c.operation, c.pkey] == [x, c.table, c.operation, c.pkey];
    JoinCons(Type, [x, c.table, c.operation, c.pkey], ',', t3);
    assert [Type] + [x, c.table, c.operation, c.pkey] == [Type, x, c.table, c.operation, c.pkey];
    JoinCons(Version, [Type, x, c.table, c.operation, c.pkey], ',', t2);
    assert [Version] + [Type, x, c.table, c.operation, c.pkey] == CsvFields(c);
    CommaAssoc(x, c.table, c.operation, c.pkey);
  }

  lemma CommaAssoc(x: string, table: string, op: string, pkey: string)
    ensures Version + "," + (Type + "," + (x + "," + (table + "," + (op + "," + pkey))))
         == Tag + x + "," + table + "," + op + "," + pkey
  {
  }

  /**
   * `produce_formatted_message` of each variant. The compact format has four
   * slots after the tag, so a `FullChange`, which unpacks to two fields, makes
   * `str.format` raise an IndexError. `toJson` stands for `json.dumps` of the
   * change's fields.
   */
  function ProduceFormattedMessage(kind: FormatterKind, toJson: AnyChange -> string, c: AnyChange): (r: Result<Formatted>)
    ensures r.Err? <==> kind == Csv && c.WholeChange?
    ensures r.Err? ==> r.error == Runtime(IndexError)
    ensures r.Ok? ==> r.value.change == c
    ensures r.Ok? ==> (r.value.Message? <==> kind != Plain)
    ensures r.Ok? && r.value.Message? ==> Tag <= r.value.fmtMsg
  {
    match kind
    case Plain => Ok(Unformatted(c))
    case Csv =>
      if c.WholeChange? then Err(Runtime(IndexError))
      else
        CsvLayout(c.c);
        Ok(Message(c, CsvText(c.c)))
    case CsvPayload => Ok(Message(c, Tag + toJson(c)))
  }

  /** The compact text of a key change, in full. */
  lemma CsvMessage(toJson: AnyChange -> string, c: Change)
    ensures ProduceFormattedMessage(Csv, toJson, KeyChange(c))
         == Ok(Message(KeyChange(c), Tag + PyStr(c.xid) + "," + c.table + "," + c.operation + "," + c.pkey))
  {
    CsvLayout(c);
  }

  /** The self-describing text is the tag followed by the JSON text of the change. */
  lemma CsvPayloadMessage(toJson: AnyChange -> string, c: AnyChange)
    ensures var r := ProduceFormattedMessage(CsvPayload, toJson, c);
      r.Ok? && r.value.Message? && r.value.fmtMsg[|Tag|..] == toJson(c)
  {
  }

  /**
   * When no field holds a comma, splitting the compact text on commas gives
   * the tag fields and then the change's four fields back.
   */
  lemma CsvRoundTrip(c: Change)
    requires ',' !in PyStr(c.xid) && ',' !in c.table && ',' !in c.operation && ',' !in c.pkey
    ensures Split(CsvText(c), ',') == [Version, Type, PyStr(c.xid), c.table, c.operation, c.pkey]
  {
    var f := CsvFields(c);
    assert forall k :: 0 <= k < |f| ==> ',' !in f[k];
    SplitJoin(f, ',');
  }

  /**
   * Hence two such key changes that give the same compact text are the same
   * change, when both xids are text (test_decoding) or both are integers
   * (wal2json).
   */
  lemma CsvInjective(c1: Change, c2: Change)
    requires (c1.xid.Str? && c2.xid.Str? && ',' !in c1.xid.s && ',' !in c2.xid.s) || (c1.xid.Int? && c2.xid.Int?)
    requires ',' !in c1.table && ',' !in c1.operation && ',' !in c1.pkey
    requires ',' !in c2.table && ',' !in c2.operation && ',' !in c2.pkey
    requires CsvText(c1) == CsvText(c2)
    ensures c1 == c2
  {
    IntTextCommaFree(c1.xid);
    IntTextCommaFree(c2.xid);
    CsvRoundTrip(c1);
    CsvRoundTrip(c2);
    var p1 := Split(CsvText(c1), ',');
    assert p1[2] == PyStr(c1.xid) == PyStr(c2.xid);
    assert p1[3] == c1.table && p1[4] == c1.operation && p1[5] == c1.pkey;
    if c1.xid.Int? {
      PyStrIntInjective(c1.xid.i, c2.xid.i);
    }
  }

  /** The text of an integer holds no comma. */
  lemma IntTextCommaFree(v: Value)
    ensures v.Int? ==> ',' !in PyStr(v)
  {
    if v.Int? {
      var r := PyStr(v);
      assert forall k :: 0 <= k < |r| ==> r[k] != ',';
    }
  }

  /** `Formatter.__call__`: every change formatted, in order; the first failure propagates. */
  function Format(kind: FormatterKind, toJson: AnyChange -> string, cs: seq<AnyChange>): Result<seq<Formatted>>
  {
    if cs == [] then Ok([])
    else
      match ProduceFormattedMessage(kind, toJson, cs[0])
      case Err(e) => Err(e)
      case Ok(m) =>
        match Format(kind, toJson, cs[1..])
        case Err(e) => Err(e)
        case Ok(ms) => Ok([m] + ms)
  }

  /** Every change of `cs` formats without error. */
  predicate AllFormat(kind: FormatterKind, toJson: AnyChange -> string, cs: seq<AnyChange>)
  {
    forall i :: 0 <= i < |cs| ==> ProduceFormattedMessage(kind, toJson, cs[i]).Ok?
  }

  lemma AllFormatCons(kind: FormatterKind, toJson: AnyChange -> string, cs: seq<AnyChange>)
    requires cs != []
    ensures AllFormat(kind, toJson, cs)
        <==> ProduceFormattedMessage(kind, toJson, cs[0]).Ok? && AllFormat(kind, toJson, cs[1..])
  {
    var rest := cs[1..];
    assert forall i :: 0 <= i < |rest| ==> rest[i] == cs[i + 1];
    if ProduceFormattedMessage(kind, toJson, cs[0]).Ok? && AllFormat(kind, toJson, rest) {
      forall i | 0 <= i < |cs|
        ensures ProduceFormattedMessage(kind, toJson, cs[i]).Ok?
      {
        if i > 0 {
          assert cs[i] == rest[i - 1];
        }
      }
    }
  }

  /**
   * Formatting is a pointwise map: it succeeds exactly when every change
   * formats, and then has one result per change, the i-th from the i-th.
   */
  lemma {:induction false} FormatPointwise(kind: FormatterKind, toJson: AnyChange -> string, cs: seq<AnyChange>)
    ensures Format(kind, toJson, cs).Ok? <==> AllFormat(kind, toJson, cs)
    ensures var r := Format(kind, toJson, cs);
      r.Ok? ==> (|r.value| == |cs| &&
        forall i :: 0 <= i < |cs| ==> r.value[i] == ProduceFormattedMessage(kind, toJson, cs[i]).value)
    decreases |cs|
  {
    if cs != [] {
      var rest := cs[1..];
      FormatPointwise(kind, toJson, rest);
      AllFormatCons(kind, toJson, cs);
      var r := Format(kind, toJson, cs);
      var head := ProduceFormattedMessage(kind, toJson, cs[0]);
      var rRest := Format(kind, toJson, rest);
      if head.Ok? && rRest.Ok? {
        assert r == Ok([head.value] + rRest.value);
        forall i | 0 <= i < |cs|
          ensures r.value[i] == ProduceFormattedMessage(kind, toJson, cs[i]).value
        {
          if i > 0 {
            assert cs[i] == rest[i - 1] && r.value[i] == rRest.value[i - 1];
          }
        }
      }
    }
  }

  /** The error reported is that of the first change that fails to format. */
  lemma {:induction false} FormatFirstError(kind: FormatterKind, toJson: AnyChange -> string, cs: seq<AnyChange>, i: nat)
    requires i < |cs| && ProduceFormattedMessage(kind, toJson, cs[i]).Err?
    requires forall j :: 0 <= j < i ==> ProduceFormattedMessage(kind, toJson, cs[j]).Ok?
    ensures Format(kind, toJson, cs) == Err(ProduceFormattedMessage(kind, toJson, cs[i]).error)
    decreases i
  {
    if i > 0 {
      var rest := cs[1..];
      assert forall j :: 0 <= j < i - 1 ==> rest[j] == cs[j + 1];
      assert ProduceFormattedMessage(kind, toJson, cs[0]).Ok?;
      FormatFirstError(kind, toJson, rest, i - 1);
    }
  }

  /** The base formatter hands back every change unchanged. */
  lemma PlainIsIdentity(toJson: AnyChange -> string, cs: seq<AnyChange>)
    ensures var r := Format(Plain, toJson, cs);
      r.Ok? && |r.value| == |cs| && forall i :: 0 <= i < |cs| ==> r.value[i] == Unformatted(cs[i])
  {
    FormatPointwise(Plain, toJson, cs);
  }

  /**
   * The tagged formatters pair each change with a text that starts with the
   * tag; the compact one fails exactly when some change is a `FullChange`.
   */
  lemma TaggedFormat(kind: FormatterKind, toJson: AnyChange -> string, cs: seq<AnyChange>)
    requires kind != Plain
    ensures var r := Format(kind, toJson, cs);
      && (r.Err? <==> kind == Csv && exists i :: 0 <= i < |cs| && cs[i].WholeChange?)
      && (r.Ok? ==> |r.value| == |cs| && forall i :: 0 <= i < |cs| ==>
            r.value[i].Message? && r.value[i].change == cs[i] && Tag <= r.value[i].fmtMsg)
  {
    FormatPointwise(kind, toJson, cs);
  }
}
