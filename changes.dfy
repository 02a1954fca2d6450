/**
 * The values that flow through the pipeline: the `Change` and `FullChange`
 * records, a decoded wal2json document, and the errors a parse can raise.
 */
module Changes {
  import opened Text

  datatype Option<+T> = None | Some(value: T)

  /** The scalar JSON values a decoded wal2json document carries (strings for test_decoding). */
  datatype Value = Null | Bool(b: bool) | Int(i: int) | Str(s: string)

  /** Python's `str(v)`, which is also what `'{}'.format(v)` prints for these values. */
  function PyStr(v: Value): (r: string)
    ensures v.Str? ==> r == v.s
    ensures v.Null? ==> r == "None"
    ensures v.Bool? ==> r == if v.b then "True" else "False"
    ensures v.Int? ==> |r| >= 1 && forall k :: 0 <= k < |r| ==> IsDigit(r[k]) || (k == 0 && r[k] == '-')
    ensures v.Int? ==> (r[0] == '-' <==> v.i < 0)
    ensures v.Int? && v.i >= 0 ==> DecimalValue(r) == v.i
    ensures v.Int? && v.i < 0 ==> DecimalValue(r[1..]) == -v.i
    ensures v.Int? ==> var d := if v.i < 0 then r[1..] else r; |d| >= 1 && (|d| == 1 || d[0] != '0')
  {
    match v
    case Null => "None"
    case Bool(b) => if b then "True" else "False"
    case Int(i) => if i < 0 then "-" + NatToDecimal(-i) else NatToDecimal(i)
    case Str(s) => s
  }

  /** Distinct integers print differently. */
  lemma PyStrIntInjective(i: int, j: int)
    requires PyStr(Int(i)) == PyStr(Int(j))
    ensures i == j
  {
    var r := PyStr(Int(i));
    if i < 0 {
      assert DecimalValue(r[1..]) == -i == -j;
    } else {
      assert DecimalValue(r) == i == j;
    }
  }

  /** A row change reduced to its primary key. */
  datatype Change = Change(xid: Value, table: string, operation: string, pkey: string)

  /** One element of the `change` array of a wal2json document. */
  datatype Entry = Entry(
    kind: string,
    schema: string,
    table: string,
    columnNames: seq<string>,
    columnTypes: seq<string>,
    columnValues: seq<Value>)

  /** A row change kept whole (full-capture mode). */
  datatype FullChange = FullChange(xid: Value, change: Entry)

  /** A decoded wal2json payload that is truthy: an object with `xid` and `change`. */
  datatype Wal2JsonDoc = Wal2JsonDoc(xid: Value, change: seq<Entry>)

  /** What a preprocessor emits: one of the two record shapes. */
  datatype AnyChange = KeyChange(c: Change) | WholeChange(f: FullChange)

  /** Python runtime exceptions, as opposed to the errors `_log_and_raise` raises. */
  datatype RuntimeError = IndexError | ValueError

  /** The errors `_log_and_raise` raises carry what their message prints; runtime errors only their kind. */
  datatype Error =
    | MissingTable(table: string)
    | MissingPrimaryKey(table: string)
    | UnknownChange(payload: string)
    | Runtime(kind: RuntimeError)
  {
    /** The text `_log_and_raise` logs and raises. */
    function Message(): string
    {
      match this
      case MissingTable(t) => MissingTablePrefix + t + "\""
      case MissingPrimaryKey(t) => MissingPrimaryKeyPrefix + t + "\""
      case UnknownChange(p) => UnknownChangePrefix + p + "\""
      case Runtime(IndexError) => "IndexError"
      case Runtime(ValueError) => "ValueError"
    }
  }

  datatype Result<+T> = Ok(value: T) | Err(error: Error)

  const MissingTablePrefix: string := "Unable to locate table: \""
  const MissingPrimaryKeyPrefix: string := "Unable to locate primary key for table \""
  const UnknownChangePrefix: string := "Unknown change: \""

  /** Which deliberately raised error a message belongs to, read off the fixed text it starts with. */
  function MessageKind(m: string): nat
  {
    if UnknownChangePrefix <= m then 2 else if MissingTablePrefix <= m then 0 else 1
  }

  function Kind(e: Error): nat
  {
    match e
    case MissingTable(_) => 0
    case MissingPrimaryKey(_) => 1
    case UnknownChange(_) => 2
    case Runtime(_) => 3
  }

  /** Two deliberately raised errors with the same message are the same error: the message loses nothing. */
  lemma MessageDetermined(e1: Error, e2: Error)
    requires !e1.Runtime? && !e2.Runtime?
    requires e1.Message() == e2.Message()
    ensures e1 == e2
  {
    MessageKindOf(e1);
    MessageKindOf(e2);
    match e1 {
      case MissingTable(a) =>
        QuotedTail(MissingTablePrefix, a, e2.table);
      case MissingPrimaryKey(a) =>
        QuotedTail(MissingPrimaryKeyPrefix, a, e2.table);
      case UnknownChange(a) =>
        QuotedTail(UnknownChangePrefix, a, e2.payload);
    }
  }

  /** The fixed text a deliberately raised error's message starts with tells its kind. */
  lemma MessageKindOf(e: Error)
    requires !e.Runtime?
    ensures MessageKind(e.Message()) == Kind(e)
  {
    var m := e.Message();
    match e {
      case MissingTable(t) =>
        assert m[..|MissingTablePrefix|] == MissingTablePrefix;
        assert m[2] != UnknownChangePrefix[2];
      case MissingPrimaryKey(t) =>
        assert m[2] != UnknownChangePrefix[2];
        assert m[17] != MissingTablePrefix[17];
      case UnknownChange(p) =>
        assert m[..|UnknownChangePrefix|] == UnknownChangePrefix;
    }
  }

  /** The quoted part of a message is determined by the message. */
  lemma QuotedTail(prefix: string, a: string, b: string)
    requires prefix + a + "\"" == prefix + b + "\""
    ensures a == b
  {
    var m := prefix + a + "\"";
    assert m[|prefix|..|m| - 1] == a;
    assert (prefix + b + "\"")[|prefix|..|m| - 1] == b;
  }
}
