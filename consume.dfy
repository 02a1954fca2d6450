/**
 * The consume cycle: for one replication event it hands every formatted
 * message to the writer, replacing those whose operation the filter rejects
 * by `None`, acknowledges the event at its start position when some put was
 * accepted, and keeps a ten-second accounting window.
 */
module Consuming {
  import opened Changes

  /** The length, in seconds, of an accounting window. */
  const WindowLength: nat := 10

  /** The accounting state: when the window started, bytes seen and events seen in it. */
  datatype Window = Window(start: int, size: int, count: int)

  /** The window rolls at a whole second that is a multiple of ten and is not the current start. */
  predicate Rolls(w: Window, now: int)
  {
    now % WindowLength == 0 && now != w.start
  }

  /**
   * The window after one event of `dataSize` bytes at whole second `now`: the
   * event is counted, and then, if the window rolls, it restarts empty at `now`.
   */
  function WindowAfter(w: Window, now: int, dataSize: nat): Window
  {
    var counted := Window(w.start, w.size + dataSize, w.count + 1);
    if Rolls(w, now) then Window(now, 0, 0) else counted
  }

  /** A window that starts on a multiple of ten keeps doing so. */
  lemma WindowStartAligned(w: Window, now: int, dataSize: nat)
    requires w.start % WindowLength == 0
    ensures WindowAfter(w, now, dataSize).start % WindowLength == 0
  {
  }

  /** The start moves exactly when the window rolls, and only forward to the event's second. */
  lemma WindowStartMoves(w: Window, now: int, dataSize: nat)
    ensures WindowAfter(w, now, dataSize).start != w.start <==> Rolls(w, now)
    ensures WindowAfter(w, now, dataSize).start in {w.start, now}
  {
  }

  /** A second event in the same second never rolls the window again. */
  lemma NoSecondRoll(w: Window, now: int, size1: nat, size2: nat)
    ensures var w1 := WindowAfter(w, now, size1);
      WindowAfter(w1, now, size2) == Window(w1.start, w1.size + size2, w1.count + 1)
  {
  }

  /** Without a roll the counters grow: bytes by the sum of the sizes, events by one each. */
  lemma {:induction false} WindowAccumulates(w: Window, now: int, sizes: seq<nat>)
    requires now % WindowLength != 0 || now == w.start
    ensures WindowAfterAll(w, now, sizes) == Window(w.start, w.size + Sum(sizes), w.count + |sizes|)
    decreases |sizes|
  {
    if sizes != [] {
      var pre := sizes[..|sizes| - 1];
      WindowAccumulates(w, now, pre);
      assert Sum(sizes) == Sum(pre) + sizes[|sizes| - 1];
    }
  }

  function Sum(xs: seq<nat>): nat
  {
    if xs == [] then 0 else Sum(xs[..|xs| - 1]) + xs[|xs| - 1]
  }

  /** The window after several events in the same second. */
  function WindowAfterAll(w: Window, now: int, sizes: seq<nat>): Window
  {
    if sizes == [] then w else WindowAfter(WindowAfterAll(w, now, sizes[..|sizes| - 1]), now, sizes[|sizes| - 1])
  }

  /** What is passed to `put_message` for one message: itself, or `None` when it is filtered out. */
  function Outgoing<M>(ops: seq<string>, shouldSend: (seq<string>, M) -> bool, msgs: seq<M>): (puts: seq<Option<M>>)
    ensures |puts| == |msgs|
    ensures forall i :: 0 <= i < |msgs| ==>
      puts[i] == if shouldSend(ops, msgs[i]) then Some(msgs[i]) else None
  {
    if msgs == [] then []
    else
      var last := msgs[|msgs| - 1];
      Outgoing(ops, shouldSend, msgs[..|msgs| - 1]) + [if shouldSend(ops, last) then Some(last) else None]
  }

  /** The messages that actually reach the writer, in formatter order. */
  function Sent<M>(puts: seq<Option<M>>): seq<M>
  {
    if puts == [] then []
    else Sent(puts[..|puts| - 1]) + if puts[|puts| - 1].Some? then [puts[|puts| - 1].value] else []
  }

  /** The messages that pass the filter, in order. */
  function Allowed<M>(ops: seq<string>, shouldSend: (seq<string>, M) -> bool, msgs: seq<M>): (r: seq<M>)
    ensures |r| <= |msgs|
    ensures forall m :: m in r ==> m in msgs && shouldSend(ops, m)
    ensures forall i :: 0 <= i < |msgs| && shouldSend(ops, msgs[i]) ==> msgs[i] in r
  {
    if msgs == [] then []
    else
      var last := msgs[|msgs| - 1];
      Allowed(ops, shouldSend, msgs[..|msgs| - 1]) + if shouldSend(ops, last) then [last] else []
  }

  /** The filter keeps input order: filtering a concatenation concatenates the results. */
  lemma {:induction false} AllowedAppend<M>(ops: seq<string>, shouldSend: (seq<string>, M) -> bool, a: seq<M>, b: seq<M>)
    ensures Allowed(ops, shouldSend, a + b) == Allowed(ops, shouldSend, a) + Allowed(ops, shouldSend, b)
    decreases |b|
  {
    if b == [] {
      assert a + b == a;
    } else {
      var pre, last := b[..|b| - 1], b[|b| - 1];
      var ab := a + b;
      assert ab[..|ab| - 1] == a + pre && ab[|ab| - 1] == last;
      AllowedAppend(ops, shouldSend, a, pre);
      AllowedStep(ops, shouldSend, ab);
      AllowedStep(ops, shouldSend, b);
      var keep := if shouldSend(ops, last) then [last] else [];
      var sa, sp := Allowed(ops, shouldSend, a), Allowed(ops, shouldSend, pre);
      assert (sa + sp) + keep == sa + (sp + keep);
    }
  }

  /** One message is kept exactly when it passes the filter; with `AllowedAppend` this fixes `Allowed`. */
  lemma AllowedOne<M>(ops: seq<string>, shouldSend: (seq<string>, M) -> bool, m: M)
    ensures Allowed(ops, shouldSend, [m]) == if shouldSend(ops, m) then [m] else []
  {
    assert [m][..0] == [];
  }

  lemma AllowedStep<M>(ops: seq<string>, shouldSend: (seq<string>, M) -> bool, msgs: seq<M>)
    requires msgs != []
    ensures var last := msgs[|msgs| - 1];
      Allowed(ops, shouldSend, msgs) == Allowed(ops, shouldSend, msgs[..|msgs| - 1]) + if shouldSend(ops, last) then [last] else []
  {
  }

  /** The writer receives exactly the allowed messages, unchanged and in order. */
  lemma {:induction false} SentAreAllowed<M>(ops: seq<string>, shouldSend: (seq<string>, M) -> bool, msgs: seq<M>)
    ensures Sent(Outgoing(ops, shouldSend, msgs)) == Allowed(ops, shouldSend, msgs)
    decreases |msgs|
  {
    if msgs != [] {
      var pre := msgs[..|msgs| - 1];
      SentAreAllowed(ops, shouldSend, pre);
      var puts := Outgoing(ops, shouldSend, msgs);
      assert puts[..|puts| - 1] == Outgoing(ops, shouldSend, pre);
    }
  }

  /** Feedback goes to the event's start position exactly when some put was accepted. */
  function Feedback(dataStart: nat, putResults: seq<bool>): (r: Option<nat>)
    ensures r.Some? <==> exists i :: 0 <= i < |putResults| && putResults[i]
    ensures r.Some? ==> r.value == dataStart
  {
    if true in putResults then Some(dataStart) else None
  }

  /**
   * The `Consume` object. The formatter and the writer are not fields here:
   * `Call` receives the formatted messages and the writer's answers.
   */
  class Consume<M> {
    const filterOperations: seq<string>
    var curWindow: int
    var msgWindowSize: int
    var msgWindowCount: int

    constructor (filterOperations: seq<string>)
      ensures this.filterOperations == filterOperations
      ensures curWindow == 0 && msgWindowSize == 0 && msgWindowCount == 0
    {
      this.filterOperations := filterOperations;
      curWindow := 0;
      msgWindowSize := 0;
      msgWindowCount := 0;
    }

    function WindowState(): Window
      reads this
    {
      Window(curWindow, msgWindowSize, msgWindowCount)
    }

    /**
     * One cycle for an event at `dataStart` of `dataSize` bytes whose payload
     * formatted to `msgs`, at whole second `now`. `putResults[i]` is what the
     * writer answers to the i-th `put_message`. Returns the arguments of the
     * `put_message` calls, in order, and the `flush_lsn` of the feedback sent,
     * if any.
     */
    method Call(
      now: int, dataStart: nat, dataSize: nat, msgs: seq<M>,
      shouldSend: (seq<string>, M) -> bool, putResults: seq<bool>)
      returns (puts: seq<Option<M>>, flushLsn: Option<nat>)
      requires |putResults| == |msgs|
      modifies this`curWindow, this`msgWindowSize, this`msgWindowCount
      ensures puts == Outgoing(filterOperations, shouldSend, msgs)
      ensures flushLsn == Feedback(dataStart, putResults)
      ensures WindowState() == WindowAfter(old(WindowState()), now, dataSize)
    {
      msgWindowSize := msgWindowSize + dataSize;
      msgWindowCount := msgWindowCount + 1;
      puts := [];
      var accepted := false;
      var i := 0;
      while i < |msgs|
        invariant 0 <= i <= |msgs|
        invariant puts == Outgoing(filterOperations, shouldSend, msgs[..i])
        invariant accepted <==> true in putResults[..i]
      {
        var msg := msgs[i];
        puts := puts + [if shouldSend(filterOperations, msg) then Some(msg) else None];
        if putResults[i] {
          accepted := true;
        }
        assert msgs[..i + 1][..i] == msgs[..i];
        assert putResults[..i + 1] == putResults[..i] + [putResults[i]];
        i := i + 1;
      }
      assert msgs[..i] == msgs && putResults[..i] == putResults;
      flushLsn := if accepted then Some(dataStart) else None;
      if now % WindowLength == 0 && now != curWindow {
        curWindow := now;
        msgWindowSize := 0;
        msgWindowCount := 0;
      }
    }
  }

  /** The filter of the tests: the message starts with one of the allowed operations. */
  predicate StartsWithAny(ops: seq<string>, msg: string)
  {
    exists k :: 0 <= k < |ops| && ops[k] <= msg
  }

  /**
   * The first scenario, first half: with every put refused no feedback is
   * sent, and once puts are accepted feedback is sent at the event's start.
   * `t1` and `t2` are the unpatched clock readings of the two cycles.
   */
  method FeedbackScenario(t1: int, t2: int) returns (puts1: seq<Option<char>>, fb1: Option<nat>, fb2: Option<nat>)
    ensures |puts1| > 0
    ensures fb1 == None && fb2 == Some(10)
  {
    var consume := new Consume<char>(["insert", "update", "delete", "truncate"]);
    var sendAll := (ops: seq<string>, m: char) => true;
    // The mocked formatter returns the string 'fmt_msg', and the cycle iterates
    // it character by character: seven messages, hence seven put answers.
    var refused := [false, false, false, false, false, false, false];
    var accepted := [true, true, true, true, true, true, true];
    var puts2;
    puts1, fb1 := consume.Call(t1, 10, 100, "fmt_msg", sendAll, refused);
    puts2, fb2 := consume.Call(t2, 10, 100, "fmt_msg", sendAll, accepted);
  }

  /**
   * The first scenario, second half: from a window started at 10 s with zero
   * counters, a cycle at 11 s counts the event, one at 20 s rolls the window
   * to empty, and another at 20 s counts without rolling.
   */
  method WindowScenario() returns (w3: Window, w4: Window, w5: Window)
    ensures w3 == Window(10, 100, 1)
    ensures w4 == Window(20, 0, 0)
    ensures w5.size == 100
  {
    var consume := new Consume<char>(["insert", "update", "delete", "truncate"]);
    var sendAll := (ops: seq<string>, m: char) => true;
    // One put answer per character of the mocked 'fmt_msg', as above.
    var accepted := [true, true, true, true, true, true, true];
    consume.msgWindowSize := 0;
    consume.msgWindowCount := 0;
    consume.curWindow := 10;
    assert consume.WindowState() == Window(10, 0, 0);
    var puts, fb := consume.Call(11, 10, 100, "fmt_msg", sendAll, accepted);
    w3 := consume.WindowState();
    assert w3 == WindowAfter(Window(10, 0, 0), 11, 100);
    puts, fb := consume.Call(20, 10, 100, "fmt_msg", sendAll, accepted);
    w4 := consume.WindowState();
    assert w4 == WindowAfter(w3, 20, 100);
    puts, fb := consume.Call(20, 10, 100, "fmt_msg", sendAll, accepted);
    w5 := consume.WindowState();
    assert w5 == WindowAfter(w4, 20, 100);
  }

  /** With only `delete` allowed, two insert messages are each put as `None`, and no feedback follows. */
  method ExcludesScenario(now: int) returns (puts: seq<Option<string>>, fb: Option<nat>)
    ensures puts == [None, None]
    ensures fb == None
  {
    var ops: seq<string> := ["delete"];
    var consume := new Consume<string>(ops);
    puts, fb := consume.Call(now, 10, 100, ["insert_msg1", "insert_msg2"], StartsWithAny, [false, false]);
    assert !StartsWithAny(ops, "insert_msg1") by { assert ops[0][0] != "insert_msg1"[0]; }
    assert !StartsWithAny(ops, "insert_msg2") by { assert ops[0][0] != "insert_msg2"[0]; }
  }

  /** With `delete` allowed, both delete messages are put unchanged, and feedback is sent at 10. */
  method IncludesScenario(now: int) returns (puts: seq<Option<string>>, fb: Option<nat>)
    ensures puts == [Some("delete_msg1"), Some("delete_msg2")]
    ensures fb == Some(10)
  {
    var ops: seq<string> := ["delete"];
    var consume := new Consume<string>(ops);
    puts, fb := consume.Call(now, 10, 100, ["delete_msg1", "delete_msg2"], StartsWithAny, [true, true]);
    assert StartsWithAny(ops, "delete_msg1") by { assert ops[0] <= "delete_msg1"; }
    assert StartsWithAny(ops, "delete_msg2") by { assert ops[0] <= "delete_msg2"; }
  }
}
