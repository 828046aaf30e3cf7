/**
 * Uses of `TestStream`, each on a fresh stream whose native writer feeds a
 * fresh device: the repository's tests, and further uses of `inspect`,
 * `ignore` and the exception path, with what each observes stated as the
 * method's postcondition.
 */
module Scenarios {
  import opened Scripts
  import opened TestConsole

  /** A fresh stream over a fresh device, and a `TestStream` wrapping it. */
  method NewConsole() returns (d: Device, ts: TestStream)
    ensures fresh(d) && fresh(ts) && fresh(ts.stream)
    ensures ts.stream.write == Native(d) && d.log == []
  {
    d := new Device();
    var s := new Stream(d);
    ts := new TestStream(s);
  }

  /**
   * The live output a callback is given: empty at first, then growing in
   * place by each write. The steps of `inspectSync` (inspect, the callback's
   * body, restore) are written out here so that the callback's reads of the
   * array can be stated between its writes.
   */
  method LiveOutput(foo: string, bar: string, baz: string)
    returns (atStart: seq<string>, afterOne: seq<string>, afterThree: seq<string>, device: seq<string>)
    ensures atStart == []
    ensures afterOne == [foo]
    ensures afterThree == [foo, bar, baz]
    ensures device == []
  {
    var d, ts := NewConsole();
    var h := ts.Inspect();
    atStart := h.output.chunks;
    ts.stream.Write(foo);
    afterOne := h.output.chunks;
    ts.stream.Write(bar);
    ts.stream.Write(baz);
    afterThree := h.output.chunks;
    h.restore.Call();
    device := d.log;
  }

  /**
   * Writes made inside `inspectSync` are captured in order, starting from an
   * empty output; a write made after it returns reaches the device and not
   * the returned output.
   */
  method CaptureInOrder(foo: string, bar: string, baz: string)
    returns (captured: seq<string>, device: seq<string>)
    ensures captured == [foo, bar]
    ensures device == [baz]
  {
    var d, ts := NewConsole();
    var r := ts.InspectSync([Write(foo), Write(bar)]);
    assert NoThrow([Write(bar)]);
    QuietScript([Write(foo), Write(bar)], []);
    assert [Write(foo), Write(bar)][1..] == [Write(bar)];
    assert [Write(bar)][1..] == [];
    assert TopWrites([Write(bar)]) == [bar];
    assert [] + TopWrites([Write(foo), Write(bar)]) == [foo, bar];
    ts.stream.Write(baz);
    captured, device := r.value.chunks, d.log;
  }

  /** An inner `inspectSync` keeps its writes from the outer inspection. */
  method InnerScopeSuppresses(chunk: string) returns (outer: seq<string>, device: seq<string>)
    ensures outer == [] && device == []
  {
    var d, ts := NewConsole();
    var r := ts.InspectSync([InspectSync([Write(chunk)])]);
    assert NoThrow([Write(chunk)]);
    QuietScript([InspectSync([Write(chunk)])], []);
    outer, device := r.value.chunks, d.log;
  }

  /** After an inner `inspectSync` returns, writes reach the outer inspection again. */
  method InnerScopeRestores(chunk: string) returns (outer: seq<string>, device: seq<string>)
    ensures outer == [chunk] && device == []
  {
    var d, ts := NewConsole();
    var r := ts.InspectSync([InspectSync([]), Write(chunk)]);
    ScopeRestores([], [Write(chunk)], []);
    outer, device := r.value.chunks, d.log;
  }

  /**
   * Two inspections opened by hand and restored in reverse order: each write
   * goes to the innermost one still installed, and after both restores the
   * device receives writes again.
   */
  method NestedInspections(a1: string, b1: string, a2: string, d1: string)
    returns (outer: seq<string>, inner: seq<string>, device: seq<string>, native: bool)
    ensures outer == [a1, a2] && inner == [b1] && device == [d1]
    ensures native
  {
    var d, ts := NewConsole();
    var a := ts.Inspect();
    ts.stream.Write(a1);
    var b := ts.Inspect();
    ts.stream.Write(b1);
    b.restore.Call();
    ts.stream.Write(a2);
    a.restore.Call();
    ts.stream.Write(d1);
    outer, inner, device := a.output.chunks, b.output.chunks, d.log;
    native := ts.stream.write == Native(d);
  }

  /**
   * A callback that writes and then throws: the exception comes back
   * unchanged, the stream holds its native writer again, and the device
   * received nothing of what the callback wrote.
   */
  method ThrowingCallback(chunk: string, e: string, after: string)
    returns (r: Result<Output>, device: seq<string>, native: bool)
    ensures r == Threw(e)
    ensures device == [after]
    ensures native
  {
    var d, ts := NewConsole();
    r := ts.InspectSync([Write(chunk), Throw(e), Write(after)]);
    ThrowEscapes([Write(chunk)], e, [Write(after)], []);
    native := ts.stream.write == Native(d);
    ts.stream.Write(after);
    device := d.log;
  }

  /** `ignore` silences the device until its `restore` is called. */
  method IgnoreUntilRestore(hidden: string, shown: string) returns (device: seq<string>, native: bool)
    ensures device == [shown]
    ensures native
  {
    var d, ts := NewConsole();
    var restore := ts.Ignore();
    ts.stream.Write(hidden);
    restore.Call();
    ts.stream.Write(shown);
    device := d.log;
    native := ts.stream.write == Native(d);
  }

  /** `ignoreSync` discards what its callback writes and returns normally. */
  method IgnoreSyncDiscards(chunk: string) returns (outcome: Outcome, device: seq<string>)
    ensures outcome == Normal && device == []
  {
    var d, ts := NewConsole();
    outcome := ts.IgnoreSync([Write(chunk), Write(chunk)]);
    assert NoThrow([Write(chunk)]);
    QuietScript([Write(chunk), Write(chunk)], []);
    device := d.log;
  }
}
