/**
 * The interception mechanism of `TestStream`, as the JavaScript does it: a
 * stream whose `write` slot is overwritten by `inspect` with an interceptor
 * that pushes each chunk onto a fresh output array, and a `restore` closure
 * that puts back whatever writer was in the slot when `inspect` began.
 *
 * The scoped entry points `inspectSync` and `ignoreSync` run a caller's
 * callback, given as a script of `Scripts.Action`s and run by `Callback`.
 * Their contracts tie the stream's state after the call to `Scripts.Exec`,
 * whose own properties (ordered capture, isolation of nested scopes,
 * exceptions passing through unchanged) are proved in module Scripts.
 */
module TestConsole {
  import opened Scripts

  /** The device behind a stream: the text that really reached the terminal. */
  class Device {
    var log: seq<string>

    constructor ()
      ensures log == []
    {
      log := [];
    }
  }

  /** The JavaScript array an inspection's interceptor pushes onto. */
  class Output {
    var chunks: seq<string>

    constructor ()
      ensures chunks == []
    {
      chunks := [];
    }
  }

  /**
   * What a stream's `write` slot can hold: the stream's own native write,
   * which sends chunks to its device, or an inspection's interceptor, which
   * pushes them onto that inspection's output array and nowhere else.
   */
  datatype Writer = Native(device: Device) | Interceptor(output: Output) {

    /** The one object a call of this writer changes. */
    function Target(): object
    {
      if Native? then device else output
    }

    /** Everything this writer has received so far. */
    ghost function Contents(): seq<string>
      reads Target()
    {
      if Native? then device.log else output.chunks
    }
  }

  /** A process output stream (standard output or standard error). */
  class Stream {
    var write: Writer

    constructor (device: Device)
      ensures write == Native(device)
    {
      write := Native(device);
    }

    /**
     * A call `stream.write(chunk)`: it goes to whatever writer the slot holds
     * now, which receives exactly `chunk` at the end; no other object changes.
     */
    method Write(chunk: string)
      modifies write.Target()
      ensures write.Contents() == old(write.Contents()) + [chunk]
    {
      match write
      case Native(d) => d.log := d.log + [chunk];
      case Interceptor(o) => o.chunks := o.chunks + [chunk];
    }
  }

  /** The `restore` closure of one inspection. */
  class Restorer {
    const stream: Stream
    const originalWrite: Writer

    constructor (stream: Stream, originalWrite: Writer)
      ensures this.stream == stream && this.originalWrite == originalWrite
    {
      this.stream := stream;
      this.originalWrite := originalWrite;
    }

    /** Puts back the writer that was installed when the inspection began. */
    method Call()
      modifies stream`write
      ensures stream.write == originalWrite
    {
      stream.write := originalWrite;
    }
  }

  /** The object `inspect` returns: the live output array and `restore`. */
  datatype Handle = Handle(output: Output, restore: Restorer)

  /** How a call that may throw ended: with a value, or with an exception. */
  datatype Result<T> = Ok(value: T) | Threw(err: string)

  class TestStream {
    const stream: Stream

    constructor (stream: Stream)
      ensures this.stream == stream
    {
      this.stream := stream;
    }

    /**
     * Starts an inspection: the new output is empty, the slot now holds an
     * interceptor into it, and `restore` remembers the writer that was there.
     */
    method Inspect() returns (h: Handle)
      modifies stream`write
      ensures fresh(h.output) && fresh(h.restore)
      ensures h.output.chunks == []
      ensures stream.write == Interceptor(h.output)
      ensures h.restore.stream == stream && h.restore.originalWrite == old(stream.write)
    {
      var output := new Output();
      var originalWrite := stream.write;
      stream.write := Interceptor(output);
      var restore := new Restorer(stream, originalWrite);
      h := Handle(output, restore);
    }

    /**
     * Runs `fn` once under a fresh inspection and restores the stream on
     * every exit path. On a normal return the result is the inspection's
     * output array, holding exactly what `Exec` says `fn` wrote in its own
     * scope; an exception from `fn` comes back unchanged. Either way the slot
     * holds the writer it held before, and since the call may change no other
     * slot or sink, the previous writer received nothing.
     */
    method InspectSync(fn: seq<Action>) returns (r: Result<Output>)
      modifies stream`write
      decreases Size(fn), 1
      ensures stream.write == old(stream.write)
      ensures Exec(fn, []).outcome.Normal? ==>
                r.Ok? && fresh(r.value) && r.value.chunks == Exec(fn, []).sink
      ensures Exec(fn, []).outcome.Raised? ==> r == Threw(Exec(fn, []).outcome.err)
    {
      var inspect := Inspect();
      var outcome := Callback(this, fn);
      inspect.restore.Call();
      match outcome
      case Raised(e) => r := Threw(e);
      case Normal => r := Ok(inspect.output);
    }

    /** Starts an inspection as `Inspect` does and hands back only its `restore`. */
    method Ignore() returns (restore: Restorer)
      modifies stream`write
      ensures stream.write.Interceptor? && fresh(stream.write.output)
      ensures stream.write.output.chunks == []
      ensures fresh(restore)
      ensures restore.stream == stream && restore.originalWrite == old(stream.write)
    {
      var h := Inspect();
      restore := h.restore;
    }

    /**
     * Runs `fn` with no arguments inside `InspectSync`: the stream ends with
     * the writer it started with, what `fn` wrote is discarded, and an
     * exception from `fn` comes back unchanged.
     */
    method IgnoreSync(fn: seq<Action>) returns (outcome: Outcome)
      modifies stream`write
      decreases Size(fn), 2
      ensures stream.write == old(stream.write)
      ensures outcome == Exec(fn, []).outcome
    {
      var r := InspectSync(fn);
      outcome := if r.Threw? then Raised(r.err) else Normal;
    }
  }

  /**
   * A caller's callback: performs `acts` in order against `ts`'s stream,
   * stopping at the first exception. Its writes reach only the writer
   * installed when it was called, and what that writer holds afterwards is
   * what `Exec` gives.
   */
  method Callback(ts: TestStream, acts: seq<Action>) returns (outcome: Outcome)
    modifies ts.stream`write, ts.stream.write.Target()
    decreases Size(acts), 0
    ensures ts.stream.write == old(ts.stream.write)
    ensures Exec(acts, old(ts.stream.write.Contents())) == Run(outcome, ts.stream.write.Contents())
  {
    if acts == [] {
      return Normal;
    }
    match acts[0]
    case Write(c) =>
      ts.stream.Write(c);
      outcome := Callback(ts, acts[1..]);
    case Throw(e) =>
      outcome := Raised(e);
    case InspectSync(b) =>
      var r := ts.InspectSync(b);
      if r.Threw? {
        outcome := Raised(r.err);
      } else {
        outcome := Callback(ts, acts[1..]);
      }
    case IgnoreSync(b) =>
      var o := ts.IgnoreSync(b);
      if o.Raised? {
        outcome := o;
      } else {
        outcome := Callback(ts, acts[1..]);
      }
  }
}
