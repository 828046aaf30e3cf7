/**
 * The reference semantics of scoped interception.
 *
 * A caller's callback is represented by a script of actions: a write to the
 * intercepted stream, a nested `inspectSync` or `ignoreSync` scope with a
 * callback of its own, or a throw. `Exec` runs a script against the contents
 * of the sink that is currently receiving writes, and says what each scope
 * sees as a plain stack discipline: a nested scope starts a fresh, empty
 * capture, its writes never reach the enclosing sink, and its exit (normal or
 * by an exception) hands the stream back to the enclosing sink unchanged.
 *
 * The imperative model in module TestConsole is proved to behave exactly like
 * `Exec`; the lemmas here state what `Exec` promises.
 */
module Scripts {

  /** What a callback does, one step at a time. */
  datatype Action =
    | Write(chunk: string)                // a call of the stream's current `write`
    | InspectSync(body: seq<Action>)      // a nested `inspectSync(fn)`, `fn` doing `body`
    | IgnoreSync(body: seq<Action>)       // a nested `ignoreSync(fn)`, `fn` doing `body`
    | Throw(err: string)                  // the callback throws `err`

  /** How a callback ended: by returning, or by throwing an exception. */
  datatype Outcome = Normal | Raised(err: string)

  /** The outcome of a script together with the contents of the active sink. */
  datatype Run = Run(outcome: Outcome, sink: seq<string>)

  /** A measure that shrinks on every step and on entering a nested scope. */
  function Size(acts: seq<Action>): nat
    decreases acts
  {
    if acts == [] then 0 else ActionSize(acts[0]) + Size(acts[1..])
  }

  function ActionSize(a: Action): (n: nat)
    decreases a
    ensures n >= 1
    ensures a.InspectSync? || a.IgnoreSync? ==> n > Size(a.body)
  {
    match a
    case Write(_) => 1
    case Throw(_) => 1
    case InspectSync(b) => 1 + Size(b)
    case IgnoreSync(b) => 1 + Size(b)
  }

  /** True when no action of the script, at any depth, throws. */
  predicate NoThrow(acts: seq<Action>)
    decreases Size(acts)
  {
    acts == [] ||
    ((match acts[0]
      case Write(_) => true
      case Throw(_) => false
      case InspectSync(b) => NoThrow(b)
      case IgnoreSync(b) => NoThrow(b)) && NoThrow(acts[1..]))
  }

  /** The chunks written by the script's own top-level `Write` actions, in order. */
  function TopWrites(acts: seq<Action>): (w: seq<string>)
    ensures forall i :: 0 <= i < |w| ==> Write(w[i]) in acts
  {
    if acts == [] then []
    else (if acts[0].Write? then [acts[0].chunk] else []) + TopWrites(acts[1..])
  }

  /**
   * Runs `acts` with writes going to a sink that already holds `sink`.
   * A nested scope runs its body against a fresh empty capture; if the body
   * throws, the exception leaves the scope after the stream has been handed
   * back, and the rest of the script does not run.
   */
  function Exec(acts: seq<Action>, sink: seq<string>): (r: Run)
    decreases Size(acts), 1
    ensures sink <= r.sink
  {
    if acts == [] then Run(Normal, sink)
    else
      match acts[0]
      case Write(c) => Exec(acts[1..], sink + [c])
      case Throw(e) => Run(Raised(e), sink)
      case InspectSync(b) => Scope(b, acts[1..], sink)
      case IgnoreSync(b) => Scope(b, acts[1..], sink)
  }

  /** A nested scope with callback `body`, followed by `rest`. */
  function Scope(body: seq<Action>, rest: seq<Action>, sink: seq<string>): (r: Run)
    decreases Size(body) + Size(rest) + 1, 0
    ensures sink <= r.sink
  {
    var inner := Exec(body, []);
    if inner.outcome.Raised? then Run(inner.outcome, sink) else Exec(rest, sink)
  }

  /**
   * What a script adds to its sink does not depend on what the sink already
   * held: the sink is only ever appended to, and by the same chunks.
   */
  lemma {:induction false} ExecFrame(acts: seq<Action>, sink: seq<string>)
    decreases Size(acts)
    ensures Exec(acts, sink) == Run(Exec(acts, []).outcome, sink + Exec(acts, []).sink)
  {
    if acts != [] {
      match acts[0]
      case Write(c) =>
        ExecFrame(acts[1..], sink + [c]);
        ExecFrame(acts[1..], [c]);
        assert [] + [c] == [c];
        assert sink + [c] + Exec(acts[1..], []).sink == sink + ([c] + Exec(acts[1..], []).sink);
      case Throw(_) =>
      case InspectSync(b) =>
        if !Exec(b, []).outcome.Raised? { ExecFrame(acts[1..], sink); }
      case IgnoreSync(b) =>
        if !Exec(b, []).outcome.Raised? { ExecFrame(acts[1..], sink); }
    }
  }

  /**
   * Running two scripts one after the other: the second runs only if the
   * first returned normally, and starts from the sink the first left.
   */
  lemma {:induction false} ExecConcat(a: seq<Action>, b: seq<Action>, sink: seq<string>)
    decreases Size(a)
    ensures Exec(a + b, sink) ==
            (var first := Exec(a, sink);
             if first.outcome.Raised? then first else Exec(b, first.sink))
  {
    if a == [] {
      assert a + b == b;
    } else {
      assert (a + b)[0] == a[0];
      assert (a + b)[1..] == a[1..] + b;
      match a[0]
      case Write(c) => ExecConcat(a[1..], b, sink + [c]);
      case Throw(_) =>
      case InspectSync(body) =>
        if !Exec(body, []).outcome.Raised? { ExecConcat(a[1..], b, sink); }
      case IgnoreSync(body) =>
        if !Exec(body, []).outcome.Raised? { ExecConcat(a[1..], b, sink); }
    }
  }

  /**
   * A script that never throws returns normally, and its sink receives exactly
   * its own top-level writes in order; writes made inside nested scopes are
   * captured there and never reach this sink.
   */
  lemma {:induction false} QuietScript(acts: seq<Action>, sink: seq<string>)
    requires NoThrow(acts)
    decreases Size(acts)
    ensures Exec(acts, sink) == Run(Normal, sink + TopWrites(acts))
  {
    if acts == [] {
      assert sink + [] == sink;
    } else {
      match acts[0]
      case Write(c) =>
        QuietScript(acts[1..], sink + [c]);
        assert sink + [c] + TopWrites(acts[1..]) == sink + ([c] + TopWrites(acts[1..]));
      case InspectSync(b) =>
        QuietScript(b, []);
        QuietScript(acts[1..], sink);
        assert [] + TopWrites(acts[1..]) == TopWrites(acts[1..]);
      case IgnoreSync(b) =>
        QuietScript(b, []);
        QuietScript(acts[1..], sink);
        assert [] + TopWrites(acts[1..]) == TopWrites(acts[1..]);
    }
  }

  /**
   * A throw ends the script: the writes before it stay in the sink, nothing
   * after it runs, and the exception value is the one thrown.
   */
  lemma ThrowEscapes(pre: seq<Action>, e: string, post: seq<Action>, sink: seq<string>)
    requires NoThrow(pre)
    ensures Exec(pre + [Throw(e)] + post, sink) == Run(Raised(e), sink + TopWrites(pre))
  {
    assert pre + [Throw(e)] + post == pre + ([Throw(e)] + post);
    ExecConcat(pre, [Throw(e)] + post, sink);
    QuietScript(pre, sink);
  }

  /**
   * An exception thrown inside a nested scope leaves it unchanged: the
   * enclosing sink keeps what it had (nothing the inner callback wrote
   * reaches it), and the rest of the enclosing script is skipped.
   */
  lemma ScopedThrowPropagates(pre: seq<Action>, e: string, post: seq<Action>,
                              rest: seq<Action>, sink: seq<string>)
    requires NoThrow(pre)
    ensures Exec([InspectSync(pre + [Throw(e)] + post)] + rest, sink) == Run(Raised(e), sink)
    ensures Exec([IgnoreSync(pre + [Throw(e)] + post)] + rest, sink) == Run(Raised(e), sink)
  {
    ThrowEscapes(pre, e, post, []);
    assert ([InspectSync(pre + [Throw(e)] + post)] + rest)[1..] == rest;
    assert ([IgnoreSync(pre + [Throw(e)] + post)] + rest)[1..] == rest;
  }

  /**
   * A nested scope whose callback does not throw hands the stream back:
   * the enclosing sink is as it was before the scope, and the writes that
   * follow land in it again, in order.
   */
  lemma ScopeRestores(body: seq<Action>, rest: seq<Action>, sink: seq<string>)
    requires NoThrow(body)
    ensures Exec([InspectSync(body)] + rest, sink) == Exec(rest, sink)
    ensures Exec([IgnoreSync(body)] + rest, sink) == Exec(rest, sink)
  {
    QuietScript(body, []);
    assert ([InspectSync(body)] + rest)[1..] == rest;
    assert ([IgnoreSync(body)] + rest)[1..] == rest;
  }

  /**
   * The converse of `QuietScript`: nothing is swallowed. A script that
   * returns normally contains no throw at any depth, so a throw anywhere in
   * it, however deeply nested, makes it end by an exception.
   */
  lemma {:induction false} NormalMeansNoThrow(acts: seq<Action>, sink: seq<string>)
    requires Exec(acts, sink).outcome.Normal?
    decreases Size(acts)
    ensures NoThrow(acts)
  {
    if acts != [] {
      match acts[0]
      case Write(c) => NormalMeansNoThrow(acts[1..], sink + [c]);
      case InspectSync(b) =>
        NormalMeansNoThrow(b, []);
        NormalMeansNoThrow(acts[1..], sink);
      case IgnoreSync(b) =>
        NormalMeansNoThrow(b, []);
        NormalMeansNoThrow(acts[1..], sink);
    }
  }

  /**
   * A nested scope whose callback throws anywhere, at any depth, ends the
   * enclosing script with the callback's own exception, leaving the enclosing
   * sink exactly as it was before the scope.
   */
  lemma ScopeRaises(body: seq<Action>, rest: seq<Action>, sink: seq<string>)
    requires !NoThrow(body)
    ensures Exec(body, []).outcome.Raised?
    ensures Exec([InspectSync(body)] + rest, sink) == Run(Exec(body, []).outcome, sink)
    ensures Exec([IgnoreSync(body)] + rest, sink) == Run(Exec(body, []).outcome, sink)
  {
    if Exec(body, []).outcome.Normal? {
      NormalMeansNoThrow(body, []);
    }
  }
}
