# test-console: stream interception, modelled in Dafny

`TestStream` wraps a process output stream (standard output or standard
error) and lets test code capture or silence what is written to it.
`inspect` saves whatever function sits in the stream's `write` slot. It then
installs an interceptor that pushes each written chunk onto a fresh `output`
array. It returns that array together with a `restore` closure, which puts
the saved function back. `inspectSync(fn)` wraps this in `try`/`finally`: it
calls `fn(output)`, restores the stream on every exit path, and returns the
output. `ignore` and `ignoreSync` are the variants that throw the output away.

The model has three modules:

- `TestConsole` (test_console.dfy) is the mechanism, in imperative form.
  - `Stream` has a mutable `write: Writer` slot.
  - A `Writer` is either the stream's `Native` write, which sends chunks to a
    `Device` log, or an `Interceptor` that pushes onto one inspection's
    `Output` array.
  - `Restorer` is the `restore` closure: it holds its stream and the original
    writer.
  - `TestStream` has `Inspect`, `InspectSync`, `Ignore` and `IgnoreSync`.
  - The frames are part of the contracts. A write modifies only the target of
    the installed writer. `Inspect`, `restore` and the scoped calls modify only
    the stream's `write` slot.
- `Scripts` (scripts.dfy) is the reference semantics.
  - A caller's callback is a script of `Action`s: write a chunk, open a
    nested `inspectSync`/`ignoreSync` scope, or throw.
  - `Exec` gives what the active sink holds after the script, and whether the
    script returned or threw.
  - `TestConsole.Callback` runs a script against a real `TestStream` and is
    proved equal to `Exec`. So everything proved about `Exec` holds for the
    mechanism, including nesting and the exception path.
- `Scenarios` (scenarios.dfy) holds uses of `TestStream` as methods whose
  postconditions state what each use observes. Three follow the repository's
  tests (src/_index_test.js:20-31 and 40-59); the others exercise `inspect`,
  `ignore`, `ignoreSync` and the exception path.

## Model

| member | source | states |
|---|---|---|
| `TestConsole.Output.constructor` | src/index.js:13 | every inspection starts from a new, empty output array |
| `TestConsole.Stream.Write` | src/index.js:17-19 | a write changes only the object of the currently installed writer, and that writer ends up with exactly the chunk appended at the end; an interceptor never passes it on to the writer it replaced |
| `TestConsole.Restorer.constructor` | src/index.js:23-25 | the `restore` closure is bound to the inspected stream and to the writer that was saved |
| `TestConsole.Restorer.Call` | src/index.js:24 | after `restore`, the slot holds exactly the writer that was installed when the inspection began; nothing else changes, so the captured output is left as it was |
| `TestConsole.TestStream.constructor` | src/index.js:7-9 | a `TestStream` wraps the given stream |
| `TestConsole.TestStream.Inspect` | src/index.js:11-27 | the returned output is new and empty; the slot now holds an interceptor into that output; the returned `restore` remembers the writer that was in the slot before |
| `TestConsole.TestStream.InspectSync` | src/index.js:29-38 | runs `fn` under a fresh inspection. On every exit path the slot holds the writer it held before, and no other slot or sink changes. On a normal return, the result is the fresh output holding what `Exec` says `fn` wrote in its own scope. If `fn` throws, the same exception comes back |
| `TestConsole.TestStream.Ignore` | src/index.js:40-42 | same effect on the stream as `Inspect` (a fresh, empty interceptor is installed); returns that inspection's `restore`, which reinstates the previous writer |
| `TestConsole.TestStream.IgnoreSync` | src/index.js:44-48 | the stream ends with the writer it started with; the outcome is the callback's own outcome (normal, or its exception unchanged); what it wrote is discarded |
| `TestConsole.Callback` | src/index.js:32 | the callback `fn`, run against the live stream: its writes go only to the writer installed when it was called; that writer is installed again at the end; and what that writer holds afterwards, with the outcome, is exactly `Exec` of the script |
| `Scripts.Exec` | src/index.js:29-38 | running a callback (with nested scoped calls) only appends to the sink that was active when it started |
| `Scripts.ExecFrame` | src/index.js:17-19 | what a callback appends to the active sink, and how it ends, do not depend on what the sink already held |
| `Scripts.ExecConcat` | src/index.js:31-36 | running two parts one after the other: the second part runs only if the first returned normally, and it continues from the sink the first part left |
| `Scripts.QuietScript` | src/index.js:13-19 | a callback that never throws returns normally, and the active sink receives exactly the callback's own top-level writes, in call order; writes inside nested scopes never reach it |
| `Scripts.ThrowEscapes` | src/index.js:31-36 | a throw ends the callback: the writes made before it stay, nothing after it runs, and the exception value is the one that was thrown |
| `Scripts.ScopedThrowPropagates` | src/index.js:29-38 | when the callback of a nested `inspectSync`/`ignoreSync` throws, the exception leaves the scope unchanged, the enclosing sink is exactly as it was before the scope, and the rest of the enclosing callback is skipped |
| `Scripts.ScopeRestores` | src/index.js:16-25 | after a nested scope whose callback does not throw, the enclosing sink is as it was before the scope, and the writes that follow reach it again |
| `Scripts.NormalMeansNoThrow` | src/index.js:31-36 | nothing is swallowed: a callback that returns normally contains no throw at any depth (with `QuietScript`, returning normally and containing no throw are equivalent) |
| `Scripts.ScopeRaises` | src/index.js:29-38 | when the callback of a nested `inspectSync`/`ignoreSync` throws anywhere, at any depth, the scope ends by that callback's own exception and the enclosing sink is exactly as it was before the scope |
| `Scripts.TopWrites` | src/index.js:17-19 | every chunk counted as a script's own top-level writes was passed to a `Write` of that script |
| `Scenarios.NewConsole` | src/index.js:4-9 | a `TestStream` over a stream whose native writer feeds a fresh, empty device |
| `Scenarios.LiveOutput` | src/_index_test.js:20-31 | the output array given to the callback is empty at first, holds `[foo]` after one write and `[foo, bar, baz]` after three, read in place between the writes; the device receives none of them |
| `Scenarios.CaptureInOrder` | src/index.js:29-38 | writes of `foo` and `bar` inside `inspectSync` come back as `[foo, bar]`; a later write of `baz` reaches the device and not that output |
| `Scenarios.InnerScopeSuppresses` | src/_index_test.js:40-48 | an inner `inspectSync` keeps its writes out of the outer inspection and off the device |
| `Scenarios.InnerScopeRestores` | src/_index_test.js:50-59 | after an inner `inspectSync` returns, a write reaches the outer inspection again |
| `Scenarios.NestedInspections` | src/index.js:11-27 | with inspections A and then B opened by hand, writes go to B only. After B's `restore` they go to A again. After A's `restore` they reach the device, and the stream holds its native writer |
| `Scenarios.ThrowingCallback` | src/index.js:31-36 | a callback that writes and then throws: the exception comes back unchanged, the stream holds its native writer again, and the device received none of the callback's writes |
| `Scenarios.IgnoreUntilRestore` | src/index.js:40-42 | after `ignore`, writes do not reach the device until the returned `restore` is called; after it, they do |
| `Scenarios.IgnoreSyncDiscards` | src/index.js:44-48 | `ignoreSync` returns normally and the device receives none of its callback's writes |

## Left out

- `TestConsole.TestStream.InspectSync`: the contract does not say that `fn` is called exactly once, before the call returns. The body calls `Callback` once, between `Inspect` and `restore`, but no postcondition states it.
- The callback's reading of the `output` array passed to it is not modelled: scripts only write, nest scoped calls, and throw. That the array is live (it grows in place at each write) follows from `Stream.Write` acting on that same `Output` object.
- A callback that calls `inspect`/`ignore` by hand is not part of `Action`. Restores made out of order are not modelled at all: `restore` only writes back the saved writer, and the model claims no stack behaviour beyond what that gives.
- Binding to the real `process.stdout` and `process.stderr` (src/index.js:4-5) and actual device output: a stream's native write is modelled as appending to a `Device` log.
- Exceptions thrown by a writer itself are not modelled; in the model a write always succeeds. Exception values are modelled as strings.
- The newline that `console.log` adds (src/_index_test.js:33-38) belongs to Node's console, not to this code.
- The terminal-mode (`isTTY`) option, `inspectAsync`/`ignoreAsync`, the `"data"` event on the handle, and argument-shape validation with its error messages: none of them appears in src/index.js, and the model follows that code.
- Concurrency: the code has no asynchronous parts.
- Callbacks cannot catch exceptions: `Action` has no try/catch. A JavaScript callback may catch the exception of a nested `inspectSync` and keep writing; for such callers `Scripts.ScopedThrowPropagates` and `Scripts.ScopeRaises` say nothing about the rest of the enclosing callback. What the mechanism itself promises still covers them: `TestStream.InspectSync` restores the slot and hands back the exception as `Threw`.
- The interceptor at src/index.js:17-19 takes only the chunk: it drops `write`'s encoding and completion-callback arguments and returns `undefined`. `Stream.Write` takes the chunk alone and returns nothing, so none of those arguments or return values are modelled.
