# Adapter runtime, modelled in Dafny

`makeAdapter(executor, meta)` (src/index.ts) wraps an executor, an
asynchronous computation that takes an input function and an output
function, in a promise-like handle. The handle owns a registry of four
attachments: `then`, `catch`, `output` and `input`. Each starts at a fixed
default. Fluent setters rebind the attachments in place and return the
handle. Each call to `exec()` or `promise()` invokes the executor once with
the `input` and `output` attachments current at that moment. Its outcome
goes through the current `then`, and any failure goes through the current
`catch`.

The project has four modules, one per part of `makeAdapter`:

- `JsValues` (js_values.dfy): the JavaScript values the runtime handles
  (`undefined`, `null`, data, plain objects, `Error` objects) and
  `Settled`, the state of a settled promise or the result of a handler call
  (`Fulfilled` for a returned value, `Rejected` for a thrown one).
- `Registry` (registry.dfy): the handler types, the `Attachments` record
  and its defaults, the headless input wrapper, and `Call` (one setter
  call). `Apply` is the effect of one call on the registry and `ApplyChain`
  the effect of a fluent chain of calls. Lemmas state last-write-wins,
  idempotence, overwriting and commutation of setters.
- `Pipeline` (pipeline.dfy): the run behind `exec`/`promise`.
  `Run` is `executor(input, output).then(onThen).catch(onCatch)` on settled
  outcomes, together with its routing properties.
- `Adapters` (adapter.dfy): the `Adapter` class. Its fields are the four
  slots, the executor and the metadata. Its setters modify only their own
  field(s) and return `this`. `Exec`/`Promise` are proved against `Run`.
  A ghost log `invocations` records each executor invocation with the
  handlers it received. Client methods state four scenarios as contracts.
  Two come from the unit tests: pass-through on a fresh handle, and the
  unsupplied-`password` error. The other two are reconfiguration between
  runs and headless `password` input.

Handlers and the executor are Dafny function values. A handler that throws
returns `Rejected(reason)`. The executor's returned promise is modelled by
the `Settled` value it eventually reaches.

Three points of the code's behaviour:
- A headless mapping answers a missing key with `undefined` instead of
  failing (src/index.ts:111).
- No `inputBatch` slot or `input.batch` function exists: src/index.ts:2
  lists it only as a future feature.
- `attach` copies its handlers as given. Unlike the `input` setter, it does
  not wrap a plain mapping (src/index.ts:118).

## Model

| member | source | states |
|---|---|---|
| `Registry.Defaults` | src/index.ts:87-94 | The default `then` fulfils with exactly its argument. The default `catch` rejects with exactly the reason it received. The default `output` does nothing and returns `undefined`. The default `input` rejects for every key, type and options with an `Error` whose message is `Input "<key>" must be supplied`. |
| `Registry.MissingInputMessageNamesKey` | src/index.ts:90-92 | Two requests get the same unsupplied-input message only if they asked for the same key, so the message identifies the requested key. |
| `Registry.HeadlessInput` | src/index.ts:109-112 | For a key in the mapping, the wrapped handler returns the mapped value. For a missing key it returns `undefined` and does not fail. The requested type and options are ignored. |
| `Registry.HeadlessIgnoresKindAndOptions` | src/index.ts:111 | A headless handler never rejects, and two requests for the same key get the same answer whatever their type and options. |
| `Registry.Apply` | src/index.ts:105-118 | After one setter call, each slot holds what the call writes to it. Every other slot keeps its previous handler. `then`/`catch`/`output` write only their own slot. `input` writes only the input slot, with a handler installed unchanged or a mapping wrapped by `HeadlessInput`. `attach` writes exactly the slots present in its argument. |
| `Registry.ChainLastWriteWins` | src/index.ts:105-118 | After any fluent chain of setter calls, each slot holds the handler installed by the last call that writes it. With no such call, it holds the handler it had before the chain. |
| `Registry.LaterCallOverwrites` | src/index.ts:105-118 | A setter call that writes every slot an earlier call wrote makes the earlier call irrelevant (a second `then(h)` replaces the first). |
| `Registry.SetterIdempotent` | src/index.ts:105-118 | Making the same setter call twice has the effect of making it once. |
| `Registry.DisjointCallsCommute` | src/index.ts:105-118 | Setter calls that write different slots have the same effect in either order. |
| `Pipeline.Run` | src/index.ts:97-100 | If the executor fulfils with `v` and `then(v)` fulfils, the run's result is `then(v)`. If `then(v)` rejects with `e`, the result is `catch(e)`. If the executor rejects with `e`, the result is `catch(e)`. Whatever `catch` returns or throws is final. |
| `Pipeline.DefaultThenCatchPassThrough` | src/index.ts:88-100 | With `then` and `catch` behaving as the defaults, and any input and output handlers, a run settles exactly as the executor's own promise does. |
| `Pipeline.DefaultsPassThrough` | src/index.ts:87-100 | With every slot at its default, a run fulfils with exactly the executor's value or rejects with exactly its reason. |
| `Adapters.Adapter.constructor` | src/index.ts:82-94 | A new handle keeps the executor and exactly the metadata given (`null` when omitted). It has every slot at its default and has not invoked the executor. The metadata is a constant that no handle operation changes. |
| `Adapters.Adapter.Then` | src/index.ts:105 | Returns the same handle and changes only the `then` slot, to `h`. |
| `Adapters.Adapter.Catch` | src/index.ts:106 | Returns the same handle and changes only the `catch` slot, to `h`. |
| `Adapters.Adapter.Output` | src/index.ts:107 | Returns the same handle and changes only the `output` slot, to `h`. |
| `Adapters.Adapter.Input` | src/index.ts:108-117 | Returns the same handle and changes only the `input` slot. A handler is installed unchanged and a mapping is wrapped by the headless lookup. |
| `Adapters.Adapter.Attach` | src/index.ts:118 | Returns the same handle. It writes each slot present in the partial record and leaves every other slot unchanged. |
| `Adapters.Adapter.Exec` | src/index.ts:97-103 | Invokes the executor exactly once, with the `input` and `output` handlers current at the call (one new entry in the invocation log). It returns `Run` of the registry current at the call, and leaves the registry unchanged. |
| `Adapters.Adapter.Promise` | src/index.ts:104 | The same contract as `Exec`: `promise` and `exec` are one operation. |
| `Adapters.FreshHandlePassesThrough` | test/unit/index.test.ts:14-27 | Running a freshly made handle settles with exactly the executor's value or reason. |
| `Adapters.ReconfiguredBetweenRuns` | src/index.ts:97-117 | An `input` setter called between two runs of one handle is not seen by the first run and is seen by the second. |
| `Adapters.PasswordNotSupplied` | test/unit/index.test.ts:72-77 | An executor that requests the key `password` on a handle with no input handler rejects with the `Error` whose message is exactly `Input "password" must be supplied`. |
| `Adapters.PasswordHeadless` | src/index.ts:108-117 | With input supplied as the mapping `{password: "pa$$word"}`, a request for `password` fulfils with `"pa$$word"`. |

## Left out

- The executor is a pure, total function value. An executor whose outcome
  depends on state is not represented: a counter, the clock, or the
  effects of earlier runs. In the model, two runs of an unchanged handle
  always settle the same. A run whose promise never settles is not
  represented either.
- The unit tests on an array result and output events
  (test/unit/index.test.ts:32-58), and on a function input handler with
  output order (test/unit/index.test.ts:79-92), have no client method. They
  exercise an executor's own behaviour, which the model leaves abstract,
  and use values (numbers, arrays) that `Value` cannot represent.

- Promise scheduling, microtask order, `async`/`await` and the promise
  objects: a run is modelled by the outcome its promise settles with
  (src/index.ts:97-100, including the `as unknown as Promise<R>` cast).
- Overlapping runs that interleave with setter calls: this is purely an
  asynchronous concern. `makePromise` reads `input` and `output` before it
  calls the executor, and reads `then` and `catch` only after the executor
  has returned its promise (src/index.ts:98-100). Each modelled run reads
  all four slots at the call, so the two coincide only when nothing
  changes the registry while the executor's synchronous part runs.
- An executor that calls setters on its own handle: the modelled executor
  cannot reach the handle. In the code, a `then` or `catch` set by the
  executor before its first `await` applies to that same run; the model
  gives the run the `then` and `catch` current at the call.
- The type-level machinery (src/index.ts:5-49): it exists only at compile
  time and is never checked at run time.
- Batch input (`input.batch`, an `inputBatch` setter): not present in the
  code, which lists it as a future feature (src/index.ts:2).
- What an executor does inside a run (the order of its output events and
  input requests): the executor is an arbitrary function here, and the
  adapter does not order those events itself.
- Side effects of handlers other than the executor invocation itself:
  handlers are pure function values. Only the executor's invocations are
  logged.
- An executor that throws synchronously, or that returns something other
  than a promise: `makePromise` would then throw before `catch` is
  attached. The model assumes the executor returns a promise, as its type
  demands.
- A `then` handler that returns a thenable: promise adoption is host
  machinery.
- Registry.HeadlessInput: the mapping is a plain string-keyed map. The
  code's wrapper `key => data[key]` returns a plain value, not a promise
  (the default input handler is `async`). The model gives both the same
  `Settled` shape, so it treats the plain value as an awaited fulfilment.
  An executor that calls `.then` on the answer would throw a `TypeError`
  under headless input; that case is not captured.
  Inherited prototype properties and non-object arguments are left out:
  `input()` and `input(null)` would install a lookup that throws a
  `TypeError`.
- JavaScript edge semantics: calling a setter detached from its handle
  (`this` binding). `Object.assign` also copies props whose value is
  `undefined`: `attach` is modelled as writing only the slots present.
  A setter given `undefined` (for instance `then(undefined)`, which makes
  `.then` a pass-through) is left out. Reassigning the handle's own
  properties (including `meta`) from outside is left out too.
- JavaScript numbers, arrays, functions and other value kinds the runtime
  never creates or inspects: they cannot be represented in `Value`. Results
  such as `8` or `[0, 1, 2]` are therefore not expressible.
