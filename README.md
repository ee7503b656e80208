# Span lifecycle and graceful shutdown, modelled in Dafny

This project models two small packages built on an effect library and the
OpenTracing API.

**Tracing** (`tracing.dfy`, module `Tracing`). A controller span is created
from inbound headers. It continues the remote trace only when the extracted
context reports a non-empty span id. Otherwise it is a root span. Either way it
carries the tags `span.kind = server` and `component`. A child span is started
under the ambient span when the environment carries both a span context and a
tracer context. Otherwise the wrapped computation runs untouched. In every
case, `runWithSpan` runs the wrapped computation with the span in scope. When
the computation fails, it tags the span with `error` set to the failure's
message. It then finishes the span and hands back the computation's outcome
unchanged.

The OpenTracing tracer is a class with two parts: an `extract` function supplied
at construction, and the list of spans it has `started`. A span records the
`setTag`/`finish` calls made on it in an event log. `FinishCount` and
`TagsAfter` are the pure readings of that log. A wrapped computation is a total
function from the capability environment (`Env`, with optional `span` and
`tracer` slots) to its `Outcome`.

**Graceful** (`graceful.dfy`, module `Graceful`). The registry is a class with a
`seq<Hook>` field `state`. `graceful()` creates it empty. `onExit` appends to
it. `trigger` runs every stored hook once and does not clear `state`. A hook is
an identity. What a trigger runs is reported as a multiset, so no order is
claimed.

`effects.dfy` (module `Effects`) holds `Option`, `Error` and `Outcome`.

Two points about the source:

- The server span-kind value is `"server"`. That is the value of OpenTracing's
  `Tags.SPAN_KIND_RPC_SERVER`.
- `trigger` never drains the registry. A second trigger re-runs every hook.

## Model

| member | source | states |
|---|---|---|
| `Tracing.ChildContextOf` | packages/tracing/src/index.ts:239-241 | An ambient child context is found exactly when `span`, `span.context`, `tracer` and `tracer.context` are all present; it is made of those two contexts |
| `Tracing.ProvideTracer` | packages/tracing/src/index.ts:134-147 | After `withTracer` installs the instance, the environment has a tracer context naming that instance, the span slot is untouched, and a child context exists iff a span context already did |
| `Tracing.SpanScopeHasChildContext` | packages/tracing/src/index.ts:87-91 | Inside the scope `runWithSpan` provides under a tracer, the ambient child context is the provided span and component with the same tracer, so nested child spans hang off it |
| `Tracing.ServerTags` | packages/tracing/src/index.ts:114-117 | Controller-span tags are exactly `span.kind = server` and `component = component`, with no `error` tag |
| `Tracing.ControllerParent` | packages/tracing/src/index.ts:105-126 | The parent is the extracted context iff it exists, has `toSpanId`, and that id is non-empty; in every other case the span is a root with no parent |
| `Tracing.SettleFinishesOnce` | packages/tracing/src/index.ts:66-86 | On either outcome, the calls made after the computation settles take an unfinished span to exactly one `finish`, which is the last call on it |
| `Tracing.FinishIsLastEvent` | packages/tracing/src/index.ts:71-74 | Among those calls, `finish` occurs once and last; nothing touches the span after it (on failure, the error tag comes before `finish`) |
| `Tracing.ErrorTagOnlyOnFailure` | packages/tracing/src/index.ts:69-85 | An `error` tag is set iff the computation failed, and its value is the failure's message |
| `Tracing.SettleTags` | packages/tracing/src/index.ts:69-85 | Settling changes the tag map only on failure, and then only by `error := message` |
| `Tracing.Span.SetTag` | packages/tracing/src/index.ts:72 | `setTag` appends one tag call to the span's log |
| `Tracing.Span.Finish` | packages/tracing/src/index.ts:82 | `finish` appends one finish call to the span's log |
| `Tracing.Tracer.StartSpan` | packages/tracing/src/index.ts:112-125 | `startSpan` yields a fresh, unfinished span on this tracer with the given parent and tags, and records it as started |
| `Tracing.RunWithSpan` | packages/tracing/src/index.ts:61-93 | Runs the computation with the span provided as ambient context and returns its outcome unchanged; the log gains the error tag (failure only) then `finish`; an unfinished span ends finished exactly once; tags change only by `error := message` on failure |
| `Tracing.CreateControllerSpan` | packages/tracing/src/index.ts:95-130 | Starts one fresh span on the given tracer whose parent is `ControllerParent(extract(headers))` and whose tags are `ServerTags(component)` in both branches |
| `Tracing.WithControllerSpan` | packages/tracing/src/index.ts:148-176 | On the ambient tracer, starts exactly one controller span, runs the computation inside it, returns its outcome unchanged, and leaves the span with exactly the settle calls (error tag on failure, then `finish`), finished once with server tags plus `error` only on failure |
| `Tracing.WithChildSpan` | packages/tracing/src/index.ts:177-197 | Without a child context, the result is the computation's own outcome and no span is started. With one, a single fresh span starts on the ambient tracer as a child of the ambient span, the computation runs under the ambient component, and the span's log is exactly the settle calls: finished once, last, with `error` only on failure |
| `Tracing.InboundRequestScenario` | packages/tracing/src/index.ts:95-176 | A request with no trace headers gets a root server span that is finished once. A successful handler leaves no error tag and returns its value. A handler failing with "boom" leaves `error = boom`, and the caller still sees that failure |
| `Tracing.EmptySpanIdScenario` | packages/tracing/src/index.ts:105-126 | When extraction yields a context whose span id is empty, the controller span is a root and is finished once |
| `Graceful.Registry.constructor` | packages/graceful/src/index.ts:14-16 | `graceful()` yields a new registry whose `state` is empty |
| `Graceful.Registry.OnExit` | packages/graceful/src/index.ts:17-25 | `onExit` appends the hook at the end of `state`; earlier entries stay as they were and in order |
| `Graceful.Registry.Trigger` | packages/graceful/src/index.ts:26-33 | `trigger` runs each hook in `state` once, as a multiset equal to `state`, and modifies nothing |
| `Graceful.OnExit` | packages/graceful/src/index.ts:37-41 | The module-level `onExit` appends to the registry found in the environment |
| `Graceful.Trigger` | packages/graceful/src/index.ts:43-45 | The module-level `trigger` runs exactly the hooks of the registry found in the environment |
| `Graceful.TriggerTwice` | packages/graceful/src/index.ts:26-33 | A second trigger runs the same hooks again, because `state` is not cleared |
| `Graceful.RecordAndTrigger` | packages/graceful/tests/Graceful.test.ts:9-23 | One hook registered on a fresh registry, then one trigger: the hook has run exactly once |
| `Graceful.ThreeHooksOneTrigger` | packages/graceful/src/index.ts:17-33 | Three hooks registered, one trigger: a counter bumped by every hook reads 3 |
| `Graceful.IndependentRegistries` | packages/graceful/src/index.ts:14-16 | Two `graceful()` registries are independent: registering on one leaves the other empty |

## Left out

- The effect runtime (`accessM`, `provide`, `mergeEnv`, `chainLeft`, `promise`) is abstracted to a function from the environment to an `Outcome`. Side effects performed by the wrapped computation itself are not modelled. Neither are effects that never settle or are cancelled.
- OpenTracing internals are foreign code. `extract` with `FORMAT_HTTP_HEADERS` is a function given to each `Tracer`. `startSpan`, `setTag` and `finish` only record calls.
- `withTracer`'s factory, `tracerFactoryDummy` and `noTracing` (packages/tracing/src/index.ts:20-24, 134-147, 225-235) are left out as wiring. Only installing the factory's instance is modelled, as `ProvideTracer`.
- The module-level `withTracer`, `withControllerSpan` and `withChildSpan` (packages/tracing/src/index.ts:201-221) call whatever `Tracer` capability the environment holds. They coincide with the modelled members only when that capability is the exported `tracer` object; any other implementation is outside the model. The module-level `withControllerSpan` also defaults `headers` to `{}` (packages/tracing/src/index.ts:208); the model always takes the headers explicitly, so the default is a call with `map[]`.
- Tracing.RunWithSpan: only the typed failure channel is modelled. The source catches failures through `chainLeft` (packages/tracing/src/index.ts:69-77); an exception thrown by the wrapped computation, or a rejected promise, bypasses both the error handler and the success-side `finish`, so the source leaves the span unfinished on that path. `Outcome` has no such case, so "finished exactly once" is proved only for typed success and typed failure.
- Tracing.WithControllerSpan: the span is returned as an extra out-parameter so that its final state can be stated. The source keeps the span internal.
- Tracing.WithControllerSpan: requires a tracer context in the environment. The source demands this through its static capability type `HasTracerContext`.
- Graceful.Registry.OnExit: the source's registry method pushes onto the registry found in the environment, not onto its own `state`. The model pushes onto `this`. The two agree whenever the registry is reached through the environment, as both module-level delegates and the tests do.
- Graceful.Registry.Trigger: `sequenceP` runs the hooks concurrently, with parallelism `state.length`. Only "every stored hook runs once before trigger completes" is modelled, and no order is claimed. Hooks are identities, and what they do is outside the model. As with `onExit`, the source's registry method runs the hooks of the registry found in the environment (packages/graceful/src/index.ts:27-29), not its own `state`; the model triggers `this`, which agrees whenever the registry is reached through the environment.
- TypeScript intersection types that express capability requirements are type-level only and are not encoded.
- packages/express/tests/Express.test.ts exercises an HTTP server and client over a socket (I/O and network) and is not part of this model.
