# call-trace: the per-thread tracing context, in Dafny

`call-trace` instruments functions marked `#[trace]`. Each call runs through
`on_trace`, which reports a `Call` event and a `Return` event to a
per-thread `Context`. The `Context` holds:

- a call stack of `CallContext` descriptors (file, line, function name);
- a single callback slot.

`Context::new` fills the slot with a default callback. That callback writes
`[file:line] => name()` and `[file:line] <= name()` to standard error. User
code replaces or wraps it through `register_callback`. The builder given to
`register_callback` receives the previous callback. `unregister_callback`
takes the callback out of the slot.

This project models that runtime, `call-trace/src/lib.rs`, and proves:

- The stack is used last-in first-out.
- Every callback sees its own call site as `top()`.
- `on_trace` leaves the stack as it found it.
- Calls are reported in pre-order of the call tree and returns in
  post-order.
- With no callback registered, only the traced code's own output appears.
- For any fixed callback, the output is a fixed interleaving of callback
  output and program output.
- The first two of the crate documentation's three examples produce exactly
  the output the documentation prints.

Files:

- `types.dfy`: `CallContext`, `Event` and their derived orderings; the view
  a running callback has of the context.
- `format.dfy`: the default callback's line, and `{:?}` of a `CallContext`
  (decimal line numbers, `Debug` escaping of `&str`).
- `callbacks.dfy`: callbacks as values, and the builders that
  `register_callback` applies to the previous callback.
- `context.dfy`: the `Context` class, with its `callback` and `stack`
  fields updated in place, and the `thread_*` shortcuts.
- `tracing.dfy`: `on_event`, `on_trace`, and an interpreter for the body of
  a traced function.
  - `TraceSteps` is the specification of what happens during a traced call.
  - `Replay` gives the slot and the output after those happenings.
  - `OnTrace` is proved to follow them.
- `properties.dfy`: stack discipline, event order, and output, proved once
  for all traced code.
- `examples.dfy`: the first two of the documentation's three examples. The
  first uses the default callback. The second registers a callback that
  replaces the default, and then another one layered on top of it.

The documentation's example has `foo` call `bar` once and `bar` call `baz`
twice, which gives eight events. That is the example modelled here, in
`DocExamples.FooEvents`.

## Model

| member | source | states |
|---|---|---|
| CallTraceTypes.CompareEvents | call-trace/src/lib.rs:243-251 | The derived `Ord` of `Event`: equal exactly on equal events; `Call < Return` and never the other way. |
| CallTraceTypes.CompareStrings | call-trace/src/lib.rs:230-241 | Lexicographic `str` order, as used by the derived `Ord` of `CallContext`: `Equal` exactly when the strings are equal. |
| CallTraceTypes.CompareStringsAntisymmetric | call-trace/src/lib.rs:230-241 | Swapping the operands reverses the string order. |
| CallTraceTypes.CompareStringsTransitive | call-trace/src/lib.rs:230-241 | The string order is transitive. |
| CallTraceTypes.CompareCallContexts | call-trace/src/lib.rs:230-241 | The derived `Ord` of `CallContext` (`file`, then `line`, then `fn_name`) is `Equal` exactly on equal descriptors. |
| CallTraceTypes.CompareCallContextsAntisymmetric | call-trace/src/lib.rs:230-241 | Swapping two descriptors reverses their order. |
| CallTraceTypes.CompareCallContextsTransitive | call-trace/src/lib.rs:230-241 | The descriptor order is transitive. Together with antisymmetry and `Equal` holding exactly on equal descriptors, this makes it the total order `#[derive(Ord)]` promises. |
| Format.Decimal | call-trace/src/lib.rs:196-199 | A line number prints as a non-empty string of digits with no leading zero, except for `0` itself. |
| Format.DecimalRoundTrip | call-trace/src/lib.rs:196-199 | The digits printed for a line number denote that number. |
| Format.EscapeDebug | call-trace/src/lib.rs:84-85 | The body of `{:?}` of a `&str`, without its quotes: never shorter than the string. Its inverse is stated by `Format.EscapeDebugRoundTrip`. |
| Format.DebugStr | call-trace/src/lib.rs:84-85 | `{:?}` of a `&str`: at least two characters longer than the string, with a double quote first and last. |
| Format.DebugStrRoundTrip | call-trace/src/lib.rs:84-85 | Reading `{:?}` of a string back between its quotes gives the string. |
| Format.DebugCallContext | call-trace/src/lib.rs:230 | The derived `Debug` of `CallContext`, printed by `{:?}` at lines 84-85: it starts with `CallContext { file: ` and ends with ` }`. The exact text for the example's call sites is proved in `examples.dfy`. |
| Format.DefaultLine | call-trace/src/lib.rs:196-199 | No contract of its own. It is the `eprintln!` format of the default callback: `[file:line] => name()` on a call, `<=` on a return. |
| Format.DefaultLineTellsEventsApart | call-trace/src/lib.rs:196-199 | The default callback writes different lines for the call and the return of the same site. |
| Format.EscapeDebugRoundTrip | call-trace/src/lib.rs:84-85 | `{:?}` escaping of the strings in a `CallContext` loses nothing: unescaping gives the original string back. |
| Format.EscapeDebugAppend | call-trace/src/lib.rs:84-85 | Escaping works character by character, so it distributes over concatenation. |
| Format.EscapeDebugPlain | call-trace/src/lib.rs:97-108 | A string with no quote, backslash or control character to escape is written unchanged between the quotes. |
| Callbacks.Invoke | call-trace/src/lib.rs:288-291 | No contract of its own. It is the call `cb(ctx, event)`. The default callback writes the line of `default_callback` (lines 193-203), and a closure runs its body with the callback it captured. What each kind of callback writes is stated by `Callbacks.DefaultBuilder`, `Callbacks.Replacing` and `Callbacks.Layering`. |
| Callbacks.Notify | call-trace/src/lib.rs:288-291 | An empty slot writes nothing. |
| Callbacks.DefaultBuilder | call-trace/src/lib.rs:188-203 | The builder `Context::new` registers ignores the previous callback. The callback it builds writes one standard-error line for the event and `top()`: `[file:line] => name()` on a call, `<=` on a return. |
| Callbacks.Replacing | call-trace/src/lib.rs:72-77 | A builder that ignores `prev` builds a callback that captures nothing and writes only its own output, so the behaviour it replaced is gone. |
| Callbacks.Layering | call-trace/src/lib.rs:78-87 | A builder that keeps `prev` captures exactly the previous slot. Its callback runs `prev` once, if there was one, before or after its own output as written. |
| TraceContext.Context.constructor | call-trace/src/lib.rs:183-190 | A new context has an empty stack and the default callback in its slot. |
| TraceContext.Context.Stack | call-trace/src/lib.rs:206-208 | No contract of its own. It reads the stack, outermost call first, and changes nothing (a function has no effect). |
| TraceContext.Context.Top | call-trace/src/lib.rs:210-213 | `top()` on a non-empty stack is its last element: the stack is everything below it plus it. |
| TraceContext.Context.RegisterCallback | call-trace/src/lib.rs:215-222 | The slot afterwards holds exactly one callback, the builder applied to what the slot held before. The stack is untouched. |
| TraceContext.Context.UnregisterCallback | call-trace/src/lib.rs:224-227 | Returns what the slot held and leaves the slot empty. |
| TraceContext.ThreadRegisterCallback | call-trace/src/lib.rs:262-271 | Same effect as `register_callback` on the thread's context. |
| TraceContext.ThreadUnregisterCallback | call-trace/src/lib.rs:273-279 | Same effect as `unregister_callback` on the thread's context. |
| TraceContext.UnregisterTwice | call-trace/src/lib.rs:224-227 | A second unregistration returns `None`. |
| TraceContext.RegisterThenUnregister | call-trace/src/lib.rs:215-227 | Unregistering straight after registering returns the builder's result on the previous slot. |
| Tracing.OnEvent | call-trace/src/lib.rs:281-296 | On `Call` the site is pushed before the callback runs. On `Return` the top frame is popped after it, whatever the site is. So on `Call` the callback, if any, sees the site on top, and on `Return` it sees the stack as it was before the pop. That the top is then the returning site is `TraceProperties.TopIsSiteDuringDispatch`. The output grows by exactly what the slot writes, and by nothing when the slot is empty. A `Return` on an empty stack is excluded. |
| Tracing.OnTrace | call-trace/src/lib.rs:298-304 | Returns the work's result and leaves the stack as it was. The slot and output end as `TraceSteps` says: `Call` dispatched, the body run exactly once, then `Return` dispatched. |
| Tracing.RunWork | call-trace/src/lib.rs:301 | Running a traced function's body (`f()`) performs its statements in order, returns its result, and leaves the stack balanced. |
| TraceProperties.TraceNests | call-trace/src/lib.rs:281-304 | Every traced call, however deeply nested, pushes and pops like a stack and ends with the stack it started from. |
| TraceProperties.NestingShowsSiteOnTop | call-trace/src/lib.rs:284-294 | In any happenings that respect the stack, each dispatched event shows its own site as `top()`. |
| TraceProperties.TopIsSiteDuringDispatch | call-trace/src/lib.rs:284-294 | While the callback runs for a site's `Call` or `Return`, `top()` is that site. |
| TraceProperties.TraceOrder | call-trace/src/lib.rs:33-45 | `Call` events come in pre-order of the call tree and `Return` events in post-order. |
| TraceProperties.SilentWithoutCallback | call-trace/src/lib.rs:288-291 | With an empty slot, a traced call whose code never registers a callback writes only what its body prints, and the slot stays empty. The code may unregister, which leaves the empty slot empty. |
| TraceProperties.FixedSlotTranscript | call-trace/src/lib.rs:281-304 | If the code registers nothing, the slot is unchanged. The output is the callback's output for each event, interleaved with the body's own lines. |
| DocExamples.FooSteps | call-trace/src/lib.rs:5-30 | The happenings of `foo()` in the documentation's example: foo's call, bar's call, two baz calls, the printed sum, bar's return, foo's return. |
| DocExamples.FooEvents | call-trace/src/lib.rs:33-45 | The events are foo, bar, baz, baz-return, baz, baz-return, bar-return, foo-return, at stack depths 1, 2, 3, 2, 3, 2, 1, 0. |
| DocExamples.RunSimpleExample | call-trace/src/lib.rs:28-45 | `main` with the default callback writes the nine lines the documentation prints, in order, on the right streams. |
| DocExamples.RegisterExampleCallbacks | call-trace/src/lib.rs:72-87 | After the two registrations, the fresh context's slot holds the layering callback wrapped around the replacing one. The default callback is gone. The stack and output are still empty. |
| DocExamples.RunCustomCallbackExample | call-trace/src/lib.rs:71-108 | `main` with the two registered callbacks writes the thirteen lines the documentation prints. No default line appears. |

## Left out

- The `call-trace-macro` crate is not part of this model. It rewrites
  `#[trace]`, `#[trace_with]` and `#[inject_with]` functions at compile
  time. A traced function is modelled directly as a call of `on_trace` on
  its body (`Tracing.Work`).
- `#[trace_with]` and the custom-context example
  (`call-trace/src/lib.rs:111-165`) are not modelled. They bypass the
  `Context` entirely.
- The `thread_local!` context, `RefCell` and `thread_access_with` are not
  modelled. The model has one explicit `Context` object, and every method
  takes it as a parameter. Isolation between threads is not modelled.
- `Rc` is not modelled. Callbacks are values, and cloning one out of the
  slot is the identity.
- Callbacks.Invoke: a callback only reads the context (the event and the
  stack) and writes output lines. A callback that changes the context
  through its `&mut Context` argument is not modelled.
- Reentrancy is not modelled. `on_event` holds the `RefCell` borrow while the
  callback runs. A callback that calls traced code or the `thread_*`
  shortcuts would panic at runtime, and the model does not let a callback
  do either.
- Panics and unwinding are not modelled. `on_trace` has no cleanup guard:
  if the body panics, `Return` is never dispatched and the frame is never
  popped.
- Tracing.OnEvent: a `Return` on an empty stack panics in the source. The
  model excludes it with a precondition. Inside `on_trace` it cannot
  happen, because the matching `Call` pushed a frame.
- TraceContext.Context.Top: `top()` on an empty stack panics in the
  source. The model excludes it with a precondition.
- The process's standard output and standard error are modelled as one
  ordered log of `Stdout` and `Stderr` lines on the context. Their
  interleaving as a terminal shows it is not modelled.
- Format.EscapeDebug only handles the quote, the backslash, `\n`, `\r`, `\t`
  and `\0`. Rust's `Debug` also writes other control and non-printable
  characters as `\u{..}`, and none of the call sites here contain such
  characters.
- A traced body's result is an `int`, and its effects are limited to
  printing lines, calling traced functions and (un)registering callbacks.
  Arbitrary Rust code is not modelled.
- TraceContext.Context.Stack has no contract of its own. It is a plain read
  of the `stack` field, whose push order the contracts of `Tracing.OnEvent`
  and `TraceContext.Context.Top` state.
