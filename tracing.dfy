/** Event dispatch (`on_event`), the facade `on_trace`, and the instrumented
    code they run.

    A traced function's body is modelled as a `Work`: a sequence of
    statements (a line printed to standard output, a call of another traced
    function, a callback registration or unregistration through the
    `thread_*` shortcuts) and the value the body returns. `TraceSteps` says
    what happens, in order, when such a function is called through
    `on_trace`; `Replay` says what the callback slot and the output are
    after those happenings. `OnTrace` is proved to do exactly that, and the
    lemmas below state the stack discipline and event order of `TraceSteps`. */
module Tracing {
  import opened Wrappers
  import opened CallTraceTypes
  import opened Callbacks
  import opened TraceContext

  datatype Stmt =
    | Println(text: string)
    | Traced(site: CallContext, body: Work)
    | Register(builder: Builder)
    | Unregister

  /** The closure `f` handed to `on_trace`: a body and its result. */
  datatype Work = Work(stmts: seq<Stmt>, result: int)

  /** One thing that happens on the thread while traced code runs. */
  datatype Step =
      /** `on_event` invoking the callback slot for `event` of `site`, while
          the stack is `seen`. */
    | Dispatch(event: Event, site: CallContext, seen: ActiveStack)
    | Print(text: string)
    | Registered(builder: Builder)
    | Unregistered

  /** What happens when `site` is called through `on_trace` with body `w`,
      from a thread whose stack is `stack`. */
  function TraceSteps(stack: seq<CallContext>, site: CallContext, w: Work): seq<Step>
    decreases w, 1
  {
    var inner := stack + [site];
    [Dispatch(Call, site, inner)] + BodySteps(inner, w, |w.stmts|) + [Dispatch(Return, site, inner)]
  }

  /** What happens while the first `n` statements of `w` run on a thread
      whose stack is `stack`. */
  function BodySteps(stack: seq<CallContext>, w: Work, n: nat): seq<Step>
    requires n <= |w.stmts|
    decreases w, 0, n
  {
    if n == 0 then []
    else
      BodySteps(stack, w, n - 1) +
      match w.stmts[n - 1]
      case Println(text) => [Print(text)]
      case Traced(site, body) => TraceSteps(stack, site, body)
      case Register(f) => [Registered(f)]
      case Unregister => [Unregistered]
  }

  /** The callback slot, and the lines written, after some happenings. */
  datatype Observed = Observed(callback: Option<Callback>, output: seq<Output>)

  function Apply(slot: Option<Callback>, step: Step): Observed
  {
    match step
    case Dispatch(event, _, seen) => Observed(slot, Notify(slot, View(event, seen)))
    case Print(text) => Observed(slot, [Stdout(text)])
    case Registered(f) => Observed(Some(f(slot)), [])
    case Unregistered => Observed(None, [])
  }

  function Replay(slot: Option<Callback>, steps: seq<Step>): Observed
  {
    if steps == [] then Observed(slot, [])
    else
      var before := Replay(slot, steps[..|steps| - 1]);
      var last := Apply(before.callback, steps[|steps| - 1]);
      Observed(last.callback, before.output + last.output)
  }

  /** Going from slot `slot` and output `out` through `steps` ends with slot
      `slot'` and output `out'`. */
  ghost predicate Follows(slot: Option<Callback>, out: seq<Output>, steps: seq<Step>,
                          slot': Option<Callback>, out': seq<Output>)
  {
    var r := Replay(slot, steps);
    slot' == r.callback && out' == out + r.output
  }

  lemma {:induction false} ReplayAppend(slot: Option<Callback>, a: seq<Step>, b: seq<Step>)
    ensures Replay(slot, a + b)
         == Observed(Replay(Replay(slot, a).callback, b).callback,
                     Replay(slot, a).output + Replay(Replay(slot, a).callback, b).output)
  {
    if b == [] {
      assert a + b == a;
    } else {
      assert (a + b)[..|a + b| - 1] == a + b[..|b| - 1];
      ReplayAppend(slot, a, b[..|b| - 1]);
    }
  }

  lemma FollowsChain(slot0: Option<Callback>, out0: seq<Output>, a: seq<Step>,
                     slot1: Option<Callback>, out1: seq<Output>, b: seq<Step>,
                     slot2: Option<Callback>, out2: seq<Output>)
    requires Follows(slot0, out0, a, slot1, out1)
    requires Follows(slot1, out1, b, slot2, out2)
    ensures Follows(slot0, out0, a + b, slot2, out2)
  {
    ReplayAppend(slot0, a, b);
  }

  lemma FollowsOne(slot: Option<Callback>, out: seq<Output>, step: Step)
    ensures Follows(slot, out, [step], Apply(slot, step).callback, out + Apply(slot, step).output)
  {
  }

  /** `on_event`: on a call, push the site; invoke the registered callback,
      if any, with the stack as it now is; on a return, pop the top frame,
      whatever `cctx` is. Popping an empty stack fails. */
  method OnEvent(ctx: Context, cctx: CallContext, event: Event)
    requires event == Return ==> ctx.stack != []
    modifies ctx`stack, ctx`output
    ensures event == Call ==> ctx.stack == old(ctx.stack) + [cctx]
    ensures event == Return ==> ctx.stack == old(ctx.stack)[..|old(ctx.stack)| - 1]
    ensures var seen := if event == Call then old(ctx.stack) + [cctx] else old(ctx.stack);
            seen != [] && ctx.output == old(ctx.output) + Notify(ctx.callback, View(event, seen))
  {
    if event == Call {
      ctx.stack := ctx.stack + [cctx];
    }
    if ctx.callback.Some? {
      ctx.output := ctx.output + Invoke(ctx.callback.value, View(event, ctx.stack));
    }
    if event == Return {
      ctx.stack := ctx.stack[..|ctx.stack| - 1];
    }
  }

  /** `on_trace`: dispatch the call, run the work once, dispatch the return,
      and hand back the work's result. The stack ends as it started. */
  method OnTrace(ctx: Context, f: Work, cctx: CallContext) returns (r: int)
    modifies ctx`callback, ctx`stack, ctx`output
    decreases f, 1
    ensures r == f.result
    ensures ctx.stack == old(ctx.stack)
    ensures Follows(old(ctx.callback), old(ctx.output), TraceSteps(old(ctx.stack), cctx, f),
                    ctx.callback, ctx.output)
  {
    ghost var stack0, slot0, out0 := ctx.stack, ctx.callback, ctx.output;
    ghost var inner := stack0 + [cctx];
    OnEvent(ctx, cctx, Call);
    FollowsOne(slot0, out0, Dispatch(Call, cctx, inner));
    ghost var out1 := ctx.output;
    r := RunWork(ctx, f);
    ghost var slot2, out2 := ctx.callback, ctx.output;
    FollowsChain(slot0, out0, [Dispatch(Call, cctx, inner)], slot0, out1,
                 BodySteps(inner, f, |f.stmts|), slot2, out2);
    OnEvent(ctx, cctx, Return);
    FollowsOne(slot2, out2, Dispatch(Return, cctx, inner));
    FollowsChain(slot0, out0, [Dispatch(Call, cctx, inner)] + BodySteps(inner, f, |f.stmts|), slot2, out2,
                 [Dispatch(Return, cctx, inner)], ctx.callback, ctx.output);
  }

  /** Runs the statements of a traced function's body in order (the call
      `f()` inside `on_trace`). */
  method RunWork(ctx: Context, w: Work) returns (r: int)
    modifies ctx`callback, ctx`stack, ctx`output
    decreases w, 0
    ensures r == w.result
    ensures ctx.stack == old(ctx.stack)
    ensures Follows(old(ctx.callback), old(ctx.output), BodySteps(old(ctx.stack), w, |w.stmts|),
                    ctx.callback, ctx.output)
  {
    var i := 0;
    while i < |w.stmts|
      invariant 0 <= i <= |w.stmts|
      invariant ctx.stack == old(ctx.stack)
      invariant Follows(old(ctx.callback), old(ctx.output), BodySteps(old(ctx.stack), w, i),
                        ctx.callback, ctx.output)
    {
      ghost var slot1, out1 := ctx.callback, ctx.output;
      ghost var done := BodySteps(old(ctx.stack), w, i);
      match w.stmts[i] {
      case Println(text) =>
        ctx.output := ctx.output + [Stdout(text)];
        FollowsOne(slot1, out1, Print(text));
        FollowsChain(old(ctx.callback), old(ctx.output), done, slot1, out1, [Print(text)], ctx.callback, ctx.output);
      case Traced(site, body) =>
        var _ := OnTrace(ctx, body, site);
        FollowsChain(old(ctx.callback), old(ctx.output), done, slot1, out1,
                     TraceSteps(old(ctx.stack), site, body), ctx.callback, ctx.output);
      case Register(f) =>
        ThreadRegisterCallback(ctx, f);
        FollowsOne(slot1, out1, Registered(f));
        FollowsChain(old(ctx.callback), old(ctx.output), done, slot1, out1, [Registered(f)], ctx.callback, ctx.output);
      case Unregister =>
        var _ := ThreadUnregisterCallback(ctx);
        FollowsOne(slot1, out1, Unregistered);
        FollowsChain(old(ctx.callback), old(ctx.output), done, slot1, out1, [Unregistered], ctx.callback, ctx.output);
      }
      i := i + 1;
    }
    r := w.result;
  }
}
