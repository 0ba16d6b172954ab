/** The per-thread tracing context: the single callback slot and the call
    stack, with the operations of `impl Context` and the `thread_*`
    shortcuts. */
module TraceContext {
  import opened Wrappers
  import opened CallTraceTypes
  import opened Callbacks

  class Context {
    /** The registered callback, if any. */
    var callback: Option<Callback>
    /** The active calls, outermost first. */
    var stack: seq<CallContext>
    /** Everything written to standard output and standard error so far, in
        order. It stands for the process's output streams, which callbacks
        and traced code write to. */
    var output: seq<Output>

    /** `Context::new`: an empty stack, and the default callback registered
        over an empty slot. */
    constructor ()
      ensures callback == Some(DefaultCallback)
      ensures stack == [] && output == []
    {
      callback := None;
      stack := [];
      output := [];
      new;
      RegisterCallback(DefaultBuilder());
    }

    /** `Context::stack`: the active calls in push order, outermost first. */
    function Stack(): seq<CallContext>
      reads this
    {
      stack
    }

    /** `Context::top`: the most recent call that has not returned. Fails on
        an empty stack. */
    function Top(): (top: CallContext)
      reads this
      requires stack != []
      ensures top in stack
      ensures Stack() == Stack()[..|stack| - 1] + [top]
    {
      stack[|stack| - 1]
    }

    /** `Context::register_callback`: the slot afterwards holds exactly
        `f` applied to what it held before. */
    method RegisterCallback(f: Builder)
      modifies this`callback
      ensures callback == Some(f(old(callback)))
    {
      var previous := callback;
      callback := None;
      callback := Some(f(previous));
    }

    /** `Context::unregister_callback`: hands back what the slot held and
        leaves it empty. */
    method UnregisterCallback() returns (previous: Option<Callback>)
      modifies this`callback
      ensures previous == old(callback) && callback == None
    {
      previous := callback;
      callback := None;
    }
  }

  /** `thread_register_callback` on the calling thread's context. */
  method ThreadRegisterCallback(ctx: Context, f: Builder)
    modifies ctx`callback
    ensures ctx.callback == Some(f(old(ctx.callback)))
  {
    ctx.RegisterCallback(f);
  }

  /** `thread_unregister_callback` on the calling thread's context. */
  method ThreadUnregisterCallback(ctx: Context) returns (previous: Option<Callback>)
    modifies ctx`callback
    ensures previous == old(ctx.callback) && ctx.callback == None
  {
    previous := ctx.UnregisterCallback();
  }

  /** Unregistering twice: the second call finds the slot empty. */
  method UnregisterTwice(ctx: Context) returns (first: Option<Callback>, second: Option<Callback>)
    modifies ctx`callback
    ensures first == old(ctx.callback)
    ensures second == None && ctx.callback == None
  {
    first := ThreadUnregisterCallback(ctx);
    second := ThreadUnregisterCallback(ctx);
  }

  /** Unregistering right after a registration hands back exactly what the
      builder made of the previous callback, and leaves the slot empty. */
  method RegisterThenUnregister(ctx: Context, f: Builder) returns (taken: Option<Callback>)
    modifies ctx`callback
    ensures taken == Some(f(old(ctx.callback)))
    ensures ctx.callback == None
  {
    ThreadRegisterCallback(ctx, f);
    taken := ThreadUnregisterCallback(ctx);
  }
}
