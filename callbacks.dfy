/** Callbacks (`Rc<dyn Fn(&mut Context, Event)>`) as values, and the
    builders that `register_callback` applies to the previous callback.

    A callback's only effect here is the lines it writes; it reads the
    context through the `View` it is given. A closure keeps the previous
    callback only if its builder captured it, and it decides itself whether,
    when and how often to call it. */
module Callbacks {
  import opened Wrappers
  import opened CallTraceTypes
  import Format

  /** One line written to standard output or standard error. */
  datatype Output = Stdout(line: string) | Stderr(line: string)

  /** A callable callback, as a closure that captured one sees it. */
  type Handler = View -> seq<Output>

  datatype Callback =
      /** `Context::default_callback`. */
    | DefaultCallback
      /** A user closure: what it captured of the previous callback, and its
          body, which is handed that previous callback as something it can
          call. */
    | Closure(captured: Option<Callback>, body: (Option<Handler>, View) -> seq<Output>)

  /** What invoking a callback writes. */
  function Invoke(cb: Callback, v: View): seq<Output>
  {
    match cb
    case DefaultCallback => [Stderr(Format.DefaultLine(v.event, v.Top()))]
    case Closure(captured, body) =>
      body(if captured.None? then None else Some((w: View) => Invoke(captured.value, w)), v)
  }

  /** What the callback slot writes for one event: nothing when it is empty. */
  function Notify(slot: Option<Callback>, v: View): (r: seq<Output>)
    ensures slot.None? ==> r == []
  {
    if slot.Some? then Invoke(slot.value, v) else []
  }

  /** The argument of `register_callback`: `FnOnce(Option<Callback>) -> G`. */
  type Builder = Option<Callback> -> Callback

  /** `|_| Self::default_callback`, which `Context::new` registers. */
  function DefaultBuilder(): (b: Builder)
    ensures forall prev :: b(prev) == DefaultCallback
    ensures forall prev, v :: Invoke(b(prev), v) == [Stderr(Format.DefaultLine(v.event, v.Top()))]
  {
    _ => DefaultCallback
  }

  /** `|_| move |ctx, event| own(ctx, event)`: a builder that drops the
      previous callback, so the new one behaves as `own` alone. */
  function Replacing(own: Handler): (b: Builder)
    ensures forall prev, v :: Invoke(b(prev), v) == own(v)
    ensures forall prev :: b(prev).Closure? && b(prev).captured.None?
  {
    _ => Closure(None, (_, v) => own(v))
  }

  /** `|prev| move |ctx, event| { if let Some(prev) = &prev { prev(ctx, event) } own(ctx, event) }`
      when `prevFirst`, and the same with the two calls swapped otherwise:
      a builder that keeps the previous callback and calls it exactly once
      per event, before or after its own work. */
  function Layering(own: Handler, prevFirst: bool): (b: Builder)
    ensures forall prev, v ::
              Invoke(b(prev), v) == if prevFirst then Notify(prev, v) + own(v) else own(v) + Notify(prev, v)
    ensures forall prev :: b(prev).Closure? && b(prev).captured == prev
  {
    prev => Closure(prev, (p: Option<Handler>, v) =>
      var inner := if p.Some? then p.value(v) else [];
      if prevFirst then inner + own(v) else own(v) + inner)
  }
}
