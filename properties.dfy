/** What `on_trace` guarantees about the happenings of any traced call:
    the stack is used strictly last-in first-out, every callback sees its own
    call site on top of the stack, calls are announced in pre-order and
    returns in post-order of the call tree, and with no callback registered
    only the traced code's own output appears. */
module TraceProperties {
  import opened Wrappers
  import opened CallTraceTypes
  import opened Callbacks
  import opened Tracing

  /** Replays the dispatches among `steps` as a push/pop machine starting
      from `stack`: a call must be shown the current stack with its site
      pushed, a return must be shown the current stack with its own site on
      top, which it then pops. `None` as soon as a dispatch breaks this. */
  function CheckNesting(stack: seq<CallContext>, steps: seq<Step>): Option<seq<CallContext>>
    decreases |steps|
  {
    if steps == [] then Some(stack)
    else match steps[0]
      case Dispatch(Call, site, seen) =>
        if seen == stack + [site] then CheckNesting(seen, steps[1..]) else None
      case Dispatch(Return, site, seen) =>
        if seen == stack && seen[|seen| - 1] == site then CheckNesting(stack[..|stack| - 1], steps[1..])
        else None
      case _ => CheckNesting(stack, steps[1..])
  }

  lemma {:induction false} CheckNestingAppend(stack: seq<CallContext>, a: seq<Step>, b: seq<Step>)
    ensures CheckNesting(stack, a + b)
         == match CheckNesting(stack, a) case None => None case Some(t) => CheckNesting(t, b)
    decreases |a|
  {
    if a == [] {
      assert a + b == b;
    } else {
      assert (a + b)[0] == a[0] && (a + b)[1..] == a[1..] + b;
      match a[0]
      case Dispatch(Call, site, seen) =>
        if seen == stack + [site] { CheckNestingAppend(seen, a[1..], b); }
      case Dispatch(Return, site, seen) =>
        if seen == stack { CheckNestingAppend(stack[..|stack| - 1], a[1..], b); }
      case _ => CheckNestingAppend(stack, a[1..], b);
    }
  }

  /** LIFO: a traced call pushes exactly one frame, every nested call and
      return respects the stack, and the return pops the frame its call
      pushed, leaving the stack as it was. */
  lemma {:induction false} TraceNests(stack: seq<CallContext>, site: CallContext, w: Work)
    ensures CheckNesting(stack, TraceSteps(stack, site, w)) == Some(stack)
    decreases w, 1
  {
    var inner := stack + [site];
    var body := BodySteps(inner, w, |w.stmts|);
    BodyNests(inner, w, |w.stmts|);
    assert CheckNesting(stack, [Dispatch(Call, site, inner)]) == Some(inner);
    CheckNestingAppend(stack, [Dispatch(Call, site, inner)], body);
    assert inner[..|inner| - 1] == stack;
    assert CheckNesting(inner, [Dispatch(Return, site, inner)]) == Some(stack);
    CheckNestingAppend(stack, [Dispatch(Call, site, inner)] + body, [Dispatch(Return, site, inner)]);
  }

  lemma {:induction false} BodyNests(stack: seq<CallContext>, w: Work, n: nat)
    requires n <= |w.stmts|
    ensures CheckNesting(stack, BodySteps(stack, w, n)) == Some(stack)
    decreases w, 0, n
  {
    if n > 0 {
      BodyNests(stack, w, n - 1);
      var last := BodySteps(stack, w, n)[|BodySteps(stack, w, n - 1)|..];
      assert BodySteps(stack, w, n) == BodySteps(stack, w, n - 1) + last;
      CheckNestingAppend(stack, BodySteps(stack, w, n - 1), last);
      match w.stmts[n - 1]
      case Traced(site, body) => TraceNests(stack, site, body);
      case _ =>
    }
  }

  /** Any happenings that respect the stack show every callback its own
      call site as `top()`, on the call and on the return alike. */
  lemma {:induction false} NestingShowsSiteOnTop(stack: seq<CallContext>, steps: seq<Step>)
    requires CheckNesting(stack, steps).Some?
    ensures forall i :: 0 <= i < |steps| && steps[i].Dispatch? ==>
              View(steps[i].event, steps[i].seen).Top() == steps[i].site
    decreases |steps|
  {
    if steps != [] {
      var next := match steps[0]
        case Dispatch(Call, _, seen) => seen
        case Dispatch(Return, _, _) => stack[..|stack| - 1]
        case _ => stack;
      NestingShowsSiteOnTop(next, steps[1..]);
      forall i | 1 <= i < |steps| && steps[i].Dispatch?
        ensures View(steps[i].event, steps[i].seen).Top() == steps[i].site
      {
        assert steps[i] == steps[1..][i - 1];
      }
    }
  }

  /** While a traced call's callbacks run, `top()` is that callback's own
      call site, and the stack is never empty. */
  lemma TopIsSiteDuringDispatch(stack: seq<CallContext>, site: CallContext, w: Work)
    ensures var steps := TraceSteps(stack, site, w);
            forall i :: 0 <= i < |steps| && steps[i].Dispatch? ==>
              View(steps[i].event, steps[i].seen).Top() == steps[i].site
  {
    TraceNests(stack, site, w);
    NestingShowsSiteOnTop(stack, TraceSteps(stack, site, w));
  }

  /** The sites of the `event` dispatches among `steps`, in order. */
  function Sites(event: Event, steps: seq<Step>): seq<CallContext>
  {
    if steps == [] then []
    else (if steps[0].Dispatch? && steps[0].event == event then [steps[0].site] else [])
         + Sites(event, steps[1..])
  }

  lemma {:induction false} SitesAppend(event: Event, a: seq<Step>, b: seq<Step>)
    ensures Sites(event, a + b) == Sites(event, a) + Sites(event, b)
  {
    if a == [] {
      assert a + b == b;
    } else {
      assert (a + b)[0] == a[0] && (a + b)[1..] == a[1..] + b;
      SitesAppend(event, a[1..], b);
    }
  }

  /** The call tree rooted at `site` with body `w`, in pre-order. */
  function PreOrder(site: CallContext, w: Work): seq<CallContext>
    decreases w, 1
  {
    [site] + PreOrderBody(w, |w.stmts|)
  }

  function PreOrderBody(w: Work, n: nat): seq<CallContext>
    requires n <= |w.stmts|
    decreases w, 0, n
  {
    if n == 0 then []
    else PreOrderBody(w, n - 1) + match w.stmts[n - 1]
      case Traced(site, body) => PreOrder(site, body)
      case _ => []
  }

  /** The call tree rooted at `site` with body `w`, in post-order. */
  function PostOrder(site: CallContext, w: Work): seq<CallContext>
    decreases w, 1
  {
    PostOrderBody(w, |w.stmts|) + [site]
  }

  function PostOrderBody(w: Work, n: nat): seq<CallContext>
    requires n <= |w.stmts|
    decreases w, 0, n
  {
    if n == 0 then []
    else PostOrderBody(w, n - 1) + match w.stmts[n - 1]
      case Traced(site, body) => PostOrder(site, body)
      case _ => []
  }

  /** Nested traced calls are announced in pre-order of the call tree and
      their returns in post-order. */
  lemma {:induction false} TraceOrder(stack: seq<CallContext>, site: CallContext, w: Work)
    ensures Sites(Call, TraceSteps(stack, site, w)) == PreOrder(site, w)
    ensures Sites(Return, TraceSteps(stack, site, w)) == PostOrder(site, w)
    decreases w, 1
  {
    var inner := stack + [site];
    var first, body, last := [Dispatch(Call, site, inner)], BodySteps(inner, w, |w.stmts|), [Dispatch(Return, site, inner)];
    BodyOrder(inner, w, |w.stmts|);
    SitesAppend(Call, first + body, last);
    SitesAppend(Call, first, body);
    SitesAppend(Return, first + body, last);
    SitesAppend(Return, first, body);
  }

  lemma {:induction false} BodyOrder(stack: seq<CallContext>, w: Work, n: nat)
    requires n <= |w.stmts|
    ensures Sites(Call, BodySteps(stack, w, n)) == PreOrderBody(w, n)
    ensures Sites(Return, BodySteps(stack, w, n)) == PostOrderBody(w, n)
    decreases w, 0, n
  {
    if n > 0 {
      var before := BodySteps(stack, w, n - 1);
      BodyOrder(stack, w, n - 1);
      match w.stmts[n - 1]
      case Traced(site, body) =>
        SitesAppend(Call, before, TraceSteps(stack, site, body));
        SitesAppend(Return, before, TraceSteps(stack, site, body));
        TraceOrder(stack, site, body);
      case Println(text) =>
        SitesAppend(Call, before, [Print(text)]);
        SitesAppend(Return, before, [Print(text)]);
      case Register(f) =>
        SitesAppend(Call, before, [Registered(f)]);
        SitesAppend(Return, before, [Registered(f)]);
      case Unregister =>
        SitesAppend(Call, before, [Unregistered]);
        SitesAppend(Return, before, [Unregistered]);
    }
  }

  /** The body never registers or unregisters a callback, at any depth. */
  predicate RegistersNothing(w: Work)
    decreases w, 1
  {
    RegistersNothingBody(w, |w.stmts|)
  }

  predicate RegistersNothingBody(w: Work, n: nat)
    requires n <= |w.stmts|
    decreases w, 0, n
  {
    n == 0 ||
    (RegistersNothingBody(w, n - 1) &&
     match w.stmts[n - 1]
     case Println(_) => true
     case Traced(_, body) => RegistersNothing(body)
     case _ => false)
  }

  /** The body never registers a callback, at any depth; it may
      unregister one. */
  predicate NeverRegisters(w: Work)
    decreases w, 1
  {
    NeverRegistersBody(w, |w.stmts|)
  }

  predicate NeverRegistersBody(w: Work, n: nat)
    requires n <= |w.stmts|
    decreases w, 0, n
  {
    n == 0 ||
    (NeverRegistersBody(w, n - 1) &&
     match w.stmts[n - 1]
     case Register(_) => false
     case Traced(_, body) => NeverRegisters(body)
     case _ => true)
  }

  /** The lines the traced code itself prints, in execution order. */
  function Printed(w: Work): seq<Output>
    decreases w, 1
  {
    PrintedBody(w, |w.stmts|)
  }

  function PrintedBody(w: Work, n: nat): seq<Output>
    requires n <= |w.stmts|
    decreases w, 0, n
  {
    if n == 0 then []
    else PrintedBody(w, n - 1) + match w.stmts[n - 1]
      case Println(text) => [Stdout(text)]
      case Traced(_, body) => Printed(body)
      case _ => []
  }

  /** With the callback slot empty, and no registration on the way,
      tracing writes nothing of its own: the output is exactly what the
      traced code prints, and the slot stays empty (an unregistration finds
      it empty and leaves it so). */
  lemma {:induction false} SilentWithoutCallback(stack: seq<CallContext>, site: CallContext, w: Work)
    requires NeverRegisters(w)
    ensures Replay(None, TraceSteps(stack, site, w)) == Observed(None, Printed(w))
    decreases w, 1
  {
    var inner := stack + [site];
    var first, body, last := [Dispatch(Call, site, inner)], BodySteps(inner, w, |w.stmts|), [Dispatch(Return, site, inner)];
    SilentBody(inner, w, |w.stmts|);
    assert Replay(None, first) == Observed(None, []) by { assert first[..0] == []; }
    assert Replay(None, last) == Observed(None, []) by { assert last[..0] == []; }
    ReplayAppend(None, first, body);
    ReplayAppend(None, first + body, last);
  }

  lemma {:induction false} SilentBody(stack: seq<CallContext>, w: Work, n: nat)
    requires n <= |w.stmts| && NeverRegistersBody(w, n)
    ensures Replay(None, BodySteps(stack, w, n)) == Observed(None, PrintedBody(w, n))
    decreases w, 0, n
  {
    if n > 0 {
      SilentBody(stack, w, n - 1);
      var last := BodySteps(stack, w, n)[|BodySteps(stack, w, n - 1)|..];
      assert BodySteps(stack, w, n) == BodySteps(stack, w, n - 1) + last;
      ReplayAppend(None, BodySteps(stack, w, n - 1), last);
      match w.stmts[n - 1]
      case Println(text) => assert last[..0] == [];
      case Traced(site, body) => SilentWithoutCallback(stack, site, body);
      case Unregister => assert last[..0] == [];
    }
  }

  /** What a traced call writes when nothing registers or unregisters on
      the way: what the slot writes for the call, then what the body writes,
      then what the slot writes for the return, each callback shown the
      stack with the call's frame on top. */
  function Transcript(slot: Option<Callback>, stack: seq<CallContext>, site: CallContext, w: Work): seq<Output>
    decreases w, 1
  {
    var inner := stack + [site];
    Notify(slot, View(Call, inner)) + TranscriptBody(slot, inner, w, |w.stmts|) + Notify(slot, View(Return, inner))
  }

  function TranscriptBody(slot: Option<Callback>, stack: seq<CallContext>, w: Work, n: nat): seq<Output>
    requires n <= |w.stmts|
    decreases w, 0, n
  {
    if n == 0 then []
    else TranscriptBody(slot, stack, w, n - 1) + match w.stmts[n - 1]
      case Println(text) => [Stdout(text)]
      case Traced(site, body) => Transcript(slot, stack, site, body)
      case _ => []
  }

  /** A traced call whose code registers nothing keeps the callback slot
      and writes exactly its transcript. */
  lemma {:induction false} FixedSlotTranscript(slot: Option<Callback>, stack: seq<CallContext>, site: CallContext, w: Work)
    requires RegistersNothing(w)
    ensures Replay(slot, TraceSteps(stack, site, w)) == Observed(slot, Transcript(slot, stack, site, w))
    decreases w, 1
  {
    var inner := stack + [site];
    var first, body, last := [Dispatch(Call, site, inner)], BodySteps(inner, w, |w.stmts|), [Dispatch(Return, site, inner)];
    FixedSlotBody(slot, inner, w, |w.stmts|);
    assert Replay(slot, first) == Observed(slot, Notify(slot, View(Call, inner))) by { assert first[..0] == []; }
    assert Replay(slot, last) == Observed(slot, Notify(slot, View(Return, inner))) by { assert last[..0] == []; }
    ReplayAppend(slot, first, body);
    ReplayAppend(slot, first + body, last);
  }

  lemma {:induction false} FixedSlotBody(slot: Option<Callback>, stack: seq<CallContext>, w: Work, n: nat)
    requires n <= |w.stmts| && RegistersNothingBody(w, n)
    ensures Replay(slot, BodySteps(stack, w, n)) == Observed(slot, TranscriptBody(slot, stack, w, n))
    decreases w, 0, n
  {
    if n > 0 {
      FixedSlotBody(slot, stack, w, n - 1);
      var last := BodySteps(stack, w, n)[|BodySteps(stack, w, n - 1)|..];
      assert BodySteps(stack, w, n) == BodySteps(stack, w, n - 1) + last;
      ReplayAppend(slot, BodySteps(stack, w, n - 1), last);
      match w.stmts[n - 1]
      case Println(text) => assert last[..0] == [];
      case Traced(site, body) => FixedSlotTranscript(slot, stack, site, body);
    }
  }
}
