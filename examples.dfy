// The crate documentation's examples, run on the model: `foo` calls `bar`
// once, `bar` calls `baz` twice and then prints `x + y = 30`; first with
// the default callback, then with two callbacks registered on top of it.

/** The call sites of the documentation's examples and the text written
    for them. */
module ExampleText {
  import opened CallTraceTypes
  import Format

  const SimpleFile := "call-trace/tests/call-trace.rs"
  const FooSite := CallContext(SimpleFile, 4, "foo")
  const BarSite := CallContext(SimpleFile, 10, "bar")
  const BazSite := CallContext(SimpleFile, 17, "baz")

  // The lines the default callback writes for the example's call sites.

  lemma FooCallLine()
    ensures Format.DefaultLine(Call, FooSite) == "[" + SimpleFile + ":4] => foo()"
  {
  }

  lemma FooReturnLine()
    ensures Format.DefaultLine(Return, FooSite) == "[" + SimpleFile + ":4] <= foo()"
  {
  }

  lemma BarCallLine()
    ensures Format.DefaultLine(Call, BarSite) == "[" + SimpleFile + ":10] => bar()"
  {
  }

  lemma BarReturnLine()
    ensures Format.DefaultLine(Return, BarSite) == "[" + SimpleFile + ":10] <= bar()"
  {
  }

  lemma BazCallLine()
    ensures Format.DefaultLine(Call, BazSite) == "[" + SimpleFile + ":17] => baz()"
  {
  }

  lemma BazReturnLine()
    ensures Format.DefaultLine(Return, BazSite) == "[" + SimpleFile + ":17] <= baz()"
  {
  }


  const RegisterFile := "call-trace/tests/call-trace-register.rs"
  const RegisterFooSite := CallContext(RegisterFile, 4, "foo")
  const RegisterBarSite := CallContext(RegisterFile, 10, "bar")
  const RegisterBazSite := CallContext(RegisterFile, 17, "baz")

  /** The line numbers of the examples' call sites, in decimal. */
  lemma LineNumbers()
    ensures Format.Decimal(4) == "4"
    ensures Format.Decimal(10) == "10"
    ensures Format.Decimal(17) == "17"
  {
  }

  /** A string between double quotes. */
  function Quoted(s: string): string
  {
    "\"" + s + "\""
  }

  /** The second example's file name has nothing to escape. */
  lemma RegisterFileIsPlain()
    ensures Format.DebugStr(RegisterFile) == Quoted(RegisterFile)
  {
    PlainFileName(RegisterFile);
  }

  // The file name arrives as a parameter rather than as a literal so that
  // the verifier does not evaluate `EscapeDebug` on the literal character
  // by character, which is far too slow.
  lemma PlainFileName(file: string)
    requires file == RegisterFile
    ensures Format.EscapeDebug(file) == file
  {
    Format.EscapeDebugPlain(file);
  }

  lemma FooIsPlain()
    ensures Format.DebugStr("foo") == Quoted("foo")
  {
  }

  lemma BarIsPlain()
    ensures Format.DebugStr("bar") == Quoted("bar")
  {
  }

  lemma BazIsPlain()
    ensures Format.DebugStr("baz") == Quoted("baz")
  {
  }

  // `{:?}` of the second example's call sites.

  const FooShown := "CallContext { file: " + Quoted(RegisterFile) + ", line: " + "4" + ", fn_name: " + Quoted("foo") + " }"

  lemma FooDebug()
    ensures Format.DebugCallContext(RegisterFooSite)
         == FooShown
  {
    LineNumbers();
    RegisterFileIsPlain();
    FooIsPlain();
  }

  const BarShown := "CallContext { file: " + Quoted(RegisterFile) + ", line: " + "10" + ", fn_name: " + Quoted("bar") + " }"

  lemma BarDebug()
    ensures Format.DebugCallContext(RegisterBarSite)
         == BarShown
  {
    LineNumbers();
    RegisterFileIsPlain();
    BarIsPlain();
  }

  const BazShown := "CallContext { file: " + Quoted(RegisterFile) + ", line: " + "17" + ", fn_name: " + Quoted("baz") + " }"

  lemma BazDebug()
    ensures Format.DebugCallContext(RegisterBazSite)
         == BazShown
  {
    LineNumbers();
    RegisterFileIsPlain();
    BazIsPlain();
  }
}

module DocExamples {
  import opened Wrappers
  import opened CallTraceTypes
  import opened Callbacks
  import opened TraceContext
  import opened Tracing
  import opened TraceProperties
  import opened ExampleText
  import Format

  const Baz := Work([], 15)

  /** `foo` calls `bar`, which calls `baz` twice and prints their sum; the
      call sites are those of `file`, at the lines of the `#[trace]`
      attributes `foo`, `bar` and `baz` carry there. */
  function FooIn(file: string, fooLine: u32, barLine: u32, bazLine: u32): Work
  {
    var baz := CallContext(file, bazLine, "baz");
    var bar := Work([Traced(baz, Baz), Traced(baz, Baz), Println("x + y = 30")], 0);
    Work([Traced(CallContext(file, barLine, "bar"), bar)], 0)
  }

  const Foo := FooIn(SimpleFile, 4, 10, 17)

  /** The event and call site of each dispatch among `steps`, in order. */
  function Events(steps: seq<Step>): seq<(Event, CallContext)>
  {
    if steps == [] then []
    else (if steps[0].Dispatch? then [(steps[0].event, steps[0].site)] else []) + Events(steps[1..])
  }

  /** The stack depth after each dispatch among `steps`. */
  function Depths(steps: seq<Step>): seq<nat>
  {
    if steps == [] then []
    else (if steps[0].Dispatch? then [if steps[0].event == Call then |steps[0].seen| else |steps[0].seen| - 1] else [])
         + Depths(steps[1..])
  }

  lemma {:induction false} EventsAppend(a: seq<Step>, b: seq<Step>)
    ensures Events(a + b) == Events(a) + Events(b)
    ensures Depths(a + b) == Depths(a) + Depths(b)
  {
    if a != [] {
      var ab := a + b;
      assert ab[0] == a[0];
      assert ab[1..] == a[1..] + b;
      EventsAppend(a[1..], b);
      assert Events(ab) == Events([a[0]]) + Events(a[1..] + b);
    } else {
      assert a + b == b;
    }
  }

  lemma EventsOne(step: Step)
    ensures Events([step]) == if step.Dispatch? then [(step.event, step.site)] else []
    ensures Depths([step]) == if step.Dispatch? then [if step.event == Call then |step.seen| else |step.seen| - 1] else []
  {
  }

  /** The happenings of one call of `baz` from `bar` called from `foo`. */
  function BazTrace(): seq<Step>
  {
    var s3 := [FooSite, BarSite, BazSite];
    [Dispatch(Call, BazSite, s3)] + [Dispatch(Return, BazSite, s3)]
  }

  /** The happenings of `foo()` called from a thread with an empty stack. */
  function FooTrace(): seq<Step>
  {
    var s1, s2 := [FooSite], [FooSite, BarSite];
    [Dispatch(Call, FooSite, s1)]
    + ([Dispatch(Call, BarSite, s2)] + (BazTrace() + BazTrace() + [Print("x + y = 30")]) + [Dispatch(Return, BarSite, s2)])
    + [Dispatch(Return, FooSite, s1)]
  }

  lemma FooSteps()
    ensures TraceSteps([], FooSite, Foo) == FooTrace()
  {
    var s1, s2, s3 := [FooSite], [FooSite, BarSite], [FooSite, BarSite, BazSite];
    var bar := Work([Traced(BazSite, Baz), Traced(BazSite, Baz), Println("x + y = 30")], 0);
    assert Foo == Work([Traced(BarSite, bar)], 0);
    assert [] + [FooSite] == s1 && s1 + [BarSite] == s2 && s2 + [BazSite] == s3;
    var baz := TraceSteps(s2, BazSite, Baz);
    assert baz == BazTrace();
    assert BodySteps(s2, bar, 1) == baz;
    assert BodySteps(s2, bar, 2) == baz + baz;
    assert BodySteps(s2, bar, 3) == baz + baz + [Print("x + y = 30")];
    assert BodySteps(s1, Foo, 1) == TraceSteps(s1, BarSite, bar);
  }

  lemma BazEvents()
    ensures Events(BazTrace()) == [(Call, BazSite), (Return, BazSite)]
    ensures Depths(BazTrace()) == [3, 2]
  {
  }

  lemma BarBodyEvents()
    ensures var body := BazTrace() + BazTrace() + [Print("x + y = 30")];
            Events(body) == [(Call, BazSite), (Return, BazSite), (Call, BazSite), (Return, BazSite)]
            && Depths(body) == [3, 2, 3, 2]
  {
    var baz := BazTrace();
    BazEvents();
    EventsOne(Print("x + y = 30"));
    EventsAppend(baz, baz);
    EventsAppend(baz + baz, [Print("x + y = 30")]);
  }

  /** What `bar`, called from `foo`, shows its observers. */
  lemma BarEvents()
    ensures var s2 := [FooSite, BarSite];
            var bar := [Dispatch(Call, BarSite, s2)] + (BazTrace() + BazTrace() + [Print("x + y = 30")])
                       + [Dispatch(Return, BarSite, s2)];
            Events(bar) == [(Call, BarSite), (Call, BazSite), (Return, BazSite),
                            (Call, BazSite), (Return, BazSite), (Return, BarSite)]
            && Depths(bar) == [2, 3, 2, 3, 2, 1]
  {
    var s2 := [FooSite, BarSite];
    var callBar, retBar := Dispatch(Call, BarSite, s2), Dispatch(Return, BarSite, s2);
    var body := BazTrace() + BazTrace() + [Print("x + y = 30")];
    BarBodyEvents();
    EventsOne(callBar); EventsOne(retBar);
    EventsAppend([callBar], body);
    EventsAppend([callBar] + body, [retBar]);
  }

  /** The call and return events of `foo()` nest like parentheses: calls in
      pre-order, returns in post-order, with the stack depth rising and
      falling by one at each event and ending where it began. */
  lemma FooEvents()
    ensures Events(TraceSteps([], FooSite, Foo))
         == [(Call, FooSite), (Call, BarSite), (Call, BazSite), (Return, BazSite),
             (Call, BazSite), (Return, BazSite), (Return, BarSite), (Return, FooSite)]
    ensures Depths(TraceSteps([], FooSite, Foo)) == [1, 2, 3, 2, 3, 2, 1, 0]
  {
    FooSteps();
    BarEvents();
    var s1, s2 := [FooSite], [FooSite, BarSite];
    var callFoo, retFoo := Dispatch(Call, FooSite, s1), Dispatch(Return, FooSite, s1);
    var bar := [Dispatch(Call, BarSite, s2)] + (BazTrace() + BazTrace() + [Print("x + y = 30")])
               + [Dispatch(Return, BarSite, s2)];
    EventsOne(callFoo); EventsOne(retFoo);
    EventsAppend([callFoo], bar);
    EventsAppend([callFoo] + bar, [retFoo]);
  }

  /** The body of a `foo` that registers nothing, and what any callback
      slot makes of it: one notification per call and per return, around
      `bar`'s printed line. */
  lemma FooTranscript(slot: Option<Callback>, file: string, fooLine: u32, barLine: u32, bazLine: u32)
    ensures RegistersNothing(FooIn(file, fooLine, barLine, bazLine))
    ensures var foo, bar, baz := CallContext(file, fooLine, "foo"), CallContext(file, barLine, "bar"), CallContext(file, bazLine, "baz");
            var s1, s2, s3 := [foo], [foo, bar], [foo, bar, baz];
            var bazOut := Notify(slot, View(Call, s3)) + Notify(slot, View(Return, s3));
            Transcript(slot, [], foo, FooIn(file, fooLine, barLine, bazLine)) ==
              Notify(slot, View(Call, s1))
              + (Notify(slot, View(Call, s2)) + (bazOut + bazOut + [Stdout("x + y = 30")]) + Notify(slot, View(Return, s2)))
              + Notify(slot, View(Return, s1))
  {
    var foo, bar, baz := CallContext(file, fooLine, "foo"), CallContext(file, barLine, "bar"), CallContext(file, bazLine, "baz");
    var s1, s2, s3 := [foo], [foo, bar], [foo, bar, baz];
    var barWork := Work([Traced(baz, Baz), Traced(baz, Baz), Println("x + y = 30")], 0);
    var fooWork := FooIn(file, fooLine, barLine, bazLine);
    assert fooWork == Work([Traced(bar, barWork)], 0);
    assert [] + [foo] == s1 && s1 + [bar] == s2 && s2 + [baz] == s3;
    assert RegistersNothing(Baz);
    assert RegistersNothingBody(barWork, 2);
    assert RegistersNothing(barWork);
    var bazOut := Transcript(slot, s2, baz, Baz);
    assert bazOut == Notify(slot, View(Call, s3)) + Notify(slot, View(Return, s3));
    assert TranscriptBody(slot, s2, barWork, 1) == bazOut;
    assert TranscriptBody(slot, s2, barWork, 2) == bazOut + bazOut;
    assert TranscriptBody(slot, s2, barWork, 3) == bazOut + bazOut + [Stdout("x + y = 30")];
    assert TranscriptBody(slot, s1, fooWork, 1) == Transcript(slot, s1, bar, barWork);
  }

  /** What the default callback writes around `foo()` called from an
      empty stack. */
  lemma SimpleTranscript()
    ensures RegistersNothing(Foo)
    ensures Transcript(Some(DefaultCallback), [], FooSite, Foo) == [
      Stderr("[" + SimpleFile + ":4] => foo()"),
      Stderr("[" + SimpleFile + ":10] => bar()"),
      Stderr("[" + SimpleFile + ":17] => baz()"),
      Stderr("[" + SimpleFile + ":17] <= baz()"),
      Stderr("[" + SimpleFile + ":17] => baz()"),
      Stderr("[" + SimpleFile + ":17] <= baz()"),
      Stdout("x + y = 30"),
      Stderr("[" + SimpleFile + ":10] <= bar()"),
      Stderr("[" + SimpleFile + ":4] <= foo()")]
  {
    var slot := Some(DefaultCallback);
    FooTranscript(slot, SimpleFile, 4, 10, 17);
    var s1, s2, s3 := [FooSite], [FooSite, BarSite], [FooSite, BarSite, BazSite];
    FooCallLine(); FooReturnLine(); BarCallLine(); BarReturnLine(); BazCallLine(); BazReturnLine();
    var callFoo, retFoo := Notify(slot, View(Call, s1)), Notify(slot, View(Return, s1));
    var callBar, retBar := Notify(slot, View(Call, s2)), Notify(slot, View(Return, s2));
    var callBaz, retBaz := Notify(slot, View(Call, s3)), Notify(slot, View(Return, s3));
    assert callFoo == [Stderr("[" + SimpleFile + ":4] => foo()")];
    assert retFoo == [Stderr("[" + SimpleFile + ":4] <= foo()")];
    assert callBar == [Stderr("[" + SimpleFile + ":10] => bar()")];
    assert retBar == [Stderr("[" + SimpleFile + ":10] <= bar()")];
    assert callBaz == [Stderr("[" + SimpleFile + ":17] => baz()")];
    assert retBaz == [Stderr("[" + SimpleFile + ":17] <= baz()")];
  }

  /** `fn main() { foo(); }` on a fresh thread: the default callback's
      lines around `bar`'s own output, exactly as the crate documentation
      shows them. */
  method RunSimpleExample() returns (out: seq<Output>)
    ensures out == [
      Stderr("[" + SimpleFile + ":4] => foo()"),
      Stderr("[" + SimpleFile + ":10] => bar()"),
      Stderr("[" + SimpleFile + ":17] => baz()"),
      Stderr("[" + SimpleFile + ":17] <= baz()"),
      Stderr("[" + SimpleFile + ":17] => baz()"),
      Stderr("[" + SimpleFile + ":17] <= baz()"),
      Stdout("x + y = 30"),
      Stderr("[" + SimpleFile + ":10] <= bar()"),
      Stderr("[" + SimpleFile + ":4] <= foo()")]
  {
    var ctx := new Context();
    var _ := OnTrace(ctx, Foo, FooSite);
    out := ctx.output;
    SimpleTranscript();
    FixedSlotTranscript(Some(DefaultCallback), [], FooSite, Foo);
  }

  /** `|_| |_, event| if event == Event::Call { println!("Hello world") }`. */
  function Hello(): Handler
  {
    (v: View) => if v.event == Call then [Stdout("Hello world")] else []
  }

  /** `match event { Call => println!("> {:?}", ctx.top()), Return => println!("< {:?}", ctx.top()) }`. */
  function ShowTop(): Handler
  {
    (v: View) => [Stdout((if v.event == Call then "> " else "< ") + Format.DebugCallContext(v.Top()))]
  }

  const RegisterFoo := FooIn(RegisterFile, 4, 10, 17)

  /** The second example's callback slot after both registrations. */
  const Layered := Some(Layering(ShowTop(), true)(Some(Replacing(Hello())(Some(DefaultCallback)))))

  /** On a call, the layered callback says hello (the default callback it
      replaced is gone) and then shows `top()`. */
  lemma LayeredCall(stack: ActiveStack)
    ensures Notify(Layered, View(Call, stack))
         == [Stdout("Hello world"), Stdout("> " + Format.DebugCallContext(stack[|stack| - 1]))]
  {
  }

  /** On a return, it only shows `top()`. */
  lemma LayeredReturn(stack: ActiveStack)
    ensures Notify(Layered, View(Return, stack))
         == [Stdout("< " + Format.DebugCallContext(stack[|stack| - 1]))]
  {
  }

  /** The order in which the second example's lines come out, whatever
      the lines are. */
  lemma LayeredShape<T>(hello: T, callFoo: T, retFoo: T, callBar: T, retBar: T, callBaz: T, retBaz: T, sum: T)
    ensures var bazOut := [hello, callBaz] + [retBaz];
            [hello, callFoo] + ([hello, callBar] + (bazOut + bazOut + [sum]) + [retBar]) + [retFoo]
            == [hello, callFoo, hello, callBar, hello, callBaz, retBaz, hello, callBaz, retBaz, sum, retBar, retFoo]
  {
  }

  /** The second example's transcript, for any callback slot that writes
      what the layered callback writes at each of its call sites. */
  lemma CustomTranscriptOf(slot: Option<Callback>)
    requires Notify(slot, View(Call, [RegisterFooSite])) == [Stdout("Hello world"), Stdout("> " + FooShown)]
    requires Notify(slot, View(Return, [RegisterFooSite])) == [Stdout("< " + FooShown)]
    requires Notify(slot, View(Call, [RegisterFooSite, RegisterBarSite])) == [Stdout("Hello world"), Stdout("> " + BarShown)]
    requires Notify(slot, View(Return, [RegisterFooSite, RegisterBarSite])) == [Stdout("< " + BarShown)]
    requires Notify(slot, View(Call, [RegisterFooSite, RegisterBarSite, RegisterBazSite]))
          == [Stdout("Hello world"), Stdout("> " + BazShown)]
    requires Notify(slot, View(Return, [RegisterFooSite, RegisterBarSite, RegisterBazSite])) == [Stdout("< " + BazShown)]
    ensures RegistersNothing(RegisterFoo)
    ensures Transcript(slot, [], RegisterFooSite, RegisterFoo) == [
              Stdout("Hello world"),
              Stdout("> " + FooShown),
              Stdout("Hello world"),
              Stdout("> " + BarShown),
              Stdout("Hello world"),
              Stdout("> " + BazShown),
              Stdout("< " + BazShown),
              Stdout("Hello world"),
              Stdout("> " + BazShown),
              Stdout("< " + BazShown),
              Stdout("x + y = 30"),
              Stdout("< " + BarShown),
              Stdout("< " + FooShown)]
  {
    FooTranscript(slot, RegisterFile, 4, 10, 17);
    LayeredShape(Stdout("Hello world"), Stdout("> " + FooShown), Stdout("< " + FooShown),
                 Stdout("> " + BarShown), Stdout("< " + BarShown),
                 Stdout("> " + BazShown), Stdout("< " + BazShown), Stdout("x + y = 30"));
  }

  lemma LayeredCallAtFoo()
    ensures Notify(Layered, View(Call, [RegisterFooSite])) == [Stdout("Hello world"), Stdout("> " + FooShown)]
  {
    LayeredCall([RegisterFooSite]);
    FooDebug();
  }

  lemma LayeredReturnAtFoo()
    ensures Notify(Layered, View(Return, [RegisterFooSite])) == [Stdout("< " + FooShown)]
  {
    LayeredReturn([RegisterFooSite]);
    FooDebug();
  }

  lemma LayeredCallAtBar()
    ensures Notify(Layered, View(Call, [RegisterFooSite, RegisterBarSite])) == [Stdout("Hello world"), Stdout("> " + BarShown)]
  {
    LayeredCall([RegisterFooSite, RegisterBarSite]);
    BarDebug();
  }

  lemma LayeredReturnAtBar()
    ensures Notify(Layered, View(Return, [RegisterFooSite, RegisterBarSite])) == [Stdout("< " + BarShown)]
  {
    LayeredReturn([RegisterFooSite, RegisterBarSite]);
    BarDebug();
  }

  lemma LayeredCallAtBaz()
    ensures Notify(Layered, View(Call, [RegisterFooSite, RegisterBarSite, RegisterBazSite])) == [Stdout("Hello world"), Stdout("> " + BazShown)]
  {
    LayeredCall([RegisterFooSite, RegisterBarSite, RegisterBazSite]);
    BazDebug();
  }

  lemma LayeredReturnAtBaz()
    ensures Notify(Layered, View(Return, [RegisterFooSite, RegisterBarSite, RegisterBazSite])) == [Stdout("< " + BazShown)]
  {
    LayeredReturn([RegisterFooSite, RegisterBarSite, RegisterBazSite]);
    BazDebug();
  }

  /** The thirteen lines the documentation prints for the second example. */
  const CustomOutput := [
    Stdout("Hello world"),
    Stdout("> " + FooShown),
    Stdout("Hello world"),
    Stdout("> " + BarShown),
    Stdout("Hello world"),
    Stdout("> " + BazShown),
    Stdout("< " + BazShown),
    Stdout("Hello world"),
    Stdout("> " + BazShown),
    Stdout("< " + BazShown),
    Stdout("x + y = 30"),
    Stdout("< " + BarShown),
    Stdout("< " + FooShown)]

  /** The slot and the output after `foo()` runs under the layered
      callback from an empty stack. */
  lemma CustomReplay()
    ensures Replay(Layered, TraceSteps([], RegisterFooSite, RegisterFoo)) == Observed(Layered, CustomOutput)
  {
    LayeredCallAtFoo(); LayeredReturnAtFoo();
    LayeredCallAtBar(); LayeredReturnAtBar();
    LayeredCallAtBaz(); LayeredReturnAtBaz();
    CustomTranscriptOf(Layered);
    FixedSlotTranscript(Layered, [], RegisterFooSite, RegisterFoo);
  }

  /** The first two statements of the custom-callback example's `main`, on
      a fresh thread: register a callback that drops the default one and
      says hello on every call, then one that calls it and then shows
      `top()`. */
  method RegisterExampleCallbacks() returns (ctx: Context)
    ensures fresh(ctx)
    ensures ctx.callback == Layered
    ensures ctx.stack == [] && ctx.output == []
  {
    ctx := new Context();
    ThreadRegisterCallback(ctx, Replacing(Hello()));
    ThreadRegisterCallback(ctx, Layering(ShowTop(), true));
  }

  /** The custom-callback example's `main`: the two registrations, then
      `foo()`. The output is exactly the one the crate documentation shows;
      no default `[file:line]` line appears. */
  method RunCustomCallbackExample() returns (out: seq<Output>)
    ensures out == CustomOutput
  {
    var ctx := RegisterExampleCallbacks();
    var _ := OnTrace(ctx, RegisterFoo, RegisterFooSite);
    CustomReplay();
    assert [] + CustomOutput == CustomOutput;
    out := ctx.output;
  }
}
