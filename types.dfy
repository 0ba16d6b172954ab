/** The value types of the tracing runtime: optional values, the call-site
    descriptor `CallContext`, the `Event` enum, the ordering that
    `#[derive(Ord)]` gives them, and what a callback is shown when it runs. */
module Wrappers {

  datatype Option<+T> = None | Some(value: T)
}

module CallTraceTypes {

  /** Rust's `u32`, the type of `line!()`. */
  newtype u32 = x: int | 0 <= x < 0x1_0000_0000

  /** Where an instrumented call happened: the `file!()`, the `line!()` of
      the `#[trace]` attribute and the unqualified function name. */
  datatype CallContext = CallContext(file: string, line: u32, fnName: string)

  /** Why a callback is being invoked. */
  datatype Event = Call | Return

  /** The result of a derived `Ord::cmp`. */
  datatype Ordering = Less | Equal | Greater {
    function Reverse(): Ordering {
      match this
      case Less => Greater
      case Equal => Equal
      case Greater => Less
    }
  }

  /** The derived order of `Event`: variants in declaration order. */
  function CompareEvents(a: Event, b: Event): (r: Ordering)
    ensures r == Equal <==> a == b
    ensures r == Less <==> a.Call? && b.Return?
    ensures r == Greater <==> a.Return? && b.Call?
  {
    if a == b then Equal else if a.Call? then Less else Greater
  }

  /** Lexicographic order of strings, as `str::cmp` orders them (UTF-8 byte
      order coincides with code-point order). */
  function CompareStrings(a: string, b: string): (r: Ordering)
    ensures r == Equal <==> a == b
  {
    if a == [] then (if b == [] then Equal else Less)
    else if b == [] then Greater
    else if a[0] < b[0] then Less
    else if b[0] < a[0] then Greater
    else
      assert a == [a[0]] + a[1..] && b == [b[0]] + b[1..];
      CompareStrings(a[1..], b[1..])
  }

  lemma {:induction false} CompareStringsAntisymmetric(a: string, b: string)
    ensures CompareStrings(b, a) == CompareStrings(a, b).Reverse()
  {
    if a != [] && b != [] && a[0] == b[0] {
      CompareStringsAntisymmetric(a[1..], b[1..]);
    }
  }

  lemma {:induction false} CompareStringsTransitive(a: string, b: string, c: string)
    requires CompareStrings(a, b) == Less && CompareStrings(b, c) == Less
    ensures CompareStrings(a, c) == Less
  {
    if a != [] && a[0] == b[0] && b[0] == c[0] {
      CompareStringsTransitive(a[1..], b[1..], c[1..]);
    }
  }

  /** The derived order of `CallContext`: by `file`, then `line`, then
      `fn_name`. */
  function CompareCallContexts(a: CallContext, b: CallContext): (r: Ordering)
    ensures r == Equal <==> a == b
  {
    var byFile := CompareStrings(a.file, b.file);
    if byFile != Equal then byFile
    else if a.line < b.line then Less
    else if b.line < a.line then Greater
    else CompareStrings(a.fnName, b.fnName)
  }

  lemma CompareCallContextsAntisymmetric(a: CallContext, b: CallContext)
    ensures CompareCallContexts(b, a) == CompareCallContexts(a, b).Reverse()
  {
    CompareStringsAntisymmetric(a.file, b.file);
    CompareStringsAntisymmetric(a.fnName, b.fnName);
  }

  /** The order of `CallContext` is transitive, so with antisymmetry it is
      the total order `#[derive(Ord)]` promises. */
  lemma CompareCallContextsTransitive(a: CallContext, b: CallContext, c: CallContext)
    requires CompareCallContexts(a, b) == Less && CompareCallContexts(b, c) == Less
    ensures CompareCallContexts(a, c) == Less
  {
    CompareStringsAntisymmetric(a.file, b.file);
    CompareStringsAntisymmetric(b.file, c.file);
    CompareStringsAntisymmetric(a.file, c.file);
    if CompareStrings(a.file, b.file) == Less && CompareStrings(b.file, c.file) == Less {
      CompareStringsTransitive(a.file, b.file, c.file);
    }
    if a.file == b.file && b.file == c.file && a.line == b.line && b.line == c.line {
      CompareStringsTransitive(a.fnName, b.fnName, c.fnName);
    }
  }

  /** A call stack that holds at least one frame: the only kind a callback
      is ever shown. */
  type ActiveStack = s: seq<CallContext> | s != [] witness [CallContext("", 0, "")]

  /** What a callback can observe through its `&mut Context` argument while
      it runs: the event, and the call stack with `top()` as its last frame. */
  datatype View = View(event: Event, stack: ActiveStack) {
    function Top(): CallContext {
      stack[|stack| - 1]
    }
  }
}
