/** The text the default callback and `{:?}` produce for a call site:
    decimal rendering of the line number, `Debug` escaping of `&str`, and
    the two line formats. */
module Format {
  import opened CallTraceTypes

  predicate IsDigit(c: char) {
    '0' <= c <= '9'
  }

  predicate IsDigits(s: string) {
    forall i :: 0 <= i < |s| ==> IsDigit(s[i])
  }

  function Digit(d: nat): (c: char)
    requires d < 10
    ensures IsDigit(c) && (c - '0') as nat == d
  {
    '0' + d as char
  }

  /** `Display` of an unsigned integer: shortest decimal, no sign, no
      leading zero. */
  function Decimal(n: nat): (s: string)
    ensures s != [] && IsDigits(s)
    ensures s[0] == '0' <==> n == 0
    ensures s[0] == '0' ==> |s| == 1
  {
    if n < 10 then [Digit(n)] else Decimal(n / 10) + [Digit(n % 10)]
  }

  /** The number a string of decimal digits denotes. */
  function DecimalValue(s: string): nat
    requires IsDigits(s)
  {
    if s == [] then 0 else DecimalValue(s[..|s| - 1]) * 10 + (s[|s| - 1] - '0') as nat
  }

  lemma {:induction false} DecimalRoundTrip(n: nat)
    ensures DecimalValue(Decimal(n)) == n
  {
    if n >= 10 {
      var s := Decimal(n);
      assert s[..|s| - 1] == Decimal(n / 10);
      DecimalRoundTrip(n / 10);
    }
  }

  /** The characters `<str as Debug>` writes as a two-character escape. */
  predicate NeedsEscape(c: char) {
    c == '"' || c == '\\' || c == '\n' || c == '\r' || c == '\t' || c == '\0'
  }

  function EscapeChar(c: char): (e: string)
    ensures |e| == if NeedsEscape(c) then 2 else 1
  {
    match c
    case '"' => "\\\""
    case '\\' => "\\\\"
    case '\n' => "\\n"
    case '\r' => "\\r"
    case '\t' => "\\t"
    case '\0' => "\\0"
    case _ => [c]
  }

  /** The body of a `Debug`-formatted `&str`, without the quotes. */
  function EscapeDebug(s: string): (r: string)
    ensures |r| >= |s|
  {
    if s == [] then [] else EscapeChar(s[0]) + EscapeDebug(s[1..])
  }

  /** Reads back what `EscapeDebug` wrote. */
  function UnescapeDebug(s: string): string
  {
    if |s| >= 2 && s[0] == '\\' then
      [match s[1] case 'n' => '\n' case 'r' => '\r' case 't' => '\t' case '0' => '\0' case c => c]
      + UnescapeDebug(s[2..])
    else if s == [] then []
    else [s[0]] + UnescapeDebug(s[1..])
  }

  lemma {:induction false} EscapeDebugRoundTrip(s: string)
    ensures UnescapeDebug(EscapeDebug(s)) == s
  {
    if s != [] {
      var e, rest := EscapeChar(s[0]), EscapeDebug(s[1..]);
      assert EscapeDebug(s) == e + rest;
      if NeedsEscape(s[0]) {
        assert (e + rest)[2..] == rest;
      } else {
        assert (e + rest)[1..] == rest;
      }
      EscapeDebugRoundTrip(s[1..]);
    }
  }

  /** Escaping works character by character, so it distributes over
      concatenation. */
  lemma {:induction false} EscapeDebugAppend(a: string, b: string)
    ensures EscapeDebug(a + b) == EscapeDebug(a) + EscapeDebug(b)
  {
    if a != [] {
      assert (a + b)[0] == a[0] && (a + b)[1..] == a[1..] + b;
      EscapeDebugAppend(a[1..], b);
    } else {
      assert a + b == b;
    }
  }

  /** A string with nothing to escape is written as it is. */
  lemma {:induction false} EscapeDebugPlain(s: string)
    requires forall i :: 0 <= i < |s| ==> !NeedsEscape(s[i])
    ensures EscapeDebug(s) == s
  {
    if s != [] {
      EscapeDebugPlain(s[1..]);
    }
  }

  /** `format!("{:?}", s)` for a `&str`: the escaped text between double
      quotes. */
  function DebugStr(s: string): (r: string)
    ensures |r| >= |s| + 2
    ensures r[0] == '"' && r[|r| - 1] == '"'
  {
    "\"" + EscapeDebug(s) + "\""
  }

  /** What `{:?}` wrote for a string, read back between its quotes, is that
      string. */
  lemma DebugStrRoundTrip(s: string)
    ensures var r := DebugStr(s); UnescapeDebug(r[1..|r| - 1]) == s
  {
    var r := DebugStr(s);
    assert r[1..|r| - 1] == EscapeDebug(s);
    EscapeDebugRoundTrip(s);
  }

  /** `format!("{:?}", cctx)` for the derived `Debug` of `CallContext`: the
      struct name, then each field by name, in declaration order. */
  function DebugCallContext(c: CallContext): (r: string)
    ensures |r| > 20 && r[..20] == "CallContext { file: "
    ensures r[|r| - 2..] == " }"
  {
    "CallContext { file: " + DebugStr(c.file) + ", line: " + Decimal(c.line as nat)
    + ", fn_name: " + DebugStr(c.fnName) + " }"
  }

  /** The line the default callback writes to standard error:
      `[<file>:<line>] => <fn_name>()` on a call, `<=` on a return. */
  function DefaultLine(event: Event, top: CallContext): string {
    "[" + top.file + ":" + Decimal(top.line as nat) + "] "
    + (if event == Call then "=>" else "<=") + " " + top.fnName + "()"
  }

  /** The default callback's lines for a call and for the return from the
      same site differ: the arrow shows which event it was. */
  lemma DefaultLineTellsEventsApart(top: CallContext)
    ensures DefaultLine(Call, top) != DefaultLine(Return, top)
  {
    var prefix := "[" + top.file + ":" + Decimal(top.line as nat) + "] ";
    assert DefaultLine(Call, top)[|prefix|] == '=';
    assert DefaultLine(Return, top)[|prefix|] == '<';
  }
}
