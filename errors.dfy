/** errors.go: the traceable error and its constructors.

    An error value is the nil interface, a plain error (anything that is not
    an errorTracer), or a `tracer` struct holding the wrapped error and a
    stack pointer.  Every constructor ends the same way: it adopts a stack
    that already exists, or it calls recordStack.  Capturing is modelled by
    threading a `Recorder` through the constructors (see Stacks.Capture): a
    constructor that captures returns the recorder advanced by one, one that
    adopts returns it unchanged.

    fmt.Sprintf is not interpreted: the constructors that format take it as
    the parameter `sprintf`.  The one format the package fixes itself,
    "%s: %v" in WrapMessage, is written out. */
module Errors {
  import opened GoStrings
  import opened Stacks

  datatype Error =
    | NilError
      /** Any non-nil error that is not an errorTracer; `text` is what its
          Error method returns. */
    | Plain(text: string)
      /** The `tracer` struct: the wrapped error (possibly nil) and the stack. */
    | Tracer(err: Error, stack: Stack)

  /** An operand of a formatting call: an error, or any other value. */
  datatype Arg = ErrorArg(e: Error) | Operand(text: string)

  /** fmt.Sprintf(template, args...). */
  type Printer = (string, seq<Arg>) -> string

  /** The first error along the chain of wrapped errs that is not a tracer. */
  function Root(e: Error): (r: Error)
    ensures !r.Tracer?
  {
    if e.Tracer? then Root(e.err) else e
  }

  /** The Error method: a tracer with a nil err has the empty message,
      otherwise it shows the wrapped error's message.  So a chain of tracers
      shows the text of the plain error at its root, or "" if nil is there. */
  function Message(e: Error): (r: string)
    requires !e.NilError?
    ensures Root(e).Plain? ==> r == Root(e).text
    ensures Root(e).NilError? ==> r == ""
  {
    match e
    case Plain(text) => text
    case Tracer(err, _) => if err.NilError? then "" else Message(err)
  }

  /** A tracer's message is "" when it wraps nil and the wrapped error's
      message otherwise; the stack plays no part. */
  lemma TracerMessage(err: Error, s: Stack)
    ensures Message(Tracer(err, s)) == if err.NilError? then "" else Message(err)
    ensures Message(Tracer(err, s)) == Message(Tracer(err, NilStack))
  {
  }

  /** How the %v verb prints an error operand: "<nil>" for the nil
      interface, but "" for a tracer over nil, which is a non-nil value;
      otherwise the text of the plain error at the root. */
  function Show(e: Error): (r: string)
    ensures e.NilError? ==> r == "<nil>"
    ensures e.Tracer? && Root(e).NilError? ==> r == ""
    ensures Root(e).Plain? ==> r == Root(e).text
  {
    if e.NilError? then "<nil>" else Message(e)
  }

  /** tracer.Cause: the stored err, exactly; together with the stored stack
      it is the whole tracer. */
  function Cause(t: Error): (c: Error)
    requires t.Tracer?
    ensures Tracer(c, t.stack) == t
  {
    t.err
  }

  /** tracer.Stack: the stored stack pointer, exactly. */
  function StackOf(t: Error): (s: Stack)
    requires t.Tracer?
    ensures Tracer(t.err, s) == t
  {
    t.stack
  }

  /** StackTrace: a non-tracer has no stack trace; a tracer's stack is
      rendered through `layout` (the call at errors.go:39 names no layout,
      so the model takes it as a parameter). */
  function StackTrace(err: Error, layout: string): (r: string)
    ensures !err.Tracer? ==> r == ""
    ensures err.Tracer? ==> r == Formatted(err.stack, layout)
  {
    if err.Tracer? then Formatted(err.stack, layout) else ""
  }

  // ---------------------------------------------------------------------
  // Construction

  /** `s` is the stack recordStack returns at `site` when the recorder is at
      `rec`, and `next` is the recorder afterwards: a fresh capture. */
  predicate Captures(rec: Recorder, site: seq<Frame>, s: Stack, next: Recorder) {
    (s, next) == Capture(rec, site)
  }

  /** The last step of every constructor: a tracer over `e` that adopts the
      given stack, or captures a fresh one at `site` when there is none. */
  function Attach(e: Error, adopted: Option<Stack>, rec: Recorder, site: seq<Frame>): (r: (Error, Recorder))
    ensures r.0.Tracer? && r.0.err == e
    ensures adopted.Some? ==> r.0.stack == adopted.value && r.1 == rec
    ensures adopted.None? ==> Captures(rec, site, r.0.stack, r.1)
  {
    match adopted
    case Some(s) => (Tracer(e, s), rec)
    case None =>
      var (s, next) := Capture(rec, site);
      (Tracer(e, s), next)
  }

  /** New: the message is fmt.Errorf(msg) and the stack is always captured,
      so it differs from every stack captured before. */
  function New(msg: string, sprintf: Printer, rec: Recorder, site: seq<Frame>): (r: (Error, Recorder))
    ensures r.0.Tracer? && Message(r.0) == sprintf(msg, [])
    ensures Captures(rec, site, r.0.stack, r.1)
    ensures forall s :: CapturedBefore(s, rec) ==> r.0.stack != s
  {
    Attach(Plain(sprintf(msg, [])), None, rec, site)
  }

  predicate IsTracerArg(a: Arg) {
    a.ErrorArg? && a.e.Tracer?
  }

  /** The position of the first operand, left to right, that is an
      errorTracer. */
  function FirstTracer(args: seq<Arg>): (r: Option<nat>)
    ensures r.Some? ==> r.value < |args| && IsTracerArg(args[r.value])
    ensures r.Some? ==> forall j :: 0 <= j < r.value ==> !IsTracerArg(args[j])
    ensures r.None? ==> forall j :: 0 <= j < |args| ==> !IsTracerArg(args[j])
  {
    if args == [] then None
    else if IsTracerArg(args[0]) then Some(0)
    else match FirstTracer(args[1..])
      case None => None
      case Some(i) => Some(i + 1)
  }

  /** Errorf: the message is fmt.Errorf(msg, args...); the stack is that of
      the first operand that is an errorTracer, and is captured only when no
      operand is one. */
  function Errorf(msg: string, args: seq<Arg>, sprintf: Printer, rec: Recorder, site: seq<Frame>): (r: (Error, Recorder))
    ensures r.0.Tracer? && Message(r.0) == sprintf(msg, args)
    ensures forall i :: 0 <= i < |args| && IsTracerArg(args[i]) && (forall j :: 0 <= j < i ==> !IsTracerArg(args[j]))
              ==> r.0.stack == args[i].e.stack && r.1 == rec
    ensures (forall i :: 0 <= i < |args| ==> !IsTracerArg(args[i])) ==> Captures(rec, site, r.0.stack, r.1)
  {
    var e := Plain(sprintf(msg, args));
    match FirstTracer(args)
    case Some(i) => Attach(e, Some(args[i].e.stack), rec, site)
    case None => Attach(e, None, rec, site)
  }

  /** Wrap: an errorTracer comes back unchanged; anything else (nil
      included) is wrapped as it is, with its message, over a fresh stack. */
  function Wrap(err: Error, rec: Recorder, site: seq<Frame>): (r: (Error, Recorder))
    ensures err.Tracer? ==> r == (err, rec)
    ensures !err.Tracer? ==> r.0.Tracer? && r.0.err == err && Captures(rec, site, r.0.stack, r.1)
    ensures r.0.Tracer? && Message(r.0) == if err.NilError? then "" else Message(err)
  {
    if err.Tracer? then (err, rec) else Attach(err, None, rec, site)
  }

  /** WrapMessage: the message is fmt.Errorf("%s: %v", msg, err); the stack
      is err's when err is an errorTracer, and freshly captured otherwise. */
  function WrapMessage(err: Error, msg: string, rec: Recorder, site: seq<Frame>): (r: (Error, Recorder))
    ensures r.0.Tracer? && Message(r.0) == msg + ": " + Show(err)
    ensures err.Tracer? ==> r.0.stack == err.stack && r.1 == rec
    ensures !err.Tracer? ==> Captures(rec, site, r.0.stack, r.1)
  {
    var e := Plain(msg + ": " + Show(err));
    if err.Tracer? then Attach(e, Some(err.stack), rec, site) else Attach(e, None, rec, site)
  }

  /** WrapMessagef: as WrapMessage, with the prefix fmt.Sprintf(msg, args...). */
  function WrapMessagef(err: Error, msg: string, args: seq<Arg>, sprintf: Printer, rec: Recorder, site: seq<Frame>)
    : (r: (Error, Recorder))
    ensures r.0.Tracer? && Message(r.0) == sprintf(msg, args) + ": " + Show(err)
    ensures err.Tracer? ==> r.0.stack == err.stack && r.1 == rec
    ensures !err.Tracer? ==> Captures(rec, site, r.0.stack, r.1)
  {
    var formattedMsg := sprintf(msg, args);
    var e := Plain(formattedMsg + ": " + Show(err));
    if err.Tracer? then Attach(e, Some(err.stack), rec, site) else Attach(e, None, rec, site)
  }

  // ---------------------------------------------------------------------
  // Chains of wrapping

  /** One wrapping call, with the call site it is made from. */
  datatype Wrapping =
    | WrapAt(site: seq<Frame>)
    | WrapMessageAt(msg: string, site: seq<Frame>)
    | WrapMessagefAt(template: string, args: seq<Arg>, site: seq<Frame>)

  function Step(e: Error, w: Wrapping, sprintf: Printer, rec: Recorder): (Error, Recorder) {
    match w
    case WrapAt(site) => Wrap(e, rec, site)
    case WrapMessageAt(msg, site) => WrapMessage(e, msg, rec, site)
    case WrapMessagefAt(template, args, site) => WrapMessagef(e, template, args, sprintf, rec, site)
  }

  /** The wrapping calls applied one after another, first to last. */
  function Chain(e: Error, ws: seq<Wrapping>, sprintf: Printer, rec: Recorder): (Error, Recorder)
    decreases |ws|
  {
    if ws == [] then (e, rec)
    else
      var (e1, rec1) := Step(e, ws[0], sprintf, rec);
      Chain(e1, ws[1..], sprintf, rec1)
  }

  /** Wrapping a tracer, any number of times and in any mix, keeps its stack
      and captures nothing. */
  lemma {:induction false} ChainKeepsStack(e: Error, ws: seq<Wrapping>, sprintf: Printer, rec: Recorder)
    requires e.Tracer?
    ensures Chain(e, ws, sprintf, rec).0.Tracer?
    ensures Chain(e, ws, sprintf, rec).0.stack == e.stack
    ensures Chain(e, ws, sprintf, rec).1 == rec
    decreases |ws|
  {
    if ws != [] {
      var (e1, rec1) := Step(e, ws[0], sprintf, rec);
      ChainKeepsStack(e1, ws[1..], sprintf, rec1);
    }
  }

  /** Single capture: wrapping a non-tracer any number of times (at least
      once) captures exactly one stack, at the first wrapping call's site,
      and the final error carries it. */
  lemma SingleCapture(e: Error, ws: seq<Wrapping>, sprintf: Printer, rec: Recorder)
    requires !e.Tracer? && ws != []
    ensures Chain(e, ws, sprintf, rec).0.Tracer?
    ensures Captures(rec, ws[0].site, Chain(e, ws, sprintf, rec).0.stack, Chain(e, ws, sprintf, rec).1)
    ensures Chain(e, ws, sprintf, rec).1.issued == rec.issued + 1
  {
    var (e1, rec1) := Step(e, ws[0], sprintf, rec);
    ChainKeepsStack(e1, ws[1..], sprintf, rec1);
  }

  /** The message a tracer's message becomes under the wrapping calls: each
      WrapMessage or WrapMessagef puts its prefix and ": " in front, and Wrap
      leaves it alone. */
  function Annotated(ws: seq<Wrapping>, sprintf: Printer, m: string): string
    decreases |ws|
  {
    if ws == [] then m
    else
      var m1 := match ws[0]
        case WrapAt(_) => m
        case WrapMessageAt(msg, _) => msg + ": " + m
        case WrapMessagefAt(template, args, _) => sprintf(template, args) + ": " + m;
      Annotated(ws[1..], sprintf, m1)
  }

  /** Wrapping a tracer changes its message only by the prefixes the calls
      add, innermost first. */
  lemma {:induction false} ChainMessage(e: Error, ws: seq<Wrapping>, sprintf: Printer, rec: Recorder)
    requires e.Tracer?
    ensures Chain(e, ws, sprintf, rec).0.Tracer?
    ensures Message(Chain(e, ws, sprintf, rec).0) == Annotated(ws, sprintf, Message(e))
    decreases |ws|
  {
    if ws != [] {
      var (e1, rec1) := Step(e, ws[0], sprintf, rec);
      ChainMessage(e1, ws[1..], sprintf, rec1);
    }
  }

  /** Wrap(Wrap(e)) is Wrap(e), with nothing captured the second time. */
  lemma WrapIdempotent(e: Error, rec: Recorder, site1: seq<Frame>, site2: seq<Frame>)
    ensures Wrap(Wrap(e, rec, site1).0, Wrap(e, rec, site1).1, site2) == Wrap(e, rec, site1)
  {
  }

  /** A stack trace exists only for tracers: StackTrace renders "" for nil
      and plain errors under every layout, and also for a tracer whose stack
      is nil or has no frames. */
  lemma StackTraceEmpty(err: Error, layout: string)
    requires !err.Tracer? || err.stack.NilStack? || err.stack.frames == []
    ensures StackTrace(err, layout) == ""
  {
  }
}
