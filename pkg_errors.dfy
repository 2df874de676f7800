/** pkg/errors.go: the exported-interface copy of the tracer.

    Its tracer, Error, Cause, Stack, New, Errorf, Wrap, WrapMessage and
    WrapMessagef are line for line those of errors.go, with the interface
    exported as ErrorTracer and the stack type as Stack, so module Errors
    models both.  This module states, of that model, what the package's own
    tests check: the rendered message, whether the stack was adopted or
    captured, and that the first rendered frame is the constructor's call
    site. */
module PkgErrors {
  import opened GoStrings
  import opened Stacks
  import opened Errors

  /** New renders its message and captures a stack whose default rendering
      starts with "<file>:<line>" of the call site. */
  lemma NewStackError(sprintf: Printer, rec: Recorder, site: seq<Frame>)
    requires sprintf("something wrong", []) == "something wrong"
    requires site != [] && !Contains(site[0].file, LineToken)
    ensures New("something wrong", sprintf, rec, site).0.Tracer?
    ensures Message(New("something wrong", sprintf, rec, site).0) == "something wrong"
    ensures var s := New("something wrong", sprintf, rec, site).0.stack;
            s.Captured? && s.frames != [] &&
            Formatted(s, "") == site[0].file + ":" + Itoa(site[0].line) + "\n" + Render(DefaultFormatter, s.frames[1..])
  {
    var s := New("something wrong", sprintf, rec, site).0.stack;
    assert s.frames == site[..Min(MaxDepth, |site|)];
    FormattedDefaultFirstLine(s, "");
  }

  /** Errorf with no error operand renders the formatted message and
      captures a stack at its own call site. */
  lemma ErrorfError(sprintf: Printer, rec: Recorder, site: seq<Frame>)
    requires sprintf("%s", [Operand("something wrong")]) == "something wrong"
    ensures var (e, next) := Errorf("%s", [Operand("something wrong")], sprintf, rec, site);
            e.Tracer? && Message(e) == "something wrong" && Captures(rec, site, e.stack, next)
  {
  }

  /** Errorf("%v", New(m)) renders m and adopts the inner error's stack,
      capturing nothing. */
  lemma ErrorfStackError(m: string, sprintf: Printer, rec: Recorder, site1: seq<Frame>, site2: seq<Frame>)
    requires sprintf(m, []) == m
    requires forall e :: sprintf("%v", [ErrorArg(e)]) == Show(e)
    ensures var (inner, rec1) := New(m, sprintf, rec, site1);
            var (wrap, rec2) := Errorf("%v", [ErrorArg(inner)], sprintf, rec1, site2);
            wrap.Tracer? && Message(wrap) == m && wrap.stack == inner.stack && rec2 == rec1
  {
    var (inner, rec1) := New(m, sprintf, rec, site1);
    var args := [ErrorArg(inner)];
    assert IsTracerArg(args[0]);
  }

  /** Wrap of a plain error keeps its message and captures at the Wrap call;
      Wrap of a tracer returns it, stack included. */
  lemma WrapError(sprintf: Printer, rec: Recorder, site1: seq<Frame>, site2: seq<Frame>)
    requires sprintf("something wrong", []) == "something wrong"
    ensures var (wrap, next) := Wrap(Plain("something wrong"), rec, site1);
            wrap.Tracer? && Message(wrap) == "something wrong" && Captures(rec, site1, wrap.stack, next)
    ensures var (inner, rec1) := New("something wrong", sprintf, rec, site1);
            Wrap(inner, rec1, site2) == (inner, rec1)
  {
  }

  /** Wrap(nil) is a tracer over a nil err, and its message is "". */
  lemma WrapNilError(rec: Recorder, site: seq<Frame>)
    ensures var (wrap, next) := Wrap(NilError, rec, site);
            wrap.Tracer? && wrap.err == NilError && Message(wrap) == "" && Captures(rec, site, wrap.stack, next)
  {
  }

  /** WrapMessage renders "At someplace: something wrong"; it captures at its
      call for a plain error and keeps New's stack for a tracer. */
  lemma WrapMessageError(sprintf: Printer, rec: Recorder, site1: seq<Frame>, site2: seq<Frame>)
    requires sprintf("something wrong", []) == "something wrong"
    ensures var (wrap, next) := WrapMessage(Plain("something wrong"), "At someplace", rec, site1);
            wrap.Tracer? && Message(wrap) == "At someplace: something wrong" && Captures(rec, site1, wrap.stack, next)
    ensures var (inner, rec1) := New("something wrong", sprintf, rec, site1);
            var (wrap, rec2) := WrapMessage(inner, "At someplace", rec1, site2);
            wrap.Tracer? && Message(wrap) == "At someplace: something wrong" && wrap.stack == inner.stack && rec2 == rec1
  {
  }

  /** WrapMessagef renders "At someplace here: something wrong", with the
      same adoption rule as WrapMessage. */
  lemma WrapMessagefError(sprintf: Printer, rec: Recorder, site1: seq<Frame>, site2: seq<Frame>)
    requires sprintf("something wrong", []) == "something wrong"
    requires sprintf("At someplace %s", [Operand("here")]) == "At someplace here"
    ensures var (wrap, next) := WrapMessagef(Plain("something wrong"), "At someplace %s", [Operand("here")], sprintf, rec, site1);
            wrap.Tracer? && Message(wrap) == "At someplace here: something wrong" && Captures(rec, site1, wrap.stack, next)
    ensures var (inner, rec1) := New("something wrong", sprintf, rec, site1);
            var (wrap, rec2) := WrapMessagef(inner, "At someplace %s", [Operand("here")], sprintf, rec1, site2);
            wrap.Tracer? && Message(wrap) == "At someplace here: something wrong" && wrap.stack == inner.stack && rec2 == rec1
  {
  }

  /** Two New calls with the same message give different errors, because
      each captures its own stack; each error equals itself. */
  lemma Comparable(msg: string, sprintf: Printer, rec: Recorder, site1: seq<Frame>, site2: seq<Frame>)
    ensures var (e1, rec1) := New(msg, sprintf, rec, site1);
            var (e2, _) := New(msg, sprintf, rec1, site2);
            e1 == e1 && e1 != e2
  {
  }
}
