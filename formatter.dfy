/** formatter.go: the package-level layout that ApplyFormatter replaces and
    that every per-frame rendering reads.

    The package variable `tracerFormatter` lives in a `Config` object, which
    stands for the package's global state: there is one of it per program,
    created with the default layout. */
module Formatters {
  import opened GoStrings
  import Stacks

  /** A layout template. */
  type Formatter = string

  // The layout presets of formatter.go: the same texts as stack.go's.
  const DefaultFormatter: Formatter := Stacks.DefaultFormatter
  const JavaLikeFormatter: Formatter := Stacks.JavaLikeFormatter
  const GoLikeFormatter: Formatter := Stacks.GoLikeFormatter
  const PythonLikeFormatter: Formatter := Stacks.PythonLikeFormatter

  class Config {
    /** The package variable tracerFormatter. */
    var tracerFormatter: Formatter

    /** The variable's initial value is the default layout. */
    constructor ()
      ensures tracerFormatter == DefaultFormatter
    {
      tracerFormatter := DefaultFormatter;
    }

    /** ApplyFormatter stores its argument as given, the empty layout
        included; nothing else changes. */
    method ApplyFormatter(formatter: Formatter)
      modifies this
      ensures tracerFormatter == formatter
    {
      tracerFormatter := formatter;
    }

    /** Formatter.format: the receiver `f` is not consulted; the frame is
        rendered through the current package-level layout.  An empty layout
        renders nothing, and the default layout renders "<file>:<line>\n". */
    function Format(f: Formatter, frame: Stacks.Frame): (r: string)
      reads this
      ensures r == Stacks.RenderFrame(tracerFormatter, frame)
      ensures tracerFormatter == "" ==> r == ""
      ensures (tracerFormatter == DefaultFormatter && !Contains(frame.file, Stacks.LineToken))
              ==> r == frame.file + ":" + Itoa(frame.line) + "\n"
    {
      Stacks.RenderFrameEmpty(frame);
      if tracerFormatter == DefaultFormatter && !Contains(frame.file, Stacks.LineToken) then
        Stacks.RenderFrameDefault(frame);
        Stacks.RenderFrame(tracerFormatter, frame)
      else
        Stacks.RenderFrame(tracerFormatter, frame)
    }
  }

  /** Two receivers render the same frame identically: only the package
      layout matters. */
  lemma FormatIgnoresReceiver(c: Config, f: Formatter, g: Formatter, frame: Stacks.Frame)
    ensures c.Format(f, frame) == c.Format(g, frame)
  {
  }

  /** The last ApplyFormatter wins, and every later rendering uses the
      layout it stored, whatever the receiver. */
  method ApplyThenFormat(c: Config, first: Formatter, second: Formatter, f: Formatter, frame: Stacks.Frame)
    returns (r: string)
    modifies c
    ensures c.tracerFormatter == second
    ensures r == Stacks.RenderFrame(second, frame)
  {
    c.ApplyFormatter(first);
    c.ApplyFormatter(second);
    r := c.Format(f, frame);
  }

  /** The example program's set-up: after ApplyFormatter(GoLikeFormatter) a
      frame renders as "<function>\n\t<file>:<line>\n", provided neither
      name contains a keyword that a later step would find in it. */
  method ApplyGoLikeThenFormat(c: Config, f: Formatter, frame: Stacks.Frame) returns (r: string)
    requires !Contains(frame.functionName, Stacks.FileToken)
    requires !Contains(frame.functionName, Stacks.LineToken) && !Contains(frame.file, Stacks.LineToken)
    modifies c
    ensures c.tracerFormatter == GoLikeFormatter
    ensures r == frame.functionName + "\n\t" + frame.file + ":" + Itoa(frame.line) + "\n"
  {
    c.ApplyFormatter(GoLikeFormatter);
    r := c.Format(f, frame);
    Stacks.RenderFrameGoLike(frame);
  }

  /** After ApplyFormatter(""), every frame renders to the empty string: the
      empty layout is not replaced by the default here, unlike in
      Stack.Format. */
  method ApplyEmptyThenFormat(c: Config, f: Formatter, frame: Stacks.Frame) returns (r: string)
    modifies c
    ensures c.tracerFormatter == "" && r == ""
  {
    c.ApplyFormatter("");
    r := c.Format(f, frame);
  }
}
