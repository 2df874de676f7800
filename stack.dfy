/** stack.go: capturing a call stack and rendering it through a layout.

    A `*Stack` is either nil or a pointer to the program counters that
    recordStack captured.  The model keeps the pointer's identity as a number
    handed out by a `Recorder` (every capture allocates a new slice, so no two
    captures share an identity) and keeps the frames those counters resolve
    to, in capture order, innermost call site first. */
module Stacks {
  import opened GoStrings

  /** One resolved frame: runtime.Frame's Function, File and Line. */
  datatype Frame = Frame(functionName: string, file: string, line: int)

  /** The pointer type `*Stack`. */
  datatype Stack = NilStack | Captured(id: nat, frames: seq<Frame>)

  // The layout presets of stack.go.
  const DefaultFormatter := "file.go:152\n"
  const JavaLikeFormatter := "at foo(file.go:152)\n"
  const GoLikeFormatter := "foo\n\tfile.go:152\n"
  const PythonLikeFormatter := "File file.go, line 152, in foo\n"

  // The substitution keywords, in the order they are replaced.
  const FunctionToken := "foo"
  const FileToken := "file.go"
  const LineToken := "152"

  /** The size of the buffer recordStack hands to the runtime. */
  const MaxDepth: nat := 64

  // ---------------------------------------------------------------------
  // Capture

  /** The runtime's supply of stack identities: `issued` captures have
      happened so far, and they own the identities 0 .. issued - 1. */
  datatype Recorder = Recorder(issued: nat)

  /** `s` is a stack captured before the recorder reached state `rec`. */
  predicate CapturedBefore(s: Stack, rec: Recorder) {
    s.Captured? && s.id < rec.issued
  }

  /** What recordStack returns when called with `rec` and the live call
      stack `callers` (innermost first), and the recorder afterwards. */
  function Capture(rec: Recorder, callers: seq<Frame>): (r: (Stack, Recorder))
    ensures r.0.Captured? && !CapturedBefore(r.0, rec) && CapturedBefore(r.0, r.1)
    ensures forall s :: CapturedBefore(s, rec) ==> CapturedBefore(s, r.1) && s != r.0
    ensures r.1.issued == rec.issued + 1
    ensures |r.0.frames| <= MaxDepth && |r.0.frames| <= |callers| && r.0.frames == callers[..|r.0.frames|]
    ensures |r.0.frames| == MaxDepth || r.0.frames == callers
  {
    (Captured(rec.issued, callers[..Min(MaxDepth, |callers|)]), Recorder(rec.issued + 1))
  }

  /** Stands in for runtime.Callers: copies as many frames of the live call
      stack as fit into `buf`, innermost first, and says how many it copied. */
  method Callers(live: seq<Frame>, buf: array<Frame>) returns (n: nat)
    modifies buf
    ensures n == Min(buf.Length, |live|) && buf[..n] == live[..n]
  {
    n := 0;
    while n < buf.Length && n < |live|
      invariant n <= buf.Length && n <= |live|
      invariant buf[..n] == live[..n]
    {
      buf[n] := live[n];
      n := n + 1;
    }
  }

  /** recordStack: a 64-slot buffer filled by the runtime, resliced to what
      was filled, behind a new pointer. */
  method RecordStack(rec: Recorder, callers: seq<Frame>) returns (s: Stack, next: Recorder)
    ensures (s, next) == Capture(rec, callers)
    ensures s.Captured? && |s.frames| <= MaxDepth
  {
    var buf := new Frame[MaxDepth];
    var n := Callers(callers, buf);
    s := Captured(rec.issued, buf[..n]);
    next := Recorder(rec.issued + 1);
  }

  // ---------------------------------------------------------------------
  // Rendering

  /** One frame through the layout: the first "foo" becomes the function
      name, then the first "file.go" the file, then the first "152" the line.
      Each step searches the text the previous step produced.  A layout in
      which none of the three keywords occurs is copied as is. */
  function RenderFrame(layout: string, frame: Frame): (r: string)
    ensures !Contains(layout, FunctionToken) && !Contains(layout, FileToken) && !Contains(layout, LineToken)
            ==> r == layout
  {
    ReplaceFirst(
      ReplaceFirst(
        ReplaceFirst(layout, FunctionToken, frame.functionName),
        FileToken, frame.file),
      LineToken, Itoa(frame.line))
  }

  /** The renderings of all frames, concatenated in frame order; the empty
      layout renders nothing for any number of frames. */
  function Render(layout: string, frames: seq<Frame>): (r: string)
    ensures layout == "" ==> r == ""
  {
    if frames == [] then ""
    else
      RenderFrameEmpty(frames[0]);
      RenderFrame(layout, frames[0]) + Render(layout, frames[1..])
  }

  /** What Stack.Format(layout) returns: "" for a nil stack and for a stack
      without frames; otherwise the frames rendered through a non-empty
      layout (see FormattedEmptyLayout for ""). */
  function Formatted(s: Stack, layout: string): (r: string)
    ensures (s.NilStack? || s.frames == []) ==> r == ""
    ensures (s.Captured? && layout != "") ==> r == Render(layout, s.frames)
  {
    if s.NilStack? then ""
    else Render(if layout == "" then DefaultFormatter else layout, s.frames)
  }

  /** Stack.Format: a nil stack and an empty one give ""; otherwise every
      frame is rendered through the layout ("" standing for the default) and
      the renderings are accumulated into `ret` in frame order. */
  method Format(s: Stack, layout: string) returns (ret: string)
    ensures ret == Formatted(s, layout)
    ensures s.NilStack? ==> ret == ""
    ensures s.Captured? && s.frames == [] ==> ret == ""
  {
    ret := "";
    if s.NilStack? {
      return;
    }
    var v := s.frames;

    var effective := layout;
    if effective == "" {
      effective := DefaultFormatter;
    }

    if |v| == 0 {
      return;
    }
    ret := FormatFrames(effective, v);
  }

  /** The loop of Stack.Format over the frames the runtime yields. */
  method FormatFrames(layout: string, v: seq<Frame>) returns (ret: string)
    ensures ret == Render(layout, v)
  {
    ret := "";
    var i := 0;
    while i < |v|
      invariant 0 <= i <= |v|
      invariant ret == Render(layout, v[..i])
    {
      var frame := v[i];
      var formatted := layout;
      formatted := ReplaceFirst(formatted, FunctionToken, frame.functionName);
      formatted := ReplaceFirst(formatted, FileToken, frame.file);
      formatted := ReplaceFirst(formatted, LineToken, Itoa(frame.line));
      RenderPrefixStep(layout, v, i);
      ret := ret + formatted;
      i := i + 1;
    }
    assert v[..i] == v;
  }

  // ---------------------------------------------------------------------
  // Properties of the rendering

  /** Rendering distributes over concatenation of frame sequences. */
  lemma {:induction false} RenderAppend(layout: string, a: seq<Frame>, b: seq<Frame>)
    ensures Render(layout, a + b) == Render(layout, a) + Render(layout, b)
  {
    if a != [] {
      assert (a + b)[1..] == a[1..] + b;
      RenderAppend(layout, a[1..], b);
    } else {
      assert a + b == b;
    }
  }

  /** One more frame of the prefix adds that frame's rendering at the end. */
  lemma RenderPrefixStep(layout: string, v: seq<Frame>, i: nat)
    requires i < |v|
    ensures Render(layout, v[..i + 1]) == Render(layout, v[..i]) + RenderFrame(layout, v[i])
  {
    assert v[..i + 1] == v[..i] + [v[i]];
    RenderAppend(layout, v[..i], [v[i]]);
  }

  /** Frame k's rendering sits between the renderings of the frames before
      it and of the frames after it; in particular the output starts with
      the rendering of the first captured frame. */
  lemma RenderSegments(layout: string, frames: seq<Frame>, k: nat)
    requires k < |frames|
    ensures Render(layout, frames)
         == Render(layout, frames[..k]) + RenderFrame(layout, frames[k]) + Render(layout, frames[k + 1..])
  {
    assert frames == frames[..k] + [frames[k]] + frames[k + 1..];
    RenderAppend(layout, frames[..k] + [frames[k]], frames[k + 1..]);
    RenderAppend(layout, frames[..k], [frames[k]]);
  }

  /** The empty layout renders every frame to the empty string. */
  lemma RenderFrameEmpty(frame: Frame)
    ensures RenderFrame("", frame) == ""
  {
    assert !OccursAt("", FunctionToken, 0);
    assert !OccursAt("", FileToken, 0);
    assert !OccursAt("", LineToken, 0);
  }

  // The preset layouts are rendered one substitution at a time below; each
  // step lemma says what one strings.Replace call produces.

  /** The default layout holds no "foo". */
  lemma DefaultFunctionStep(fn: string)
    ensures ReplaceFirst(DefaultFormatter, FunctionToken, fn) == DefaultFormatter
  {
    var s, pat := DefaultFormatter, FunctionToken;
    forall j: nat | j <= |s| ensures !OccursAt(s, pat, j) {
      if j + |pat| <= |s| {
        MismatchBlocks(s, pat, j, if j == 0 then 1 else j);
      }
    }
  }

  /** The default layout starts with its "file.go". */
  lemma DefaultFileStep(file: string)
    ensures ReplaceFirst(DefaultFormatter, FileToken, file) == file + ":152\n"
  {
    var s, pat, b := DefaultFormatter, FileToken, ":152\n";
    assert s == [] + pat + b;
    ReplaceFirstAt(s, [], pat, b, file);
  }

  /** Once the file name is in, the first "152" is the layout's own. */
  lemma DefaultLineStep(file: string, line: string)
    requires !Contains(file, LineToken)
    ensures ReplaceFirst(file + ":152\n", LineToken, line) == file + ":" + line + "\n"
  {
    var colon, pat, nl := ":", LineToken, "\n";
    var s := file + colon + pat + nl;
    var a := file + colon;
    assert s == a + pat + nl;
    forall j: nat | j < |a| ensures !OccursAt(s, pat, j) {
      if j == |file| {
        MismatchBlocks(s, pat, j, j);
      } else {
        assert s == [] + file + (colon + pat + nl);
        NoOccurrenceInside([], file, colon + pat + nl, pat, j);
      }
    }
    ReplaceFirstAt(s, a, pat, nl, line);
    assert colon + pat + nl == ":152\n";
    assert s == file + ":152\n";
    assert a + line + nl == file + ":" + line + "\n";
  }

  /** The default layout renders "<file>:<line>\n", provided the file name
      does not itself contain "152". */
  lemma RenderFrameDefault(frame: Frame)
    requires !Contains(frame.file, LineToken)
    ensures RenderFrame(DefaultFormatter, frame) == frame.file + ":" + Itoa(frame.line) + "\n"
  {
    DefaultFunctionStep(frame.functionName);
    DefaultFileStep(frame.file);
    DefaultLineStep(frame.file, Itoa(frame.line));
  }

  /** The line step meets the file name's first "152" before the layout's. */
  lemma DefaultLineStepInFile(p: string, q: string, line: string)
    requires forall j: nat :: j < |p| ==> !OccursAt(p + LineToken + q, LineToken, j)
    ensures ReplaceFirst(p + LineToken + q + ":152\n", LineToken, line) == p + line + q + ":152\n"
  {
    var pat, tail := LineToken, ":152\n";
    var file := p + pat + q;
    var s := file + tail;
    assert s == p + pat + (q + tail);
    forall j: nat | j < |p| ensures !OccursAt(s, pat, j) {
      assert !OccursAt(file, pat, j) && j + |pat| <= |file|;
      assert s[j..j + |pat|] == file[j..j + |pat|];
    }
    ReplaceFirstAt(s, p, pat, q + tail, line);
    assert p + line + (q + tail) == p + line + q + tail;
  }

  /** A "152" inside the file name is found before the layout's own: the
      line number lands in the file name and the layout's "152" is left. */
  lemma FileNameWithLineToken(frame: Frame, p: string, q: string)
    requires frame.file == p + LineToken + q
    requires forall j: nat :: j < |p| ==> !OccursAt(frame.file, LineToken, j)
    ensures RenderFrame(DefaultFormatter, frame) == p + Itoa(frame.line) + q + ":152\n"
  {
    DefaultFunctionStep(frame.functionName);
    DefaultFileStep(frame.file);
    DefaultLineStepInFile(p, q, Itoa(frame.line));
  }

  /** The Java-like layout's first "foo" follows "at ". */
  lemma JavaFunctionStep(fn: string)
    ensures ReplaceFirst(JavaLikeFormatter, FunctionToken, fn) == "at " + fn + "(file.go:152)\n"
  {
    var s, a, pat, b := JavaLikeFormatter, "at ", FunctionToken, "(file.go:152)\n";
    assert s == a + pat + b;
    forall j: nat | j < |a| ensures !OccursAt(s, pat, j) {
      MismatchBlocks(s, pat, j, j);
    }
    ReplaceFirstAt(s, a, pat, b, fn);
  }

  /** The first "file.go" is the layout's own when the function name holds none. */
  lemma JavaFileStep(fn: string, file: string)
    requires !Contains(fn, FileToken)
    ensures ReplaceFirst("at " + fn + "(file.go:152)\n", FileToken, file) == "at " + fn + "(" + file + ":152)\n"
  {
    var pre, open, pat, rest := "at ", "(", FileToken, ":152)\n";
    var s, a, b := pre + fn + (open + pat + rest), pre + fn + open, rest;
    assert s == a + pat + b;
    forall j: nat | j < |a| ensures !OccursAt(s, pat, j) {
      if j < |pre| || j == |pre| + |fn| {
        MismatchBlocks(s, pat, j, j);
      } else {
        NoOccurrenceInside(pre, fn, open + pat + rest, pat, j - |pre|);
      }
    }
    ReplaceFirstAt(s, a, pat, b, file);
    assert open + pat + rest == "(file.go:152)\n";
    assert s == "at " + fn + "(file.go:152)\n";
    assert a + file + b == "at " + fn + "(" + file + ":152)\n";
  }

  /** The first "152" is the layout's own when neither name holds one. */
  lemma JavaLineStep(fn: string, file: string, line: string)
    requires !Contains(fn, LineToken) && !Contains(file, LineToken)
    ensures ReplaceFirst("at " + fn + "(" + file + ":152)\n", LineToken, line) == "at " + fn + "(" + file + ":" + line + ")\n"
  {
    var pre, open, colon, pat, close := "at ", "(", ":", LineToken, ")\n";
    var s := pre + fn + open + file + colon + pat + close;
    var a, b := pre + fn + open + file + colon, close;
    assert s == a + pat + b;
    forall j: nat | j < |a| ensures !OccursAt(s, pat, j) {
      if j < |pre| || j == |pre| + |fn| || j == |pre| + |fn| + 1 + |file| {
        MismatchBlocks(s, pat, j, j);
      } else if j < |pre| + |fn| {
        assert s == pre + fn + (open + file + colon + pat + close);
        NoOccurrenceInside(pre, fn, open + file + colon + pat + close, pat, j - |pre|);
      } else {
        assert s == (pre + fn + open) + file + (colon + pat + close);
        NoOccurrenceInside(pre + fn + open, file, colon + pat + close, pat, j - |pre| - |fn| - 1);
      }
    }
    ReplaceFirstAt(s, a, pat, b, line);
    assert colon + pat + close == ":152)\n";
    assert s == "at " + fn + "(" + file + ":152)\n";
    assert a + line + b == "at " + fn + "(" + file + ":" + line + ")\n";
  }

  /** The Java-like preset renders "at <function>(<file>:<line>)\n", provided
      neither name contains a keyword that a later step would find in it. */
  lemma RenderFrameJavaLike(frame: Frame)
    requires !Contains(frame.functionName, FileToken)
    requires !Contains(frame.functionName, LineToken) && !Contains(frame.file, LineToken)
    ensures RenderFrame(JavaLikeFormatter, frame)
         == "at " + frame.functionName + "(" + frame.file + ":" + Itoa(frame.line) + ")\n"
  {
    JavaFunctionStep(frame.functionName);
    JavaFileStep(frame.functionName, frame.file);
    JavaLineStep(frame.functionName, frame.file, Itoa(frame.line));
  }

  /** The Go-like layout starts with its "foo". */
  lemma GoFunctionStep(fn: string)
    ensures ReplaceFirst(GoLikeFormatter, FunctionToken, fn) == fn + "\n\tfile.go:152\n"
  {
    var s, pat, b := GoLikeFormatter, FunctionToken, "\n\tfile.go:152\n";
    assert s == [] + pat + b;
    ReplaceFirstAt(s, [], pat, b, fn);
  }

  /** The first "file.go" is the layout's own when the function name holds none. */
  lemma GoFileStep(fn: string, file: string)
    requires !Contains(fn, FileToken)
    ensures ReplaceFirst(fn + "\n\tfile.go:152\n", FileToken, file) == fn + "\n\t" + file + ":152\n"
  {
    var sep, pat, rest := "\n\t", FileToken, ":152\n";
    var s, a := fn + (sep + pat + rest), fn + sep;
    assert s == a + pat + rest;
    forall j: nat | j < |a| ensures !OccursAt(s, pat, j) {
      if j < |fn| {
        assert s == [] + fn + (sep + pat + rest);
        NoOccurrenceInside([], fn, sep + pat + rest, pat, j);
      } else {
        MismatchBlocks(s, pat, j, j);
      }
    }
    ReplaceFirstAt(s, a, pat, rest, file);
    assert sep + pat + rest == "\n\tfile.go:152\n";
    assert s == fn + "\n\tfile.go:152\n";
    assert a + file + rest == fn + "\n\t" + file + ":152\n";
  }

  /** The first "152" is the layout's own when neither name holds one. */
  lemma GoLineStep(fn: string, file: string, line: string)
    requires !Contains(fn, LineToken) && !Contains(file, LineToken)
    ensures ReplaceFirst(fn + "\n\t" + file + ":152\n", LineToken, line) == fn + "\n\t" + file + ":" + line + "\n"
  {
    var sep, colon, pat, nl := "\n\t", ":", LineToken, "\n";
    var s := fn + sep + file + colon + pat + nl;
    var a := fn + sep + file + colon;
    assert s == a + pat + nl;
    forall j: nat | j < |a| ensures !OccursAt(s, pat, j) {
      if j < |fn| {
        assert s == [] + fn + (sep + file + colon + pat + nl);
        NoOccurrenceInside([], fn, sep + file + colon + pat + nl, pat, j);
      } else if j < |fn| + 2 || j == |fn| + 2 + |file| {
        MismatchBlocks(s, pat, j, j);
      } else {
        assert s == (fn + sep) + file + (colon + pat + nl);
        NoOccurrenceInside(fn + sep, file, colon + pat + nl, pat, j - |fn| - 2);
      }
    }
    ReplaceFirstAt(s, a, pat, nl, line);
    assert colon + pat + nl == ":152\n";
    assert s == fn + "\n\t" + file + ":152\n";
    assert a + line + nl == fn + "\n\t" + file + ":" + line + "\n";
  }

  /** The Go-like preset renders "<function>\n\t<file>:<line>\n", provided
      neither name contains a keyword that a later step would find in it. */
  lemma RenderFrameGoLike(frame: Frame)
    requires !Contains(frame.functionName, FileToken)
    requires !Contains(frame.functionName, LineToken) && !Contains(frame.file, LineToken)
    ensures RenderFrame(GoLikeFormatter, frame)
         == frame.functionName + "\n\t" + frame.file + ":" + Itoa(frame.line) + "\n"
  {
    GoFunctionStep(frame.functionName);
    GoFileStep(frame.functionName, frame.file);
    GoLineStep(frame.functionName, frame.file, Itoa(frame.line));
  }

  /** "file.go" holds no "152". */
  lemma FileTokenLacksLineToken()
    ensures !Contains(FileToken, LineToken)
  {
    forall j: nat | j <= |FileToken| ensures !OccursAt(FileToken, LineToken, j) {
      if j + |LineToken| <= |FileToken| { MismatchBlocks(FileToken, LineToken, j, j); }
    }
  }

  /** When the function name is "file.go", the file step finds it first. */
  lemma JavaFileStepAfterFileToken(file: string)
    ensures ReplaceFirst("at " + FileToken + "(file.go:152)\n", FileToken, file) == "at " + file + "(file.go:152)\n"
  {
    var pre, pat, rest := "at ", FileToken, "(file.go:152)\n";
    var s := pre + pat + rest;
    forall j: nat | j < |pre| ensures !OccursAt(s, pat, j) {
      MismatchBlocks(s, pat, j, j);
    }
    ReplaceFirstAt(s, pre, pat, rest, file);
  }

  /** The line step then meets the layout's own "152". */
  lemma JavaLineStepAfterFileToken(file: string, line: string)
    requires !Contains(file, LineToken)
    ensures ReplaceFirst("at " + file + "(file.go:152)\n", LineToken, line) == "at " + file + "(file.go:" + line + ")\n"
  {
    FileTokenLacksLineToken();
    JavaLineStep(file, FileToken, line);
    assert "at " + file + "(" + FileToken + ":152)\n" == "at " + file + "(file.go:152)\n";
    assert "at " + file + "(" + FileToken + ":" + line + ")\n" == "at " + file + "(file.go:" + line + ")\n";
  }

  /** The substitutions are sequential, so a later keyword can match text an
      earlier step put in: when the function name is "file.go", the file name
      takes the function's place and the layout's own "file.go" is left. */
  lemma FunctionNamedLikeFileToken(frame: Frame)
    requires frame.functionName == FileToken && !Contains(frame.file, LineToken)
    ensures RenderFrame(JavaLikeFormatter, frame) == "at " + frame.file + "(file.go:" + Itoa(frame.line) + ")\n"
  {
    JavaFunctionStep(frame.functionName);
    JavaFileStepAfterFileToken(frame.file);
    JavaLineStepAfterFileToken(frame.file, Itoa(frame.line));
  }

  // ---------------------------------------------------------------------
  // Properties of Stack.Format

  /** Format("") renders with DefaultFormatter. */
  lemma FormattedEmptyLayout(s: Stack)
    ensures Formatted(s, "") == Formatted(s, DefaultFormatter)
  {
    assert |DefaultFormatter| == 12;
  }

  /** Under the default layout ("" or DefaultFormatter), the output begins
      with the first captured frame's "<file>:<line>\n". */
  lemma FormattedDefaultFirstLine(s: Stack, layout: string)
    requires layout == "" || layout == DefaultFormatter
    requires s.Captured? && s.frames != [] && !Contains(s.frames[0].file, LineToken)
    ensures Formatted(s, layout)
         == s.frames[0].file + ":" + Itoa(s.frames[0].line) + "\n" + Render(DefaultFormatter, s.frames[1..])
  {
    RenderFrameDefault(s.frames[0]);
  }
}
