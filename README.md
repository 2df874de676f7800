# go-errors in Dafny

A model of the Go library that attaches a captured call stack to an error
and renders that stack through a text layout. It covers two pieces of the
library, with proofs:

- **Stack adoption.** An error is the nil interface, a plain error, or a
  `tracer` that holds the wrapped error and a stack pointer. Each
  constructor either adopts a stack that already exists or captures a
  fresh one:
  - `New` always captures.
  - `Errorf` adopts the stack of its first tracer operand, scanning left to
    right.
  - `Wrap` returns a tracer unchanged.
  - `WrapMessage` and `WrapMessagef` adopt the wrapped tracer's stack.

  The model threads a `Recorder` through the constructors. It counts the
  captures so far, and each capture gets a new identity. So "captures
  exactly once per chain" and "distinct from every earlier stack" are
  statements about that counter.
- **Layout substitution.** A frame is rendered by replacing the first
  `"foo"` with the function name, then the first `"file.go"` with the file,
  then the first `"152"` with the decimal line number. Each step searches
  the text the previous step produced. The per-frame renderings are
  concatenated in frame order.
  - `Stack.Format(layout)` in stack.go takes the layout as an argument, and
    `""` stands for the default.
  - `Formatter.format` in formatter.go ignores its receiver and reads the
    package variable that `ApplyFormatter` sets.

Modules:

- `GoStrings`: the standard-library operations the renderer uses.
  - `strings.Index`.
  - `strings.Replace` with a count of one.
  - Decimal printing of an int, plus a parser that inverts it.
- `Stacks` (stack.go):
  - frames and stack pointers;
  - `recordStack` over a 64-slot buffer;
  - `Stack.Format` with its frame loop;
  - the rendering function and lemmas about the default, Java-like and Go-like layouts.
- `Formatters` (formatter.go): the package variable `tracerFormatter` as the
  field of a `Config` class, `ApplyFormatter`, and `format`.
- `Errors` (errors.go): the error datatype, `Error`/`Cause`/`Stack`,
  `StackTrace`, the five constructors, and lemmas about chains of wrapping
  calls.
- `PkgErrors` (pkg/errors.go): the properties the package's own tests check.
  pkg/errors.go has the same tracer and constructors as errors.go line for
  line. Two names differ:
  - the interface is the exported `ErrorTracer`;
  - the stack type is `*Stack`, where errors.go writes `*stack`.
  pkg/errors.go also has no `StackTrace`. So `Errors` models both files, and
  `PkgErrors` states the test-evidenced facts about that shared model.

Behaviour of the code that a reader might not expect, and which the model
follows:

- Substitution replaces the first occurrence of each keyword in turn. A
  later keyword can therefore match text an earlier step put in. For
  example, a function named `file.go` takes the file name's place
  (`Stacks.FunctionNamedLikeFileToken`).
- A file path that contains `152` is itself hit by the line step, because
  under the default layout the file name is substituted before the layout's
  own `152` is searched for. The line number then lands inside the file
  name, and the layout's own `152` is left (`Stacks.FileNameWithLineToken`).
  So `Stacks.RenderFrameDefault` needs a file name without `152`. The `errors_test.go:N` suffix checks in pkg/errors_test.go
  therefore hold only for checkout paths without `152`.
- `ApplyFormatter("")` stores the empty layout, and after it every frame
  renders to `""`. The doc comment at formatter.go:23 says "Apply
  DefaultFormatter if not specified"; that holds only for the initial value.
- The layout variable is a plain package variable, read and written without
  synchronisation.
- `Cause` is a method of the tracer only; the package has no function that
  returns a plain error's cause.

## Model

| member | source | states |
|---|---|---|
| `GoStrings.Index` | stack.go:56-58 | the position `strings.Replace` acts on: the first index where the keyword occurs, and none exactly when it does not occur |
| `GoStrings.ReplaceFirst` | stack.go:56-58 | a text that does not contain the keyword is returned unchanged |
| `GoStrings.ReplaceFirstAt` | stack.go:56-58 | replacing in `a + pat + b`, with no occurrence starting inside `a`, gives `a + rep + b`: only the first occurrence changes |
| `GoStrings.Itoa` | stack.go:58 | `fmt.Sprint` of a line number is non-empty and starts with a minus sign exactly when the number is negative |
| `GoStrings.ItoaRoundTrip` | stack.go:58 | the decimal rendering of a line number parses back to that number |
| `Stacks.Capture` | stack.go:20-25 | the captured stack is new (its identity belongs to no earlier capture), earlier stacks stay distinct from it, exactly one capture is counted, and it holds at most 64 frames: the innermost ones of the call stack, or all of them |
| `Stacks.Callers` | stack.go:22 | the runtime fills `min(buffer size, stack depth)` slots with the innermost frames |
| `Stacks.RecordStack` | stack.go:20-25 | the 64-slot buffer, resliced to what was filled, gives exactly `Capture`'s result, so never more than 64 frames |
| `Stacks.RenderFrame` | stack.go:55-58 | one frame through the layout by three sequential first-occurrence substitutions; a layout without any keyword is copied as is |
| `Stacks.Render` | stack.go:51-64 | the frames' renderings concatenated in frame order; under the empty layout the result is `""` for any frames |
| `Stacks.Formatted` | stack.go:32-47 | what `Stack.Format` returns: `""` for a nil stack and for a stack without frames, otherwise the frames rendered through a non-empty layout |
| `Stacks.Format` | stack.go:32-47 | a nil stack and a stack with no frames format to `""`; otherwise the result is the frame-by-frame rendering under the layout, with `""` replaced by the default |
| `Stacks.FormatFrames` | stack.go:50-64 | the loop's accumulated `ret` is the concatenation of the per-frame renderings in frame order |
| `Stacks.RenderAppend` | stack.go:59 | rendering the frames `a + b` is rendering `a`, then `b` |
| `Stacks.RenderPrefixStep` | stack.go:59 | one loop iteration: the first i+1 frames render as the first i followed by frame i |
| `Stacks.RenderSegments` | stack.go:51-64 | frame k's rendering comes after the renderings of frames 0..k-1 and before those of the later frames; the first segment belongs to the first captured frame |
| `Stacks.RenderFrameEmpty` | stack.go:55-58 | the empty layout renders every frame to `""` |
| `Stacks.RenderFrameDefault` | stack.go:55-58 | the default layout `"file.go:152\n"` renders `file + ":" + line + "\n"` when the file name holds no `"152"` |
| `Stacks.FileNameWithLineToken` | stack.go:57-58 | under the default layout, a file name whose first `152` splits it into `p` and `q` renders as `p + line + q + ":152\n"`: the line number replaces the file name's `152`, not the layout's |
| `Stacks.RenderFrameJavaLike` | stack.go:55-58 | the Java-like layout renders `"at " + fn + "(" + file + ":" + line + ")\n"` when the function name holds neither `"file.go"` nor `"152"` and the file name holds no `"152"` |
| `Stacks.RenderFrameGoLike` | stack.go:55-58 | the Go-like layout renders `fn + "\n\t" + file + ":" + line + "\n"` when the function name holds neither `"file.go"` nor `"152"` and the file name holds no `"152"` |
| `Stacks.FunctionNamedLikeFileToken` | stack.go:55-58 | substitution is sequential: with function name `"file.go"`, the Java-like layout renders `"at " + file + "(file.go:" + line + ")\n"` |
| `Stacks.FormattedEmptyLayout` | stack.go:40-42 | formatting with `""` is formatting with `DefaultFormatter` |
| `Stacks.FormattedDefaultFirstLine` | stack.go:40-64 | under the default layout the output starts with the first captured frame's `file:line` line, followed by the other frames' renderings |
| `Formatters.Config.constructor` | formatter.go:20 | the package layout starts as `DefaultFormatter` |
| `Formatters.Config.ApplyFormatter` | formatter.go:26-28 | the layout becomes exactly the argument, `""` included, and nothing else changes |
| `Formatters.Config.Format` | formatter.go:30-35 | the rendering uses only the package layout and the frame; an empty package layout renders `""`; the default layout renders `file:line\n` |
| `Formatters.FormatIgnoresReceiver` | formatter.go:30-31 | two receivers render every frame identically |
| `Formatters.ApplyThenFormat` | formatter.go:26-35 | after two ApplyFormatter calls the second layout is in force, and the next rendering uses it |
| `Formatters.ApplyGoLikeThenFormat` | formatter.go:26-35 | after `ApplyFormatter(GoLikeFormatter)`, as the example program does, a frame renders as `fn + "\n\t" + file + ":" + line + "\n"` |
| `Formatters.ApplyEmptyThenFormat` | formatter.go:22-35 | after `ApplyFormatter("")` a frame renders to `""`: the default is not restored |
| `Errors.Message` | errors.go:20-25 | a chain of tracers reports the text of the plain error at its root, or `""` when nil is at the root |
| `Errors.Show` | errors.go:88 | `%v` prints `<nil>` for the nil interface, `""` for a tracer over nil (a non-nil value), and otherwise the text of the plain error at the root |
| `Errors.TracerMessage` | errors.go:20-25 | a tracer's message is `""` over a nil err, otherwise the wrapped error's message; the stack does not affect it |
| `Errors.Cause` | errors.go:27-29 | the result, paired with the stored stack, is the tracer itself: the stored err, not recomputed |
| `Errors.StackOf` | errors.go:31-33 | the result, paired with the stored err, is the tracer itself: the stored stack pointer |
| `Errors.StackTrace` | errors.go:37-42 | a nil or plain error has the stack trace `""`; a tracer's is its stack formatted under the layout |
| `Errors.StackTraceEmpty` | errors.go:37-42 | a non-tracer, or a tracer whose stack is nil or empty, has the trace `""` under every layout |
| `Errors.New` | errors.go:45-50 | the message is the formatted `msg`; the stack is freshly captured at the call site and differs from every earlier stack |
| `Errors.FirstTracer` | errors.go:57-64 | finds the first operand, left to right, that is a tracer, or reports that none is |
| `Errors.Errorf` | errors.go:55-69 | the message is `Sprintf(msg, args)`; the stack is the first tracer operand's, with nothing captured; with no tracer operand, a fresh capture |
| `Errors.Wrap` | errors.go:74-82 | a tracer is returned unchanged and nothing is captured; any other error, nil included, is wrapped as is, over a fresh capture, and keeps its message (`""` for nil) |
| `Errors.WrapMessage` | errors.go:87-99 | the message is `msg + ": " + err` (`<nil>` for nil); the stack is err's if err is a tracer, and freshly captured otherwise |
| `Errors.WrapMessagef` | errors.go:104-117 | the message is `Sprintf(msg, args) + ": " + err`; same adoption rule as WrapMessage |
| `Errors.ChainKeepsStack` | errors.go:74-117 | any sequence of Wrap/WrapMessage/WrapMessagef calls on a tracer keeps its stack and captures nothing |
| `Errors.SingleCapture` | errors.go:74-117 | such a sequence on a non-tracer captures exactly one stack, at the first call's site, and the final error carries it |
| `Errors.ChainMessage` | errors.go:87-117 | such a sequence on a tracer changes the message only by the prefixes the calls add, first call innermost |
| `Errors.WrapIdempotent` | errors.go:74-82 | `Wrap(Wrap(e))` is `Wrap(e)`, with nothing captured the second time |
| `PkgErrors.NewStackError` | pkg/errors.go:36-41 | `New("something wrong")` renders that message, and its default stack rendering starts with the call site's `file:line` |
| `PkgErrors.ErrorfError` | pkg/errors.go:46-60 | `Errorf("%s", "something wrong")` renders the formatted message and captures at its call site |
| `PkgErrors.ErrorfStackError` | pkg/errors.go:48-55 | for every `m` that formats to itself, `Errorf("%v", New(m))` renders `m` and adopts the inner error's stack, capturing nothing |
| `PkgErrors.WrapError` | pkg/errors.go:65-73 | Wrap of a plain error keeps its message and captures at the Wrap call; Wrap of a `New` error returns it unchanged |
| `PkgErrors.WrapNilError` | pkg/errors.go:20-25 | `Wrap(nil)` is a tracer over a nil err whose message is `""` |
| `PkgErrors.WrapMessageError` | pkg/errors.go:78-90 | renders `"At someplace: something wrong"`; captures for a plain error, keeps New's stack for a tracer |
| `PkgErrors.WrapMessagefError` | pkg/errors.go:95-108 | renders `"At someplace here: something wrong"`, with the same adoption rule |
| `PkgErrors.Comparable` | pkg/errors.go:36-41 | two `New` calls with the same message give different errors; each equals itself |

## Left out

- `runtime.Callers` and `runtime.CallersFrames` are Go runtime introspection. They are not modelled:
  - the live call stack is a parameter, already resolved to frames;
  - the skip count of 3 is not modelled;
  - neither is resolution of program counters (or inlined calls) into frames.
  `Stacks.Callers` keeps only the buffer-filling contract.
- `fmt.Sprintf` and `fmt.Errorf` verbs are not interpreted. The constructors take the formatter as a function parameter. Only the fixed `"%s: %v"` of `WrapMessage` is written out: `%v` of a nil error prints `<nil>`.
- Errors.StackTrace: errors.go:39 calls `Format()` with no argument, which does not compile. The model takes the layout as a parameter and renders through `Stack.Format`'s rules. With the layout `""` it therefore renders with `DefaultFormatter`. A reading that rendered each frame through formatter.go's `format` would give `""` once `ApplyFormatter("")` has run (`Formatters.ApplyEmptyThenFormat`); that reading is not modelled.
- Other implementations of the tracer interface are not modelled. pkg/errors.go:6-12 exports `ErrorTracer`, so any type with `Error`, `Cause` and `Stack` methods is adopted, and its `Error` need not agree with its `Cause`. `Tracer(err, stack)` stands only for the package's own `tracer` struct. Adoption reads only `Stack()`, so the stack results are unaffected; the message lemmas hold for the package's own struct.
- Identity of plain errors: `fmt.Errorf` results are distinct pointers in Go. Here two plain errors with the same text are equal. Tracers are told apart by their stacks' identities.
- Strings are sequences of characters, not Go's byte strings. For the ASCII keywords the first occurrence is the same.
- Concurrent access to the package layout. The code has no synchronisation, and the model is single-threaded.
- grpc.go is not part of this model. It wraps an external RPC status package and refers to an undefined type, and its adoption loop duplicates `Errorf`.
- example/example.go is not modelled beyond its layout set-up at line 10 (`Formatters.ApplyGoLikeThenFormat`). The rest is demo wiring and printing.
- pkg/stack.go is not part of this model. pkg/stack_test.go's rendering of the first frame is stated about stack.go's `Format` (`Stacks.FormattedDefaultFirstLine`).
- The root package does not compile as one unit:
  - stack.go and formatter.go both declare `DefaultFormatter`;
  - errors.go refers to a type `stack`, which no file declares (stack.go declares `Stack`).
  Each file's logic is modelled on its own, in its own module. The formatter presets are the same texts as stack.go's, so they are defined once.
- The Python-like layout has no rendering lemma; only its text is modelled.
