# A verified model of the bemobi/log emitter

This project models the core of the Go package `log`, which writes structured
log lines. It covers three source files: `emitter.go`, `context.go` and `level.go`.

Each call on an `Emitter` passes a tag, a level, a message and a flat list of
key/value fields. When the level is not below the emitter's minimum, the call
writes one document, ended by a newline, to the emitter's output:

```
{"time":"...","tag":"<tag>","level":"<name>","msg":"<escaped message>"<context>,"k":v...}\n
```

The tag, the time, the context, the keys and the bare scalar values are
written raw. The document is one line only when those hold no newline
(`DocumentIsOneLine`). The escaped strings are valid JSON only when they hold
none of the 27 control bytes that the encoder copies raw (`EscapeIsJsonIff`).
If a hook is set, it is shown the same bytes first. A `Context` pairs a tag with
an emitter whose context prefix already holds encoded fields. Deriving a child
context copies the configuration and extends that prefix.

The model has these modules:

- `Bytes` (bytes.dfy): byte strings, and the constant bytes of the wire format.
- `Escaping` (escaping.dfy): the escaping of `writeJSONString`, as functions. It also has a decoder and the shape the escaped text keeps.
- `Fields` (fields.dfy): the key/value encoding of `writeFields`, as functions over `Any`.
  - `Any` is the closed set of dynamic values that the two type switches tell apart.
- `Levels` (level.dfy): the `Level` byte, its five constants and their order, and `String` (`Name`).
  - The switch of `SetLevel` is modelled as the pure parse `Parse`.
- `Io` (io.dfy): `bytes.Buffer` and the `io.Writer` sink, reduced to the operations the emitter uses.
- `Emitters` (emitter.dfy): the imperative side of `emitter.go`.
  - The `Emitter` class, with its `Emit` method and the `T`/`I`/`W`/`E`/`F` wrappers.
  - The encoder methods `WriteJsonString`, `WriteKey`, `WriteValue`, `WriteFields` and `WriteHead`. Each is proved against the functions above.
  - The buffer pool, the hook, the exit action, and the state update of `SetLevel`.
  - The two-state predicate `Emitted` states everything one call of `Emit` does.
- `Contexts` (context.dfy): `C`, `Context.C` and the context wrappers, and what a chain of derivations builds.
- `Scenarios` (scenarios.dfy): the runs of `TestHook` and of the "With Lower Level" case of `TestContext`.
  - The hook's calls are checked against the literal documents the test expects.

An odd-length field list makes the code index past the end of `fields` (emitter.go:133) and panic. At that point the key has already been written. The model follows the code:
- `WriteFields` reports `ok == false` exactly for odd lists.
- `Emit` reports `panicked` and leaves the sink and the hook untouched.
- `C` and `Context.C` return `None`.

## Model

| member | source | states |
|---|---|---|
| Escaping.EscapeAppend | emitter.go:152-176 | Escaping works byte by byte: the escape of `a + b` is the escape of `a` followed by the escape of `b` |
| Escaping.EscapeLength | emitter.go:152-176 | The escaped text is as long as the input plus one byte per special byte (quote, backslash, `\b`, `\f`, `\n`, `\r`, `\t`) |
| Escaping.EscapeIdentity | emitter.go:173-174 | Input with none of the seven special bytes, UTF-8 multi-byte sequences included, is copied unchanged |
| Escaping.EscapeRoundTrip | emitter.go:150-178 | Decoding the escaped text, by undoing the two-byte escapes, gives back exactly the input |
| Escaping.EscapeInjective | emitter.go:150-178 | Two inputs with the same escape are equal |
| Escaping.EscapeWellEscaped | emitter.go:154-175 | The escaped text holds no raw quote, newline, carriage return, tab, backspace or form feed, and every backslash in it starts a two-byte escape |
| Escaping.EscapeIsJsonIff | emitter.go:154-175 | The escaped text is a valid JSON string body (section 7 of RFC 8259) if and only if the input holds none of the 27 other control bytes, which the encoder copies raw. The grammar is read byte by byte: whether the bytes from 0x80 up form well-formed UTF-8 is not checked |
| Fields.ValueJson | emitter.go:133-146 | Values of exactly the thirteen predeclared types of the scalar arm (`bool`, `int`, `int8`-`int64`, `uint`, `uint8`, `uint16`-`uint64`, `float32`, `float64`) are written bare as their `%v` text. Every other value, `uintptr`, complex numbers and named numeric or boolean types without `String()` included (the `Other` variant), is written as a quoted string whose body decodes back to the value's string form (the string itself, the `[]byte` contents, `String()`, `Error()` or `%v`) |
| Fields.EncodeIsFragments | emitter.go:115-147 | Encoding a field list writes one `,"k":v` fragment per pair, in input order |
| Fields.EncodeAppend | emitter.go:115-147 | The encoding of a concatenated list is the concatenation of the two encodings |
| Fields.KeyUnescaped | emitter.go:117-130 | Keys are not escaped: a string key holding a quote, backslash or one of the five control bytes gives a key part different from the one its escaped form would give |
| Levels.Name | level.go:31-45 | `String` returns a non-empty name exactly for the five declared levels, and "" for any other byte |
| Levels.NameInjective | level.go:31-43 | The five names are pairwise distinct and non-empty |
| Levels.PassesMonotone | emitter.go:60-62 | The gate `!(level < minimum)`, over the byte order of the constants of level.go:10-26, is monotone in the call's level, and antitone in the minimum |
| Levels.Parse | level.go:49-62 | The parse is total and always yields one of the five declared levels |
| Levels.ParseCases | level.go:50-61 | Parse gives Trace exactly for "trace"/"debug", Warn for "warn", Error for "error" and Fatal for "fatal", after lowercasing. Every other input, "" included, gives Info |
| Levels.ParseIgnoresCase | level.go:50 | Inputs that agree once lowercased parse to the same level |
| Levels.ParseName | level.go:31-61 | Parsing the name of a declared level gives that level back |
| Levels.ParseExamples | level_test.go:9-55 | The table of TestLevel: the five lowercase names, and "" giving Info |
| Levels.ParseUpperCase | level.go:50 | "DEBUG" parses to Trace and "Warn" to Warn |
| Emitters.Hook.Call | emitter.go:111-112 | A hook invocation records the level and the document it is shown |
| Emitters.ExitAction.Exit | log.go:62-67 | The exit function of test mode records the status it is given |
| Emitters.BufferPool.constructor | emitter.go:180-184 | A new pool is valid and holds no idle buffer |
| Emitters.BufferPool.Get | emitter.go:64 | Hands out an empty buffer: the idle one, or a fresh one when there is none |
| Emitters.BufferPool.Put | emitter.go:108 | A drained buffer becomes the idle buffer, and the pool stays valid |
| Emitters.WriteJsonString | emitter.go:150-178 | The loop appends exactly the quote, the escape of `s` and the closing quote. Its invariant is that the first `i` bytes have been escaped |
| Emitters.WriteKey | emitter.go:117-130 | Appends `,"` + key text + `":`. The string and Stringer arms, and the `%v` default, all write their text unescaped |
| Emitters.WriteValue | emitter.go:133-146 | Appends the value's JSON text as the type switch chooses it, in the switch's arm order |
| Emitters.WriteFields | emitter.go:114-148 | Succeeds exactly for even lists, appending their encoding. For an odd list, what was appended is the encoding of the complete pairs, then the last key's part |
| Emitters.WriteHead | emitter.go:66-89 | Writes into an empty buffer: the brace, the time member when a time is given, the tag unescaped, the level's name, and the message as a quoted JSON string |
| Emitters.DocumentContext | emitter.go:92-95 | A context prefix `Encode(bound)` followed by call-site fields gives the same document as passing `bound + fields` at the call site |
| Emitters.HeadIsOneLine | emitter.go:66-89 | The head of a document holds no newline when the time and the tag hold none |
| Emitters.EscapeNoNewline | emitter.go:164-166 | Escaped text never holds a raw newline |
| Emitters.EncodeNoNewline | emitter.go:114-148 | Encoded fields hold no newline when no key text and no bare scalar value does; escaped values may hold any bytes |
| Emitters.DocumentIsOneLine | emitter.go:66-99 | A document ends in its only newline, provided the parts written unescaped (time, tag, context, keys, bare scalars) hold none; the message and escaped values may hold any bytes |
| Scenarios.LineBreaksIsOneLine | log_test.go:149-164 | The "Line Breaks and Tabs" document, whose message and value hold newlines and tabs, has its only newline at the end |
| Emitters.Emitter.New | emitter.go:17-19 | A new emitter has the given output and time format, the lowest level, no hook and no context |
| Emitters.Emitter.Of | context.go:11-17 | The composite literal: every field as given |
| Emitters.Emitter.Emit | emitter.go:59-109 | `Emitted` holds for the call.<br>Below the minimum: nothing changes.<br>With an odd list: a panic, and neither the sink nor the hook sees anything.<br>Otherwise: the sink gets exactly the document, and the hook, if set, gets one call with the level and the same bytes.<br>Configuration unchanged; the pool stays valid |
| Emitters.Emitter.Deliver | emitter.go:101-108 | The finished buffer is shown to the hook, then appended to the sink, then drained and returned to the pool. A sink that matched the hook's transcript still does |
| Emitters.Emitter.T | emitter.go:33-35 | `Emitted` at Trace |
| Emitters.Emitter.I | emitter.go:38-40 | `Emitted` at Info |
| Emitters.Emitter.W | emitter.go:43-45 | `Emitted` at Warn |
| Emitters.Emitter.E | emitter.go:48-50 | `Emitted` at Error |
| Emitters.Emitter.F | emitter.go:53-56 | `Emitted` at Fatal, then exactly one exit call with status 1 |
| Emitters.SetLevel | level.go:49-62 | Only the default emitter's minimum changes, and it becomes the parse of the name |
| Contexts.C | context.go:8-19 | The result exists exactly for even lists. Its emitter is fresh: the default's level, output, time format and hook, and a prefix equal to the fields' encoding. Its tag is `tag` |
| Contexts.Context.C | context.go:39-51 | The child exists exactly for even lists. Its emitter is fresh: the parent's configuration, and the parent's prefix followed by the new encoding. The tag is kept. Nothing existing is modified, so the parent is unchanged |
| Contexts.Context.T | context.go:54-56 | `Emitted` through the context's emitter, with its tag, at Trace |
| Contexts.Context.I | context.go:59-61 | `Emitted` at Info |
| Contexts.Context.W | context.go:64-66 | `Emitted` at Warn |
| Contexts.Context.E | context.go:69-71 | `Emitted` at Error |
| Contexts.Context.F | context.go:74-77 | `Emitted` at Fatal, then exactly one exit call with status 1 |
| Contexts.ChainPrefixIsEncoding | context.go:39-51 | After any chain of derivations, the prefix is the encoding of all the bound fields in binding order, parent fields first |
| Contexts.Derive | context.go:39-51 | Deriving along a chain of field lists, with `Context.C` in a loop, succeeds exactly when every list is complete. The last context keeps the root's tag and configuration, and its prefix is the root's followed by the encoding of all the fields bound along the chain, parent fields first |
| Scenarios.TraceDocument | log_test.go:435 | `{"tag":"test","level":"debug","msg":"1","a":1}` and a newline is the document of `T("test", "1", "a", 1)` |
| Scenarios.Info21Document | log_test.go:447 | The expected document for `I("test", "21")` |
| Scenarios.Info22Document | log_test.go:453 | The expected document for `I("test", "22")` |
| Scenarios.WarnDocument | log_test.go:465 | The expected document for `W("3")` on the context with `x`, `y` bound |
| Scenarios.ErrorDocument | log_test.go:477 | The expected document for `E("4", "err", errors.New("new error"))`; the error value is quoted |
| Scenarios.FatalDocument | log_test.go:489 | The expected document for `F("5")` on the child that adds `z` |
| Scenarios.TraceStep | log_test.go:420 | The hook gets exactly the expected Trace document, and the sink still equals the hook's transcript |
| Scenarios.Info21Step | log_test.go:421 | Likewise for the first Info call |
| Scenarios.Info22Step | log_test.go:422 | Likewise for the second Info call |
| Scenarios.WarnStep | log_test.go:425 | Likewise for the Warn call on the context |
| Scenarios.ErrorStep | log_test.go:426 | Likewise for the Error call on the context |
| Scenarios.FatalStep | log_test.go:429 | Likewise for the Fatal call on the child, plus one exit with status 1 |
| Scenarios.DefaultRun | log_test.go:419-422 | The three calls on the default emitter add their three documents, in order |
| Scenarios.BoundRun | log_test.go:424-426 | The two calls on the derived context add their two documents, in order |
| Scenarios.ChildRun | log_test.go:428-429 | The child's call adds its document and requests one exit |
| Scenarios.ContextRun | log_test.go:424-429 | The context part of the run adds the last three documents and one exit |
| Scenarios.HookScenario | log_test.go:405-495 | The whole run of TestHook: the hook sees exactly the six expected documents with their levels, in order; the sink holds the same bytes; exit is requested once, with status 1 |
| Scenarios.LowerLevelScenario | context_test.go:58-67 | Raising a derived context's minimum to Fatal suppresses its Warn and Error calls, so nothing is written. The default emitter keeps its own minimum, because the context holds a copy of the configuration |

## Left out

- `sync.Pool` (emitter.go:180-184): its sharing between goroutines and its freedom to drop buffers are not modelled. The pool is a single idle buffer, which is what one goroutine observes.
- Emitters.Emitter.Emit: `time.Now().Format(e.TimeFormat)` (emitter.go:72) is not computed. The rendered time is the `now` parameter, used only when the time format is non-empty.
- Fields.Any: the renderings of `fmt`'s `%v`, `String()` and `Error()` (emitter.go:127, 141, 145) are taken as given text carried by each value. They are not computed.
- Emitters.Emitter.Deliver: the hook is passed the document as a value. In the source the slice `buf.Bytes()` (emitter.go:103) aliases the pooled buffer, and aliasing is not modelled. So a hook that writes into its argument would change what the sink then receives, and a hook that keeps the slice sees it overwritten by a later emission. "The hook and the sink get the same bytes" holds for a hook that only reads, like the recording hook of the model.
- Io.Sink: writes always succeed; the error that `WriteTo` can return is not modelled. The source ignores it (emitter.go:107). On a short or failed write, `bytes.Buffer.WriteTo` keeps the unwritten tail, and emitter.go:108 still returns the buffer to the pool. A later `Get`, possibly by another emitter, would then put those bytes in front of its document and show them to its hook. `BufferPool.Valid` (the idle buffer is empty) and the `requires` of `BufferPool.Put` hold only because writes never fail in the model.
- Levels.Parse: lowercases ASCII letters only, while `strings.ToLower` also folds non-ASCII letters. Non-ASCII input parses to Info in the model.
- Emitters.Emitter.Emit: with an odd field list, the Go panic (emitter.go:133) is reported as `panicked`. Recovering from it is not modelled, and the half-written buffer is not returned to the pool.
- Emitters.Emitter.F, Contexts.Context.F: `_exit` is the test-mode action of log.go:65-67, which records the status. In production it is `os.Exit`, which halts the process; that is not modelled.
- The package-level globals and functions of log.go (`Default`, `SetHook`, `SetTestMode`, the top-level `T`/`I`/`W`/`E`/`F`) are not part of this model. The default emitter is an explicit parameter of `C` and `SetLevel`.
- Nil pointers cannot occur, because references in the model are non-null. In Go they panic:
  - a nil `Context` or `Context.Emitter` panics on its first use;
  - a nil `Output` panics in `buf.WriteTo(e.Output)` (emitter.go:107). By then the hook has already been called, and the buffer is never returned to the pool.
- Escaping.Unescape: does not decode `\uXXXX` escapes, which the encoder never writes. It serves only to state the round trip.
- Emitters.Emitter.Deliver, Emitters.Emitter.F, Contexts.Context.F: the hook, the sink and the exit action record their calls separately, so no contract states their relative order. The bodies call the hook before writing to the sink (emitter.go:102-107), and exit only after `Emit` returns (emitter.go:55, context.go:76).
