/** Concrete runs of the logger, checked against the documents the package's
    own tests expect (log_test.go, context_test.go). Every expected document
    is written as the literal line the test compares with. */
module Scenarios {
  import opened Bytes
  import opened Escaping
  import opened Fields
  import opened Levels
  import opened Io
  import opened Emitters
  import Contexts

  // ---------------------------------------------------------------------------
  // Pieces of a document, as text

  /** Letters, digits and spaces: text the encoder copies unchanged. */
  predicate IsPlain(s: string) {
    forall i | 0 <= i < |s| :: s[i] == ' ' || '0' <= s[i] <= '9' || 'A' <= s[i] <= 'Z' || 'a' <= s[i] <= 'z'
  }

  lemma PlainEscape(s: string)
    requires IsPlain(s)
    ensures Escape(Ascii(s)) == Ascii(s)
  {
    EscapeIdentity(Ascii(s));
  }

  /** Without a time format, the head of a document whose tag and message
      need no escaping is the ASCII text of its parts. */
  lemma HeadText(tag: string, l: Level, name: string, msg: string, h: string)
    requires Name(l) == Ascii(name)
    requires IsPlain(msg)
    requires h == "{" + "\"tag\":\"" + tag + "\"," + "\"level\":" + "\"" + name + "\"" + ",\"msg\":" + ("\"" + msg + "\"")
    ensures Head(None, Ascii(tag), l, Ascii(msg)) == Ascii(h)
  {
    var p := "{" + "\"tag\":\"" + tag + "\"," + "\"level\":" + "\"" + name + "\"" + ",\"msg\":";
    assert [OPEN_BRACE] + TimePart(None) == Ascii("{");
    assert [QUOTE] == Ascii("\"");
    PlainEscape(msg);
    AsciiAppend("{", "\"tag\":\"");
    AsciiAppend("{" + "\"tag\":\"", tag);
    AsciiAppend("{" + "\"tag\":\"" + tag, "\",");
    AsciiAppend("{" + "\"tag\":\"" + tag + "\",", "\"level\":");
    AsciiAppend("{" + "\"tag\":\"" + tag + "\"," + "\"level\":", "\"");
    AsciiAppend("{" + "\"tag\":\"" + tag + "\"," + "\"level\":" + "\"", name);
    AsciiAppend("{" + "\"tag\":\"" + tag + "\"," + "\"level\":" + "\"" + name, "\"");
    AsciiAppend("{" + "\"tag\":\"" + tag + "\"," + "\"level\":" + "\"" + name + "\"", ",\"msg\":");
    AsciiAppend("\"", msg);
    AsciiAppend("\"" + msg, "\"");
    AsciiAppend(p, "\"" + msg + "\"");
  }

  /** A single pair: a string key with a bare scalar value. */
  lemma ScalarPairText(key: string, v: string, t: string)
    requires t == ",\"" + key + "\":" + v
    ensures Encode([Str(Ascii(key)), Scalar(Ascii(v))]) == Ascii(t)
  {
    var f := [Str(Ascii(key)), Scalar(Ascii(v))];
    assert f[2..] == [];
    assert [COMMA, QUOTE] == Ascii(",\"");
    assert [QUOTE, COLON] == Ascii("\":");
    AsciiAppend(",\"", key);
    AsciiAppend(",\"" + key, "\":");
    AsciiAppend(",\"" + key + "\":", v);
  }

  /** A single pair: a string key with a quoted value whose text needs no
      escaping. */
  lemma QuotedPairText(key: string, x: Any, v: string, t: string)
    requires !x.Scalar? && StringForm(x) == Ascii(v) && IsPlain(v)
    requires t == ",\"" + key + "\":" + ("\"" + v + "\"")
    ensures Encode([Str(Ascii(key)), x]) == Ascii(t)
  {
    var f := [Str(Ascii(key)), x];
    assert f[2..] == [];
    assert [COMMA, QUOTE] == Ascii(",\"");
    assert [QUOTE, COLON] == Ascii("\":");
    assert [QUOTE] == Ascii("\"");
    PlainEscape(v);
    AsciiAppend(",\"", key);
    AsciiAppend(",\"" + key, "\":");
    AsciiAppend("\"", v);
    AsciiAppend("\"" + v, "\"");
    AsciiAppend(",\"" + key + "\":", "\"" + v + "\"");
  }

  /** The document of a head, a context prefix and call-site fields that are
      all plain text. */
  lemma DocumentText(tag: Bytes, l: Level, msg: Bytes, context: Bytes, fields: seq<Any>,
                     h: string, c: string, f: string, doc: string)
    requires IsEven(fields)
    requires Head(None, tag, l, msg) == Ascii(h) && context == Ascii(c) && Encode(fields) == Ascii(f)
    requires doc == h + c + f + "}\n"
    ensures Document(None, tag, l, msg, context, fields) == Ascii(doc)
  {
    assert [CLOSE_BRACE, NEWLINE] == Ascii("}\n");
    AsciiAppend(h, c);
    AsciiAppend(h + c, f);
    AsciiAppend(h + c + f, "}\n");
  }

  // ---------------------------------------------------------------------------
  // The documents of TestHook (log_test.go): tag "test", no time format

  lemma TraceHead()
    ensures Head(None, Ascii("test"), Trace, Ascii("1")) == Ascii("{\"tag\":\"test\",\"level\":\"debug\",\"msg\":\"1\"")
  {
    assert "{" + "\"tag\":\"" == "{\"tag\":\"";
    assert "{\"tag\":\"" + "test" == "{\"tag\":\"test";
    assert "{\"tag\":\"test" + "\"," == "{\"tag\":\"test\",";
    assert "{\"tag\":\"test\"," + "\"level\":" == "{\"tag\":\"test\",\"level\":";
    assert "{\"tag\":\"test\",\"level\":" + "\"" == "{\"tag\":\"test\",\"level\":\"";
    assert "{\"tag\":\"test\",\"level\":\"" + "debug" == "{\"tag\":\"test\",\"level\":\"debug";
    assert "{\"tag\":\"test\",\"level\":\"debug" + "\"" == "{\"tag\":\"test\",\"level\":\"debug\"";
    assert "{\"tag\":\"test\",\"level\":\"debug\"" + ",\"msg\":" == "{\"tag\":\"test\",\"level\":\"debug\",\"msg\":";
    assert "\"" + "1" + "\"" == "\"1\"";
    assert "{\"tag\":\"test\",\"level\":\"debug\",\"msg\":" + "\"1\"" == "{\"tag\":\"test\",\"level\":\"debug\",\"msg\":\"1\"";
    HeadText("test", Trace, "debug", "1", "{\"tag\":\"test\",\"level\":\"debug\",\"msg\":\"1\"");
  }

  lemma Info21Head()
    ensures Head(None, Ascii("test"), Info, Ascii("21")) == Ascii("{\"tag\":\"test\",\"level\":\"info\",\"msg\":\"21\"")
  {
    assert "{" + "\"tag\":\"" == "{\"tag\":\"";
    assert "{\"tag\":\"" + "test" == "{\"tag\":\"test";
    assert "{\"tag\":\"test" + "\"," == "{\"tag\":\"test\",";
    assert "{\"tag\":\"test\"," + "\"level\":" == "{\"tag\":\"test\",\"level\":";
    assert "{\"tag\":\"test\",\"level\":" + "\"" == "{\"tag\":\"test\",\"level\":\"";
    assert "{\"tag\":\"test\",\"level\":\"" + "info" == "{\"tag\":\"test\",\"level\":\"info";
    assert "{\"tag\":\"test\",\"level\":\"info" + "\"" == "{\"tag\":\"test\",\"level\":\"info\"";
    assert "{\"tag\":\"test\",\"level\":\"info\"" + ",\"msg\":" == "{\"tag\":\"test\",\"level\":\"info\",\"msg\":";
    assert "\"" + "21" + "\"" == "\"21\"";
    assert "{\"tag\":\"test\",\"level\":\"info\",\"msg\":" + "\"21\"" == "{\"tag\":\"test\",\"level\":\"info\",\"msg\":\"21\"";
    HeadText("test", Info, "info", "21", "{\"tag\":\"test\",\"level\":\"info\",\"msg\":\"21\"");
  }

  lemma Info22Head()
    ensures Head(None, Ascii("test"), Info, Ascii("22")) == Ascii("{\"tag\":\"test\",\"level\":\"info\",\"msg\":\"22\"")
  {
    assert "{" + "\"tag\":\"" == "{\"tag\":\"";
    assert "{\"tag\":\"" + "test" == "{\"tag\":\"test";
    assert "{\"tag\":\"test" + "\"," == "{\"tag\":\"test\",";
    assert "{\"tag\":\"test\"," + "\"level\":" == "{\"tag\":\"test\",\"level\":";
    assert "{\"tag\":\"test\",\"level\":" + "\"" == "{\"tag\":\"test\",\"level\":\"";
    assert "{\"tag\":\"test\",\"level\":\"" + "info" == "{\"tag\":\"test\",\"level\":\"info";
    assert "{\"tag\":\"test\",\"level\":\"info" + "\"" == "{\"tag\":\"test\",\"level\":\"info\"";
    assert "{\"tag\":\"test\",\"level\":\"info\"" + ",\"msg\":" == "{\"tag\":\"test\",\"level\":\"info\",\"msg\":";
    assert "\"" + "22" + "\"" == "\"22\"";
    assert "{\"tag\":\"test\",\"level\":\"info\",\"msg\":" + "\"22\"" == "{\"tag\":\"test\",\"level\":\"info\",\"msg\":\"22\"";
    HeadText("test", Info, "info", "22", "{\"tag\":\"test\",\"level\":\"info\",\"msg\":\"22\"");
  }

  lemma WarnHead()
    ensures Head(None, Ascii("test"), Warn, Ascii("3")) == Ascii("{\"tag\":\"test\",\"level\":\"warn\",\"msg\":\"3\"")
  {
    assert "{" + "\"tag\":\"" == "{\"tag\":\"";
    assert "{\"tag\":\"" + "test" == "{\"tag\":\"test";
    assert "{\"tag\":\"test" + "\"," == "{\"tag\":\"test\",";
    assert "{\"tag\":\"test\"," + "\"level\":" == "{\"tag\":\"test\",\"level\":";
    assert "{\"tag\":\"test\",\"level\":" + "\"" == "{\"tag\":\"test\",\"level\":\"";
    assert "{\"tag\":\"test\",\"level\":\"" + "warn" == "{\"tag\":\"test\",\"level\":\"warn";
    assert "{\"tag\":\"test\",\"level\":\"warn" + "\"" == "{\"tag\":\"test\",\"level\":\"warn\"";
    assert "{\"tag\":\"test\",\"level\":\"warn\"" + ",\"msg\":" == "{\"tag\":\"test\",\"level\":\"warn\",\"msg\":";
    assert "\"" + "3" + "\"" == "\"3\"";
    assert "{\"tag\":\"test\",\"level\":\"warn\",\"msg\":" + "\"3\"" == "{\"tag\":\"test\",\"level\":\"warn\",\"msg\":\"3\"";
    HeadText("test", Warn, "warn", "3", "{\"tag\":\"test\",\"level\":\"warn\",\"msg\":\"3\"");
  }

  lemma ErrorHead()
    ensures Head(None, Ascii("test"), Error, Ascii("4")) == Ascii("{\"tag\":\"test\",\"level\":\"error\",\"msg\":\"4\"")
  {
    assert "{" + "\"tag\":\"" == "{\"tag\":\"";
    assert "{\"tag\":\"" + "test" == "{\"tag\":\"test";
    assert "{\"tag\":\"test" + "\"," == "{\"tag\":\"test\",";
    assert "{\"tag\":\"test\"," + "\"level\":" == "{\"tag\":\"test\",\"level\":";
    assert "{\"tag\":\"test\",\"level\":" + "\"" == "{\"tag\":\"test\",\"level\":\"";
    assert "{\"tag\":\"test\",\"level\":\"" + "error" == "{\"tag\":\"test\",\"level\":\"error";
    assert "{\"tag\":\"test\",\"level\":\"error" + "\"" == "{\"tag\":\"test\",\"level\":\"error\"";
    assert "{\"tag\":\"test\",\"level\":\"error\"" + ",\"msg\":" == "{\"tag\":\"test\",\"level\":\"error\",\"msg\":";
    assert "\"" + "4" + "\"" == "\"4\"";
    assert "{\"tag\":\"test\",\"level\":\"error\",\"msg\":" + "\"4\"" == "{\"tag\":\"test\",\"level\":\"error\",\"msg\":\"4\"";
    HeadText("test", Error, "error", "4", "{\"tag\":\"test\",\"level\":\"error\",\"msg\":\"4\"");
  }

  lemma FatalHead()
    ensures Head(None, Ascii("test"), Fatal, Ascii("5")) == Ascii("{\"tag\":\"test\",\"level\":\"fatal\",\"msg\":\"5\"")
  {
    assert "{" + "\"tag\":\"" == "{\"tag\":\"";
    assert "{\"tag\":\"" + "test" == "{\"tag\":\"test";
    assert "{\"tag\":\"test" + "\"," == "{\"tag\":\"test\",";
    assert "{\"tag\":\"test\"," + "\"level\":" == "{\"tag\":\"test\",\"level\":";
    assert "{\"tag\":\"test\",\"level\":" + "\"" == "{\"tag\":\"test\",\"level\":\"";
    assert "{\"tag\":\"test\",\"level\":\"" + "fatal" == "{\"tag\":\"test\",\"level\":\"fatal";
    assert "{\"tag\":\"test\",\"level\":\"fatal" + "\"" == "{\"tag\":\"test\",\"level\":\"fatal\"";
    assert "{\"tag\":\"test\",\"level\":\"fatal\"" + ",\"msg\":" == "{\"tag\":\"test\",\"level\":\"fatal\",\"msg\":";
    assert "\"" + "5" + "\"" == "\"5\"";
    assert "{\"tag\":\"test\",\"level\":\"fatal\",\"msg\":" + "\"5\"" == "{\"tag\":\"test\",\"level\":\"fatal\",\"msg\":\"5\"";
    HeadText("test", Fatal, "fatal", "5", "{\"tag\":\"test\",\"level\":\"fatal\",\"msg\":\"5\"");
  }

  lemma AText()
    ensures Encode([Str(Ascii("a")), Scalar(Ascii("1"))]) == Ascii(",\"a\":1")
  {
    ScalarPairText("a", "1", ",\"a\":1");
  }

  lemma ZText()
    ensures Encode([Str(Ascii("z")), Scalar(Ascii("3"))]) == Ascii(",\"z\":3")
  {
    ScalarPairText("z", "3", ",\"z\":3");
  }

  lemma NewErrorIsPlain()
    ensures IsPlain("new error")
  {
  }

  lemma ErrText()
    ensures Encode([Str(Ascii("err")), Err(Ascii("new error"))]) == Ascii(",\"err\":\"new error\"")
  {
    NewErrorIsPlain();
    QuotedPairText("err", Err(Ascii("new error")), "new error", ",\"err\":\"new error\"");
  }

  lemma XyText()
    ensures Encode([Str(Ascii("x")), Scalar(Ascii("5")), Str(Ascii("y")), Scalar(Ascii("4"))])
         == Ascii(",\"x\":5,\"y\":4")
  {
    var x, y := [Str(Ascii("x")), Scalar(Ascii("5"))], [Str(Ascii("y")), Scalar(Ascii("4"))];
    EncodeAppend(x, y);
    assert x + y == [Str(Ascii("x")), Scalar(Ascii("5")), Str(Ascii("y")), Scalar(Ascii("4"))];
    ScalarPairText("x", "5", ",\"x\":5");
    ScalarPairText("y", "4", ",\"y\":4");
    AsciiAppend(",\"x\":5", ",\"y\":4");
  }

  lemma XyzText()
    ensures Encode([Str(Ascii("x")), Scalar(Ascii("5")), Str(Ascii("y")), Scalar(Ascii("4"))])
            + Encode([Str(Ascii("z")), Scalar(Ascii("3"))])
         == Ascii(",\"x\":5,\"y\":4,\"z\":3")
  {
    XyText();
    ZText();
    AsciiAppend(",\"x\":5,\"y\":4", ",\"z\":3");
  }

  lemma TraceDocument()
    ensures Document(None, Ascii("test"), Trace, Ascii("1"), [], [Str(Ascii("a")), Scalar(Ascii("1"))])
         == Ascii("{\"tag\":\"test\",\"level\":\"debug\",\"msg\":\"1\",\"a\":1}\n")
  {
    TraceHead();
    AText();
    DocumentText(Ascii("test"), Trace, Ascii("1"), [], [Str(Ascii("a")), Scalar(Ascii("1"))],
      "{\"tag\":\"test\",\"level\":\"debug\",\"msg\":\"1\"", "", ",\"a\":1", "{\"tag\":\"test\",\"level\":\"debug\",\"msg\":\"1\",\"a\":1}\n");
  }

  lemma Info21Document()
    ensures Document(None, Ascii("test"), Info, Ascii("21"), [], [])
         == Ascii("{\"tag\":\"test\",\"level\":\"info\",\"msg\":\"21\"}\n")
  {
    Info21Head();
    DocumentText(Ascii("test"), Info, Ascii("21"), [], [],
      "{\"tag\":\"test\",\"level\":\"info\",\"msg\":\"21\"", "", "", "{\"tag\":\"test\",\"level\":\"info\",\"msg\":\"21\"}\n");
  }

  lemma Info22Document()
    ensures Document(None, Ascii("test"), Info, Ascii("22"), [], [])
         == Ascii("{\"tag\":\"test\",\"level\":\"info\",\"msg\":\"22\"}\n")
  {
    Info22Head();
    DocumentText(Ascii("test"), Info, Ascii("22"), [], [],
      "{\"tag\":\"test\",\"level\":\"info\",\"msg\":\"22\"", "", "", "{\"tag\":\"test\",\"level\":\"info\",\"msg\":\"22\"}\n");
  }

  lemma WarnDocument()
    ensures Document(None, Ascii("test"), Warn, Ascii("3"), Encode([Str(Ascii("x")), Scalar(Ascii("5")), Str(Ascii("y")), Scalar(Ascii("4"))]), [])
         == Ascii("{\"tag\":\"test\",\"level\":\"warn\",\"msg\":\"3\",\"x\":5,\"y\":4}\n")
  {
    WarnHead();
    XyText();
    DocumentText(Ascii("test"), Warn, Ascii("3"), Encode([Str(Ascii("x")), Scalar(Ascii("5")), Str(Ascii("y")), Scalar(Ascii("4"))]), [],
      "{\"tag\":\"test\",\"level\":\"warn\",\"msg\":\"3\"", ",\"x\":5,\"y\":4", "", "{\"tag\":\"test\",\"level\":\"warn\",\"msg\":\"3\",\"x\":5,\"y\":4}\n");
  }

  lemma ErrorLine()
    ensures "{\"tag\":\"test\",\"level\":\"error\",\"msg\":\"4\"" + ",\"x\":5,\"y\":4" + ",\"err\":\"new error\"" + "}\n"
         == "{\"tag\":\"test\",\"level\":\"error\",\"msg\":\"4\",\"x\":5,\"y\":4,\"err\":\"new error\"}\n"
  {
  }

  lemma ErrorDocument()
    ensures Document(None, Ascii("test"), Error, Ascii("4"), Encode([Str(Ascii("x")), Scalar(Ascii("5")), Str(Ascii("y")), Scalar(Ascii("4"))]), [Str(Ascii("err")), Err(Ascii("new error"))])
         == Ascii("{\"tag\":\"test\",\"level\":\"error\",\"msg\":\"4\",\"x\":5,\"y\":4,\"err\":\"new error\"}\n")
  {
    ErrorHead();
    ErrorLine();
    XyText();
    ErrText();
    DocumentText(Ascii("test"), Error, Ascii("4"), Encode([Str(Ascii("x")), Scalar(Ascii("5")), Str(Ascii("y")), Scalar(Ascii("4"))]), [Str(Ascii("err")), Err(Ascii("new error"))],
      "{\"tag\":\"test\",\"level\":\"error\",\"msg\":\"4\"", ",\"x\":5,\"y\":4", ",\"err\":\"new error\"", "{\"tag\":\"test\",\"level\":\"error\",\"msg\":\"4\",\"x\":5,\"y\":4,\"err\":\"new error\"}\n");
  }

  lemma FatalLine()
    ensures "{\"tag\":\"test\",\"level\":\"fatal\",\"msg\":\"5\"" + ",\"x\":5,\"y\":4,\"z\":3" + "" + "}\n"
         == "{\"tag\":\"test\",\"level\":\"fatal\",\"msg\":\"5\",\"x\":5,\"y\":4,\"z\":3}\n"
  {
  }

  lemma FatalDocument()
    ensures Document(None, Ascii("test"), Fatal, Ascii("5"), Encode([Str(Ascii("x")), Scalar(Ascii("5")), Str(Ascii("y")), Scalar(Ascii("4"))]) + Encode([Str(Ascii("z")), Scalar(Ascii("3"))]), [])
         == Ascii("{\"tag\":\"test\",\"level\":\"fatal\",\"msg\":\"5\",\"x\":5,\"y\":4,\"z\":3}\n")
  {
    FatalHead();
    FatalLine();
    XyzText();
    DocumentText(Ascii("test"), Fatal, Ascii("5"), Encode([Str(Ascii("x")), Scalar(Ascii("5")), Str(Ascii("y")), Scalar(Ascii("4"))]) + Encode([Str(Ascii("z")), Scalar(Ascii("3"))]), [],
      "{\"tag\":\"test\",\"level\":\"fatal\",\"msg\":\"5\"", ",\"x\":5,\"y\":4,\"z\":3", "", "{\"tag\":\"test\",\"level\":\"fatal\",\"msg\":\"5\",\"x\":5,\"y\":4,\"z\":3}\n");
  }

  // ---------------------------------------------------------------------------
  // TestLog, "Line Breaks and Tabs"

  /** The case "Line Breaks and Tabs" of TestLog (log_test.go): a message and
      a string value full of newlines and tabs still give a document whose
      only newline is its last byte, since both are escaped. */
  lemma LineBreaksIsOneLine()
    ensures var d := Document(None, Ascii("test"), Info, Ascii("a\nb\t\tc"), [],
                              [Str(Ascii("x")), Str(Ascii("\t\t\ty\n\n\n"))]);
      |d| > 0 && d[|d| - 1] == NEWLINE && NEWLINE !in d[..|d| - 1]
  {
    var fields := [Str(Ascii("x")), Str(Ascii("\t\t\ty\n\n\n"))];
    assert NEWLINE !in Ascii("test") && NEWLINE !in Ascii("x");
    assert fields[2..] == [];
    DocumentIsOneLine(None, Ascii("test"), Info, Ascii("a\nb\t\tc"), [], fields);
  }

  // ---------------------------------------------------------------------------
  // TestHook as a run

  /** Two appended calls are one appended pair of calls. */
  lemma AppendTwo<T>(s: seq<T>, a: T, b: T)
    ensures s + [a] + [b] == s + [a, b]
  {
  }

  /** What holds between the steps of the run: the emitter writes to `sink`
      at the lowest level, without a time format, and shows every document to
      `hook`; the sink holds exactly what the hook has been shown. */
  ghost predicate Ready(e: Emitter, pool: BufferPool, sink: Sink, hook: Hook)
    reads e, pool, pool.idle, sink, hook
  {
    pool.Valid() && e.output == sink && e.hook == hook && e.level == Trace && e.timeFormat == []
    && sink.written == Transcript(hook.calls)
  }

  /** The run of TestHook (log_test.go). In test mode the default emitter
      writes to a fresh sink at the lowest level, with no time format, and
      carries the hook; the exit action only records its status. Three calls
      on the default emitter, then two on a context with `x` and `y` bound,
      then one on its child with `z` added: the hook sees each document once,
      with its level, exactly as the test expects it; the sink receives the
      same documents in the same order; and `F` asks to exit once, with
      status 1. */
  method HookScenario() returns (sink: Sink, hook: Hook, exit: ExitAction)
    ensures hook.calls == [
      (Trace, Ascii("{\"tag\":\"test\",\"level\":\"debug\",\"msg\":\"1\",\"a\":1}\n")),
      (Info, Ascii("{\"tag\":\"test\",\"level\":\"info\",\"msg\":\"21\"}\n")),
      (Info, Ascii("{\"tag\":\"test\",\"level\":\"info\",\"msg\":\"22\"}\n")),
      (Warn, Ascii("{\"tag\":\"test\",\"level\":\"warn\",\"msg\":\"3\",\"x\":5,\"y\":4}\n")),
      (Error, Ascii("{\"tag\":\"test\",\"level\":\"error\",\"msg\":\"4\",\"x\":5,\"y\":4,\"err\":\"new error\"}\n")),
      (Fatal, Ascii("{\"tag\":\"test\",\"level\":\"fatal\",\"msg\":\"5\",\"x\":5,\"y\":4,\"z\":3}\n"))]
    ensures sink.written == Transcript(hook.calls)
    ensures exit.codes == [1]
  {
    sink := new Sink();
    hook := new Hook();
    exit := new ExitAction();
    var default := new Emitter.Of(Trace, sink, [], hook, []);
    var pool := new BufferPool();
    DefaultRun(default, pool, sink, hook);
    ContextRun(default, pool, sink, hook, exit);
  }

  /** The three calls on the default emitter. */
  method DefaultRun(default: Emitter, pool: BufferPool, sink: Sink, hook: Hook)
    requires Ready(default, pool, sink, hook) && default.context == []
    modifies sink, hook, pool, pool.idle
    ensures Ready(default, pool, sink, hook) && (pool.idle == null || pool.idle == old(pool.idle) || fresh(pool.idle))
    ensures hook.calls == old(hook.calls) + [
      (Trace, Ascii("{\"tag\":\"test\",\"level\":\"debug\",\"msg\":\"1\",\"a\":1}\n")),
      (Info, Ascii("{\"tag\":\"test\",\"level\":\"info\",\"msg\":\"21\"}\n")),
      (Info, Ascii("{\"tag\":\"test\",\"level\":\"info\",\"msg\":\"22\"}\n"))]
  {
    TraceStep(default, pool, sink, hook);
    Info21Step(default, pool, sink, hook);
    Info22Step(default, pool, sink, hook);
  }

  /** `log.C(tag, "x", 5, "y", 4)` on the default emitter, its two calls, then
      its child `logger.C("z", 3)` and the child's call. */
  method ContextRun(default: Emitter, pool: BufferPool, sink: Sink, hook: Hook, exit: ExitAction)
    requires Ready(default, pool, sink, hook)
    modifies sink, hook, pool, pool.idle, exit
    ensures hook.calls == old(hook.calls) + [
      (Warn, Ascii("{\"tag\":\"test\",\"level\":\"warn\",\"msg\":\"3\",\"x\":5,\"y\":4}\n")),
      (Error, Ascii("{\"tag\":\"test\",\"level\":\"error\",\"msg\":\"4\",\"x\":5,\"y\":4,\"err\":\"new error\"}\n")),
      (Fatal, Ascii("{\"tag\":\"test\",\"level\":\"fatal\",\"msg\":\"5\",\"x\":5,\"y\":4,\"z\":3}\n"))]
    ensures sink.written == Transcript(hook.calls)
    ensures exit.codes == old(exit.codes) + [1]
  {
    var logger := Contexts.C(default, Ascii("test"), [Str(Ascii("x")), Scalar(Ascii("5")), Str(Ascii("y")), Scalar(Ascii("4"))]);
    BoundRun(logger.value, pool, sink, hook);
    ChildRun(logger.value, pool, sink, hook, exit);
  }

  /** The two calls on the context with `x` and `y` bound. */
  method BoundRun(logger: Contexts.Context, pool: BufferPool, sink: Sink, hook: Hook)
    requires Ready(logger.emitter, pool, sink, hook) && logger.tag == Ascii("test") && logger.emitter.context == Encode([Str(Ascii("x")), Scalar(Ascii("5")), Str(Ascii("y")), Scalar(Ascii("4"))])
    modifies sink, hook, pool, pool.idle
    ensures Ready(logger.emitter, pool, sink, hook) && (pool.idle == null || pool.idle == old(pool.idle) || fresh(pool.idle))
    ensures hook.calls == old(hook.calls) + [
      (Warn, Ascii("{\"tag\":\"test\",\"level\":\"warn\",\"msg\":\"3\",\"x\":5,\"y\":4}\n")),
      (Error, Ascii("{\"tag\":\"test\",\"level\":\"error\",\"msg\":\"4\",\"x\":5,\"y\":4,\"err\":\"new error\"}\n"))]
  {
    ghost var before := hook.calls;
    WarnStep(logger, pool, sink, hook);
    ErrorStep(logger, pool, sink, hook);
    AppendTwo(before, (Warn, Ascii("{\"tag\":\"test\",\"level\":\"warn\",\"msg\":\"3\",\"x\":5,\"y\":4}\n")),
      (Error, Ascii("{\"tag\":\"test\",\"level\":\"error\",\"msg\":\"4\",\"x\":5,\"y\":4,\"err\":\"new error\"}\n")));
  }

  /** `logger.C("z", 3)` and the child's call. */
  method ChildRun(logger: Contexts.Context, pool: BufferPool, sink: Sink, hook: Hook, exit: ExitAction)
    requires Ready(logger.emitter, pool, sink, hook) && logger.tag == Ascii("test") && logger.emitter.context == Encode([Str(Ascii("x")), Scalar(Ascii("5")), Str(Ascii("y")), Scalar(Ascii("4"))])
    modifies sink, hook, pool, pool.idle, exit
    ensures hook.calls == old(hook.calls) + [(Fatal, Ascii("{\"tag\":\"test\",\"level\":\"fatal\",\"msg\":\"5\",\"x\":5,\"y\":4,\"z\":3}\n"))]
    ensures sink.written == Transcript(hook.calls)
    ensures exit.codes == old(exit.codes) + [1]
  {
    var child := logger.C([Str(Ascii("z")), Scalar(Ascii("3"))]);
    FatalStep(child.value, pool, sink, hook, exit);
  }

  /** `log.T(tag, "1", "a", 1)`. */
  method TraceStep(default: Emitter, pool: BufferPool, sink: Sink, hook: Hook)
    requires Ready(default, pool, sink, hook) && default.context == []
    modifies sink, hook, pool, pool.idle
    ensures Ready(default, pool, sink, hook) && (pool.idle == null || pool.idle == old(pool.idle) || fresh(pool.idle))
    ensures hook.calls == old(hook.calls) + [(Trace, Ascii("{\"tag\":\"test\",\"level\":\"debug\",\"msg\":\"1\",\"a\":1}\n"))]
  {
    var _ := default.T(Ascii("test"), Ascii("1"), [Str(Ascii("a")), Scalar(Ascii("1"))], [], pool);
    TraceDocument();
  }

  /** `log.I(tag, "21")`. */
  method Info21Step(default: Emitter, pool: BufferPool, sink: Sink, hook: Hook)
    requires Ready(default, pool, sink, hook) && default.context == []
    modifies sink, hook, pool, pool.idle
    ensures Ready(default, pool, sink, hook) && (pool.idle == null || pool.idle == old(pool.idle) || fresh(pool.idle))
    ensures hook.calls == old(hook.calls) + [(Info, Ascii("{\"tag\":\"test\",\"level\":\"info\",\"msg\":\"21\"}\n"))]
  {
    var _ := default.I(Ascii("test"), Ascii("21"), [], [], pool);
    Info21Document();
  }

  /** `log.I(tag, "22")`. */
  method Info22Step(default: Emitter, pool: BufferPool, sink: Sink, hook: Hook)
    requires Ready(default, pool, sink, hook) && default.context == []
    modifies sink, hook, pool, pool.idle
    ensures Ready(default, pool, sink, hook) && (pool.idle == null || pool.idle == old(pool.idle) || fresh(pool.idle))
    ensures hook.calls == old(hook.calls) + [(Info, Ascii("{\"tag\":\"test\",\"level\":\"info\",\"msg\":\"22\"}\n"))]
  {
    var _ := default.I(Ascii("test"), Ascii("22"), [], [], pool);
    Info22Document();
  }

  /** `logger.W("3")`, on the context with `x` and `y` bound. */
  method WarnStep(logger: Contexts.Context, pool: BufferPool, sink: Sink, hook: Hook)
    requires Ready(logger.emitter, pool, sink, hook) && logger.tag == Ascii("test") && logger.emitter.context == Encode([Str(Ascii("x")), Scalar(Ascii("5")), Str(Ascii("y")), Scalar(Ascii("4"))])
    modifies sink, hook, pool, pool.idle
    ensures Ready(logger.emitter, pool, sink, hook) && (pool.idle == null || pool.idle == old(pool.idle) || fresh(pool.idle))
    ensures hook.calls == old(hook.calls) + [(Warn, Ascii("{\"tag\":\"test\",\"level\":\"warn\",\"msg\":\"3\",\"x\":5,\"y\":4}\n"))]
  {
    var _ := logger.W(Ascii("3"), [], [], pool);
    WarnDocument();
  }

  /** `logger.E("4", "err", errors.New("new error"))`. */
  method ErrorStep(logger: Contexts.Context, pool: BufferPool, sink: Sink, hook: Hook)
    requires Ready(logger.emitter, pool, sink, hook) && logger.tag == Ascii("test") && logger.emitter.context == Encode([Str(Ascii("x")), Scalar(Ascii("5")), Str(Ascii("y")), Scalar(Ascii("4"))])
    modifies sink, hook, pool, pool.idle
    ensures Ready(logger.emitter, pool, sink, hook) && (pool.idle == null || pool.idle == old(pool.idle) || fresh(pool.idle))
    ensures hook.calls == old(hook.calls) + [(Error, Ascii("{\"tag\":\"test\",\"level\":\"error\",\"msg\":\"4\",\"x\":5,\"y\":4,\"err\":\"new error\"}\n"))]
  {
    var _ := logger.E(Ascii("4"), [Str(Ascii("err")), Err(Ascii("new error"))], [], pool);
    ErrorDocument();
  }

  /** `logger.F("5")`, on the child that adds `z`. */
  method FatalStep(logger: Contexts.Context, pool: BufferPool, sink: Sink, hook: Hook, exit: ExitAction)
    requires Ready(logger.emitter, pool, sink, hook) && logger.tag == Ascii("test") && logger.emitter.context == Encode([Str(Ascii("x")), Scalar(Ascii("5")), Str(Ascii("y")), Scalar(Ascii("4"))]) + Encode([Str(Ascii("z")), Scalar(Ascii("3"))])
    modifies sink, hook, pool, pool.idle, exit
    ensures Ready(logger.emitter, pool, sink, hook) && (pool.idle == null || pool.idle == old(pool.idle) || fresh(pool.idle))
    ensures hook.calls == old(hook.calls) + [(Fatal, Ascii("{\"tag\":\"test\",\"level\":\"fatal\",\"msg\":\"5\",\"x\":5,\"y\":4,\"z\":3}\n"))]
    ensures exit.codes == old(exit.codes) + [1]
  {
    var _ := logger.F(Ascii("5"), [], [], pool, exit);
    FatalDocument();
  }

  // ---------------------------------------------------------------------------
  // TestContext, "With Lower Level"

  /** The case "With Lower Level" of TestContext (context_test.go), for any
      tag, bound fields and messages: a context is derived from the default
      emitter, and only then is its own emitter's minimum raised to Fatal. Its
      Warn and Error calls write nothing, and the default emitter keeps its own
      minimum: the context holds a copy of the configuration, not a reference
      to it. */
  method LowerLevelScenario(tag: Bytes, fields: seq<Any>, m1: Bytes, m2: Bytes)
    returns (sink: Sink, default: Emitter)
    requires IsEven(fields)
    ensures sink.written == [] && default.level == Trace
  {
    sink := new Sink();
    default := new Emitter.Of(Trace, sink, [], null, []);
    var pool := new BufferPool();
    var logger := Contexts.C(default, tag, fields);
    logger.value.emitter.level := Fatal;
    var _ := logger.value.W(m1, [], [], pool);
    var _ := logger.value.E(m2, [], [], pool);
  }
}
