/** The emitter of emitter.go: the byte-level encoder, the buffer pool and the
    emission of one document, plus `SetLevel` from level.go, which updates the
    minimum level of an emitter in place. */
module Emitters {
  import opened Bytes
  import opened Escaping
  import opened Fields
  import opened Levels
  import opened Io

  /** An observer of emitted documents (`Hook`); this one records each call. */
  class Hook {
    var calls: seq<(Level, Bytes)>

    constructor ()
      ensures calls == []
    {
      calls := [];
    }

    method Call(level: Level, doc: Bytes)
      modifies this
      ensures calls == old(calls) + [(level, doc)]
    {
      calls := calls + [(level, doc)];
    }
  }

  /** The process-exit action that `F` calls after emitting; this one records
      the status it is asked to exit with. */
  class ExitAction {
    var codes: seq<int>

    constructor ()
      ensures codes == []
    {
      codes := [];
    }

    method Exit(code: int)
      modifies this
      ensures codes == old(codes) + [code]
    {
      codes := codes + [code];
    }
  }

  /** The pool of reusable buffers, reduced to a single idle buffer. A buffer
      goes back to the pool only once it has been drained into the sink, so
      the idle buffer is always empty. */
  class BufferPool {
    var idle: Buffer?

    ghost predicate Valid()
      reads this, idle
    {
      idle != null ==> idle.bytes == []
    }

    constructor ()
      ensures Valid() && idle == null
    {
      idle := null;
    }

    /** Hand out the idle buffer, or a new one when there is none. */
    method Get() returns (b: Buffer)
      requires Valid()
      modifies this
      ensures b.bytes == [] && idle == null
      ensures b == old(idle) || fresh(b)
    {
      if idle != null {
        b := idle;
        idle := null;
      } else {
        b := new Buffer();
      }
    }

    /** Take a drained buffer back. */
    method Put(b: Buffer)
      requires b.bytes == []
      modifies this
      ensures idle == b && Valid()
    {
      idle := b;
    }
  }

  // ---------------------------------------------------------------------------
  // The document

  /** The `time` member, present when a time format is configured. */
  function TimePart(time: Option<Bytes>): Bytes {
    if time.Some? then Ascii("\"time\":\"") + time.value + Ascii("\",") else []
  }

  /** The opening of every document: brace, optional time, tag, level and message. */
  function Head(time: Option<Bytes>, tag: Bytes, level: Level, message: Bytes): Bytes {
    [OPEN_BRACE] + TimePart(time)
    + Ascii("\"tag\":\"") + tag + Ascii("\",")
    + Ascii("\"level\":") + [QUOTE] + Name(level) + [QUOTE]
    + Ascii(",\"msg\":") + Quoted(message)
  }

  /** The document Emit writes: the head, then the context prefix, then the
      call-site fields, then the closing brace and a newline. */
  function Document(time: Option<Bytes>, tag: Bytes, level: Level, message: Bytes,
                    context: Bytes, fields: seq<Any>): Bytes
    requires IsEven(fields)
  {
    Head(time, tag, level, message) + context + Encode(fields) + [CLOSE_BRACE, NEWLINE]
  }

  /** Fields bound in a context are indistinguishable from the same fields
      passed first at the call site: the prefix `Encode(bound)` followed by the
      call-site fields gives the document of the concatenated list. */
  lemma DocumentContext(time: Option<Bytes>, tag: Bytes, level: Level, message: Bytes,
                        context: Bytes, bound: seq<Any>, fields: seq<Any>)
    requires IsEven(bound) && IsEven(fields)
    ensures IsEven(bound + fields)
    ensures Document(time, tag, level, message, context + Encode(bound), fields)
            == Document(time, tag, level, message, context, bound + fields)
  {
    EncodeAppend(bound, fields);
    var h := Head(time, tag, level, message);
    AppendAssoc(h + context, Encode(bound), Encode(fields));
    AppendAssoc(h, context, Encode(bound));
  }

  /** The parts of a field list written without escaping hold no newline:
      each key's text, and the bare text of each scalar value. Values of the
      other arms are escaped, so they may hold any bytes. */
  predicate PairsOneLine(fields: seq<Any>)
    requires IsEven(fields)
    decreases |fields|
  {
    fields == []
    || (NEWLINE !in KeyText(fields[0]) && (fields[1].Scalar? ==> NEWLINE !in fields[1].v)
        && PairsOneLine(fields[2..]))
  }

  /** Documents are one per line: the final newline is the only one, as long
      as the parts written without escaping (time, tag, context, keys and
      scalar renderings) hold none. The message and string values may hold
      any bytes, since their newlines are escaped. */
  lemma DocumentIsOneLine(time: Option<Bytes>, tag: Bytes, level: Level, message: Bytes,
                          context: Bytes, fields: seq<Any>)
    requires IsEven(fields)
    requires time.Some? ==> NEWLINE !in time.value
    requires NEWLINE !in tag && NEWLINE !in context
    requires PairsOneLine(fields)
    ensures var d := Document(time, tag, level, message, context, fields);
      |d| > 0 && d[|d| - 1] == NEWLINE && NEWLINE !in d[..|d| - 1]
  {
    var d := Document(time, tag, level, message, context, fields);
    HeadIsOneLine(time, tag, level, message);
    EncodeNoNewline(fields);
    assert d[..|d| - 1] == Head(time, tag, level, message) + context + Encode(fields) + [CLOSE_BRACE];
  }

  /** The head of a document holds no newline when the time and tag hold none. */
  lemma HeadIsOneLine(time: Option<Bytes>, tag: Bytes, level: Level, message: Bytes)
    requires time.Some? ==> NEWLINE !in time.value
    requires NEWLINE !in tag
    ensures NEWLINE !in Head(time, tag, level, message)
  {
    EscapeNoNewline(message);
    PunctuationIsOneLine();
    assert NEWLINE !in Name(level);
  }

  /** The fixed text of a head holds no newline. */
  lemma PunctuationIsOneLine()
    ensures NEWLINE !in Ascii("\"time\":\"") && NEWLINE !in Ascii("\",")
    ensures NEWLINE !in Ascii("\"tag\":\"") && NEWLINE !in Ascii("\"level\":")
    ensures NEWLINE !in Ascii(",\"msg\":")
  {
  }

  /** Escaped text never holds a raw newline. */
  lemma {:induction false} EscapeNoNewline(s: Bytes)
    ensures NEWLINE !in Escape(s)
  {
    if s != [] {
      EscapeNoNewline(s[1..]);
      assert NEWLINE !in EscapeByte(s[0]);
    }
  }

  /** The encoded fields hold no newline when no key or scalar text does. */
  lemma {:induction false} EncodeNoNewline(fields: seq<Any>)
    requires IsEven(fields)
    requires PairsOneLine(fields)
    ensures NEWLINE !in Encode(fields)
    decreases |fields|
  {
    if fields != [] {
      EncodeNoNewline(fields[2..]);
      var x := fields[1];
      if !x.Scalar? {
        EscapeNoNewline(StringForm(x));
      }
      assert NEWLINE !in ValueJson(x);
    }
  }

  // ---------------------------------------------------------------------------
  // The encoder

  /** `writeJSONString`: append `s` as a quoted string, escaping byte by byte. */
  method WriteJsonString(buf: Buffer, s: Bytes)
    modifies buf
    ensures buf.bytes == old(buf.bytes) + Quoted(s)
  {
    buf.WriteByte(QUOTE);
    var i := 0;
    while i < |s|
      invariant 0 <= i <= |s|
      invariant buf.bytes == old(buf.bytes) + [QUOTE] + Escape(s[..i])
    {
      ghost var before := buf.bytes;
      var b := s[i];
      if b == QUOTE || b == BACKSLASH {
        buf.WriteByte(BACKSLASH);
        buf.WriteByte(b);
      } else if b == BACKSPACE {
        buf.WriteByte(BACKSLASH);
        buf.WriteByte(LETTER_B);
      } else if b == FORMFEED {
        buf.WriteByte(BACKSLASH);
        buf.WriteByte(LETTER_F);
      } else if b == NEWLINE {
        buf.WriteByte(BACKSLASH);
        buf.WriteByte(LETTER_N);
      } else if b == RETURN {
        buf.WriteByte(BACKSLASH);
        buf.WriteByte(LETTER_R);
      } else if b == TAB {
        buf.WriteByte(BACKSLASH);
        buf.WriteByte(LETTER_T);
      } else {
        buf.WriteByte(b);
      }
      assert buf.bytes == before + EscapeByte(b);
      EscapeSnoc(s, i);
      AppendAssoc(old(buf.bytes) + [QUOTE], Escape(s[..i]), EscapeByte(b));
      i := i + 1;
    }
    assert s[..|s|] == s;
    buf.WriteByte(QUOTE);
  }

  /** The key arm of `writeFields`: `,"key":`, the key unescaped. */
  method WriteKey(buf: Buffer, k: Any)
    modifies buf
    ensures buf.bytes == old(buf.bytes) + KeyPart(k)
  {
    buf.WriteByte(COMMA);
    buf.WriteByte(QUOTE);
    match k {
      case Str(s) => buf.Write(s);
      case Stringer(text) => buf.Write(text);
      case _ => buf.Write(KeyText(k));  // fmt's %v
    }
    buf.Write([QUOTE, COLON]);
  }

  /** The value arm of `writeFields`: dispatch on the dynamic type of `x`. */
  method WriteValue(buf: Buffer, x: Any)
    modifies buf
    ensures buf.bytes == old(buf.bytes) + ValueJson(x)
  {
    match x {
      case Str(s) => WriteJsonString(buf, s);
      case ByteSlice(b, _) => WriteJsonString(buf, b);
      case Stringer(text) => WriteJsonString(buf, text);
      case Scalar(v) => buf.Write(v);  // fmt's %v, unquoted
      case Err(text) => WriteJsonString(buf, text);
      case Other(v) => WriteJsonString(buf, v);  // fmt's %v, quoted
    }
  }

  /** `writeFields`: append `,"key":value` for each pair, in order. An odd
      list makes the source index past its end after writing the last key,
      which panics; `ok` is false exactly then, and the buffer holds what was
      written up to that point. */
  method WriteFields(buf: Buffer, fields: seq<Any>) returns (ok: bool)
    modifies buf
    ensures ok <==> IsEven(fields)
    ensures ok ==> buf.bytes == old(buf.bytes) + Encode(fields)
    ensures !ok ==> buf.bytes == old(buf.bytes) + Encode(fields[..|fields| - 1])
                                 + KeyPart(fields[|fields| - 1])
  {
    var field := 0;
    while field < |fields|
      invariant 0 <= field <= |fields| && field % 2 == 0
      invariant IsEven(fields[..field])
      invariant buf.bytes == old(buf.bytes) + Encode(fields[..field])
    {
      ghost var done := buf.bytes;
      WriteKey(buf, fields[field]);
      if field + 1 == |fields| {
        return false;
      }
      WriteValue(buf, fields[field + 1]);
      EncodeStep(old(buf.bytes), fields, field);
      field := field + 2;
    }
    assert fields[..field] == fields;
    return true;
  }

  /** The start of Emit's document, written into an empty buffer: the brace,
      the time when one is given, the tag (unescaped), the level's name and
      the escaped message. */
  method WriteHead(buf: Buffer, time: Option<Bytes>, tag: Bytes, level: Level, message: Bytes)
    requires buf.bytes == []
    modifies buf
    ensures buf.bytes == Head(time, tag, level, message)
  {
    buf.WriteByte(OPEN_BRACE);
    if time.Some? {
      buf.Write(Ascii("\"time\":\""));
      buf.Write(time.value);
      buf.Write(Ascii("\","));
      AppendAssoc([OPEN_BRACE] + Ascii("\"time\":\""), time.value, Ascii("\","));
      AppendAssoc([OPEN_BRACE], Ascii("\"time\":\"") + time.value, Ascii("\","));
      AppendAssoc([OPEN_BRACE], Ascii("\"time\":\""), time.value);
    }
    assert buf.bytes == [OPEN_BRACE] + TimePart(time);
    buf.Write(Ascii("\"tag\":\""));
    buf.Write(tag);
    buf.Write(Ascii("\","));
    buf.Write(Ascii("\"level\":"));
    buf.WriteByte(QUOTE);
    buf.Write(Name(level));
    buf.WriteByte(QUOTE);
    buf.Write(Ascii(",\"msg\":"));
    WriteJsonString(buf, message);
  }

  // ---------------------------------------------------------------------------
  // The emitter

  /** `Emitter`: the configuration of one logger and its pre-encoded context. */
  class Emitter {
    var level: Level
    var output: Sink
    var timeFormat: Bytes
    var hook: Hook?
    var context: Bytes

    /** `New`: an emitter writing to `output`, at the lowest level, with no
        hook and no context. */
    constructor New(output: Sink, timeFormat: Bytes)
      ensures level == Trace && this.output == output && this.timeFormat == timeFormat
      ensures hook == null && context == []
    {
      level := Trace;
      this.output := output;
      this.timeFormat := timeFormat;
      hook := null;
      context := [];
    }

    /** An emitter with every field given (the composite literal `&Emitter{...}`). */
    constructor Of(level: Level, output: Sink, timeFormat: Bytes, hook: Hook?, context: Bytes)
      ensures this.level == level && this.output == output && this.timeFormat == timeFormat
      ensures this.hook == hook && this.context == context
    {
      this.level := level;
      this.output := output;
      this.timeFormat := timeFormat;
      this.hook := hook;
      this.context := context;
    }

    /** The rendered clock reading `now`, when a time format is configured. */
    function Time(now: Bytes): Option<Bytes>
      reads this
    {
      if timeFormat != [] then Some(now) else None
    }

    /** `Emit`: unless `lvl` is below the minimum, assemble the document in a
        pooled buffer, show it to the hook, and drain it into the sink. `now`
        is the current time rendered in `timeFormat`. */
    method Emit(tag: Bytes, lvl: Level, message: Bytes, fields: seq<Any>, now: Bytes, pool: BufferPool)
      returns (panicked: bool)
      requires pool.Valid()
      modifies output, hook, pool, pool.idle
      ensures Emitted(this, pool, tag, lvl, message, fields, now, panicked)
    {
      if lvl < level {
        return false;
      }
      var buf := pool.Get();
      WriteHead(buf, Time(now), tag, lvl, message);
      buf.Write(context);
      var ok := WriteFields(buf, fields);
      if !ok {
        return true;
      }
      ghost var body := buf.bytes;
      buf.WriteByte(CLOSE_BRACE);
      buf.WriteByte(NEWLINE);
      AppendAssoc(body, [CLOSE_BRACE], [NEWLINE]);
      assert buf.bytes == Document(Time(now), tag, lvl, message, context, fields);

      Deliver(lvl, buf, pool);
      return false;
    }

    /** The end of Emit: show the finished document to the hook, drain the
        buffer into the sink and give the buffer back to the pool. */
    method Deliver(lvl: Level, buf: Buffer, pool: BufferPool)
      modifies output, hook, buf, pool
      ensures output.written == old(output.written) + old(buf.bytes)
      ensures hook != null ==> hook.calls == old(hook.calls) + [(lvl, old(buf.bytes))]
      ensures hook != null && old(output.written) == Transcript(old(hook.calls)) ==>
                output.written == Transcript(hook.calls)
      ensures buf.bytes == [] && pool.idle == buf && pool.Valid()
    {
      if hook != null {
        TranscriptSnoc(hook.calls, (lvl, buf.bytes));
        hook.Call(lvl, buf.bytes);
      }
      buf.WriteTo(output);
      pool.Put(buf);
    }

    /** `T`, `I`, `W`, `E`: Emit at a fixed level. */
    method T(tag: Bytes, message: Bytes, fields: seq<Any>, now: Bytes, pool: BufferPool)
      returns (panicked: bool)
      requires pool.Valid()
      modifies output, hook, pool, pool.idle
      ensures Emitted(this, pool, tag, Trace, message, fields, now, panicked)
    {
      panicked := Emit(tag, Trace, message, fields, now, pool);
    }

    method I(tag: Bytes, message: Bytes, fields: seq<Any>, now: Bytes, pool: BufferPool)
      returns (panicked: bool)
      requires pool.Valid()
      modifies output, hook, pool, pool.idle
      ensures Emitted(this, pool, tag, Info, message, fields, now, panicked)
    {
      panicked := Emit(tag, Info, message, fields, now, pool);
    }

    method W(tag: Bytes, message: Bytes, fields: seq<Any>, now: Bytes, pool: BufferPool)
      returns (panicked: bool)
      requires pool.Valid()
      modifies output, hook, pool, pool.idle
      ensures Emitted(this, pool, tag, Warn, message, fields, now, panicked)
    {
      panicked := Emit(tag, Warn, message, fields, now, pool);
    }

    method E(tag: Bytes, message: Bytes, fields: seq<Any>, now: Bytes, pool: BufferPool)
      returns (panicked: bool)
      requires pool.Valid()
      modifies output, hook, pool, pool.idle
      ensures Emitted(this, pool, tag, Error, message, fields, now, panicked)
    {
      panicked := Emit(tag, Error, message, fields, now, pool);
    }

    /** `F`: Emit at Fatal, then call the exit action once with status 1 (a
        panic while encoding never reaches the exit call). */
    method F(tag: Bytes, message: Bytes, fields: seq<Any>, now: Bytes, pool: BufferPool, exit: ExitAction)
      returns (panicked: bool)
      requires pool.Valid()
      modifies output, hook, pool, pool.idle, exit
      ensures Emitted(this, pool, tag, Fatal, message, fields, now, panicked)
      ensures exit.codes == if panicked then old(exit.codes) else old(exit.codes) + [1]
    {
      panicked := Emit(tag, Fatal, message, fields, now, pool);
      if !panicked {
        exit.Exit(1);
      }
    }
  }

  /** What one call of Emit on `e` does. Below the minimum level: nothing at
      all, the pool untouched. Otherwise, with an odd field list: a panic, and
      neither the sink nor the hook sees anything. Otherwise: the sink receives
      exactly the document and nothing else, and the hook, when set, is called
      once with the level and those same bytes, so a sink that held exactly
      what the hook had been shown still does. The pool stays valid, and its
      idle buffer is one it held before or a new one. */
  twostate predicate Emitted(e: Emitter, pool: BufferPool, tag: Bytes, lvl: Level, message: Bytes,
                             fields: seq<Any>, now: Bytes, panicked: bool)
    reads e, e.output, e.hook, pool, pool.idle
  {
    pool.Valid()
    && (pool.idle == null || pool.idle == old(pool.idle) || fresh(pool.idle))
    && e.output == old(e.output) && e.hook == old(e.hook)
    && e.timeFormat == old(e.timeFormat) && e.context == old(e.context)
    && e.level == old(e.level)
    && (panicked <==> Passes(lvl, e.level) && !IsEven(fields))
    && (!Passes(lvl, e.level) ==> unchanged(pool))
    && (!Passes(lvl, e.level) || panicked ==>
          e.output.written == old(e.output.written)
          && (e.hook != null ==> e.hook.calls == old(e.hook.calls)))
    && (Passes(lvl, e.level) && !panicked ==>
          var doc := Document(e.Time(now), tag, lvl, message, e.context, fields);
          e.output.written == old(e.output.written) + doc
          && (e.hook != null ==> e.hook.calls == old(e.hook.calls) + [(lvl, doc)]))
    && (e.hook != null && old(e.output.written) == Transcript(old(e.hook.calls)) ==>
          e.output.written == Transcript(e.hook.calls))
  }

  /** Every document a recording hook has been shown, in order. */
  function Transcript(calls: seq<(Level, Bytes)>): Bytes {
    if calls == [] then [] else Transcript(calls[..|calls| - 1]) + calls[|calls| - 1].1
  }

  /** One more call shows one more document. */
  lemma TranscriptSnoc(calls: seq<(Level, Bytes)>, call: (Level, Bytes))
    ensures Transcript(calls + [call]) == Transcript(calls) + call.1
  {
    assert (calls + [call])[..|calls|] == calls;
  }

  /** `SetLevel`: parse `name` and make the result the minimum level of the
      default emitter, changing nothing else. */
  method SetLevel(default: Emitter, name: Bytes)
    modifies default`level
    ensures default.level == Parse(name)
  {
    default.level := Parse(name);
  }
}
