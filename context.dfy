/** Logging contexts (context.go): a tag paired with an emitter whose context
    prefix holds pre-encoded fields. Deriving never changes an existing
    emitter: every derivation builds its prefix in a fresh buffer and returns
    a fresh emitter holding a copy of the parent's configuration. */
module Contexts {
  import opened Bytes
  import opened Fields
  import opened Levels
  import opened Io
  import opened Emitters

  /** `Context`: the tag and the emitter that every wrapper emits through. */
  datatype Context = Context(emitter: Emitter, tag: Bytes) {

    /** `Context.C`: a child whose prefix is this context's prefix followed by
        the encoded `fields`, with the same tag and a snapshot of the same
        configuration. None when `fields` has odd length (the source panics). */
    method C(fields: seq<Any>) returns (child: Option<Context>)
      ensures child.Some? <==> IsEven(fields)
      ensures child.Some? ==>
        var e := child.value.emitter;
        fresh(e) && child.value.tag == tag
        && e.level == emitter.level && e.output == emitter.output
        && e.timeFormat == emitter.timeFormat && e.hook == emitter.hook
        && e.context == emitter.context + Encode(fields)
    {
      var prefix := emitter.context;
      var buf := new Buffer();
      buf.Write(prefix);
      assert buf.bytes == prefix;
      var ok := WriteFields(buf, fields);
      if !ok {
        return None;
      }
      var e := new Emitter.Of(emitter.level, emitter.output, emitter.timeFormat, emitter.hook, buf.bytes);
      return Some(Context(e, tag));
    }

    /** `T`, `I`, `W`, `E`: Emit through the context's emitter with its tag
        and a fixed level. */
    method T(message: Bytes, fields: seq<Any>, now: Bytes, pool: BufferPool) returns (panicked: bool)
      requires pool.Valid()
      modifies emitter.output, emitter.hook, pool, pool.idle
      ensures Emitted(emitter, pool, tag, Trace, message, fields, now, panicked)
    {
      panicked := emitter.Emit(tag, Trace, message, fields, now, pool);
    }

    method I(message: Bytes, fields: seq<Any>, now: Bytes, pool: BufferPool) returns (panicked: bool)
      requires pool.Valid()
      modifies emitter.output, emitter.hook, pool, pool.idle
      ensures Emitted(emitter, pool, tag, Info, message, fields, now, panicked)
    {
      panicked := emitter.Emit(tag, Info, message, fields, now, pool);
    }

    method W(message: Bytes, fields: seq<Any>, now: Bytes, pool: BufferPool) returns (panicked: bool)
      requires pool.Valid()
      modifies emitter.output, emitter.hook, pool, pool.idle
      ensures Emitted(emitter, pool, tag, Warn, message, fields, now, panicked)
    {
      panicked := emitter.Emit(tag, Warn, message, fields, now, pool);
    }

    method E(message: Bytes, fields: seq<Any>, now: Bytes, pool: BufferPool) returns (panicked: bool)
      requires pool.Valid()
      modifies emitter.output, emitter.hook, pool, pool.idle
      ensures Emitted(emitter, pool, tag, Error, message, fields, now, panicked)
    {
      panicked := emitter.Emit(tag, Error, message, fields, now, pool);
    }

    /** `F`: Emit at Fatal, then call the exit action once with status 1. */
    method F(message: Bytes, fields: seq<Any>, now: Bytes, pool: BufferPool, exit: ExitAction)
      returns (panicked: bool)
      requires pool.Valid()
      modifies emitter.output, emitter.hook, pool, pool.idle, exit
      ensures Emitted(emitter, pool, tag, Fatal, message, fields, now, panicked)
      ensures exit.codes == if panicked then old(exit.codes) else old(exit.codes) + [1]
    {
      panicked := emitter.Emit(tag, Fatal, message, fields, now, pool);
      if !panicked {
        exit.Exit(1);
      }
    }
  }

  /** `C`: a root context with tag `tag`, whose prefix is the encoded `fields`
      and whose configuration is a snapshot of the default emitter's. None
      when `fields` has odd length. */
  method C(default: Emitter, tag: Bytes, fields: seq<Any>) returns (c: Option<Context>)
    ensures c.Some? <==> IsEven(fields)
    ensures c.Some? ==>
      var e := c.value.emitter;
      fresh(e) && c.value.tag == tag
      && e.level == default.level && e.output == default.output
      && e.timeFormat == default.timeFormat && e.hook == default.hook
      && e.context == Encode(fields)
  {
    var buf := new Buffer();
    var ok := WriteFields(buf, fields);
    if !ok {
      return None;
    }
    var e := new Emitter.Of(default.level, default.output, default.timeFormat, default.hook, buf.bytes);
    return Some(Context(e, tag));
  }

  // ---------------------------------------------------------------------------
  // Chains of derivations

  predicate AllEven(steps: seq<seq<Any>>) {
    forall i | 0 <= i < |steps| :: IsEven(steps[i])
  }

  /** The prefix of the context reached from a root by deriving with each field
      list of `steps` in turn (the first being the root's own fields): by the
      contracts of `C` and `Context.C`, each step appends its own encoding. */
  function ChainPrefix(steps: seq<seq<Any>>): Bytes
    requires AllEven(steps)
  {
    if steps == [] then [] else ChainPrefix(steps[..|steps| - 1]) + Encode(steps[|steps| - 1])
  }

  /** All the fields of a chain, parent fields before child fields. */
  function Flatten(steps: seq<seq<Any>>): seq<Any> {
    if steps == [] then [] else Flatten(steps[..|steps| - 1]) + steps[|steps| - 1]
  }

  /** The prefix after any chain of derivations is the encoding of all the
      fields bound along it, in binding order: deriving in steps and binding
      everything at once are indistinguishable. */
  lemma {:induction false} ChainPrefixIsEncoding(steps: seq<seq<Any>>)
    requires AllEven(steps)
    ensures IsEven(Flatten(steps))
    ensures ChainPrefix(steps) == Encode(Flatten(steps))
  {
    if steps != [] {
      var init := steps[..|steps| - 1];
      assert AllEven(init) by {
        forall i | 0 <= i < |init| ensures IsEven(init[i]) {
          assert init[i] == steps[i];
        }
      }
      ChainPrefixIsEncoding(init);
      EncodeAppend(Flatten(init), steps[|steps| - 1]);
    }
  }

  /** One more step extends the chain's prefix by that step's encoding. */
  lemma ChainStep(steps: seq<seq<Any>>, fields: seq<Any>)
    requires AllEven(steps) && IsEven(fields)
    ensures AllEven(steps + [fields])
    ensures ChainPrefix(steps + [fields]) == ChainPrefix(steps) + Encode(fields)
  {
    var s := steps + [fields];
    assert s[..|s| - 1] == steps;
  }

  /** Derives from `root` with each field list of `steps` in turn, as in
      `C(...).C(...).C(...)`. The chain succeeds exactly when every list is
      complete; the last context keeps the root's tag and configuration, and
      its prefix is the root's followed by the encoding of all the fields
      bound along the chain, in binding order. */
  method Derive(root: Context, steps: seq<seq<Any>>) returns (last: Option<Context>)
    ensures last.Some? <==> AllEven(steps)
    ensures last.Some? ==>
      var e := last.value.emitter;
      last.value.tag == root.tag
      && e.level == root.emitter.level && e.output == root.emitter.output
      && e.timeFormat == root.emitter.timeFormat && e.hook == root.emitter.hook
      && IsEven(Flatten(steps))
      && e.context == root.emitter.context + Encode(Flatten(steps))
  {
    var c := root;
    var i := 0;
    while i < |steps|
      invariant 0 <= i <= |steps|
      invariant AllEven(steps[..i])
      invariant c.tag == root.tag
      invariant c.emitter.level == root.emitter.level && c.emitter.output == root.emitter.output
      invariant c.emitter.timeFormat == root.emitter.timeFormat && c.emitter.hook == root.emitter.hook
      invariant c.emitter.context == root.emitter.context + ChainPrefix(steps[..i])
    {
      var child := c.C(steps[i]);
      if child.None? {
        return None;
      }
      assert steps[..i + 1] == steps[..i] + [steps[i]];
      ChainStep(steps[..i], steps[i]);
      AppendAssoc(root.emitter.context, ChainPrefix(steps[..i]), Encode(steps[i]));
      c := child.value;
      i := i + 1;
    }
    assert steps[..i] == steps;
    ChainPrefixIsEncoding(steps);
    return Some(c);
  }
}
