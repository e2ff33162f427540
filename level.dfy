/** The severity enumeration of level.go.

    `Level` is a byte in the source, so values past `Fatal` exist (a cast, or a
    field set by hand); they order above `Fatal` and have no name. */
module Levels {
  import opened Bytes

  newtype Level = x: int | 0 <= x < 0x100

  const Trace: Level := 0
  const Info: Level := 1
  const Warn: Level := 2
  const Error: Level := 3
  const Fatal: Level := 4

  /** One of the five declared levels. */
  predicate IsDeclared(l: Level) {
    l <= Fatal
  }

  /** The gate of Emit: a call at `level` passes an emitter whose minimum is
      `minimum` unless it ranks strictly below it. */
  predicate Passes(level: Level, minimum: Level) {
    !(level < minimum)
  }

  /** `Level.String`: the lowercase label written in the `level` field. */
  function Name(l: Level): (r: Bytes)
    ensures r == [] <==> !IsDeclared(l)
  {
    if l == Trace then Ascii("debug")
    else if l == Info then Ascii("info")
    else if l == Warn then Ascii("warn")
    else if l == Error then Ascii("error")
    else if l == Fatal then Ascii("fatal")
    else []
  }

  /** ASCII lowercasing of one byte. */
  function LowerByte(b: byte): byte {
    if 0x41 <= b <= 0x5A then b + 0x20 else b
  }

  /** ASCII lowercasing of a byte string (the comparison of SetLevel). */
  function ToLower(s: Bytes): (r: Bytes)
    ensures |r| == |s|
  {
    seq(|s|, i requires 0 <= i < |s| => LowerByte(s[i]))
  }

  /** The switch of SetLevel, as a pure parse: never fails, and every input it
      does not recognise (the empty string included) reads as Info. */
  function Parse(s: Bytes): (l: Level)
    ensures IsDeclared(l)
  {
    var t := ToLower(s);
    if t == Ascii("trace") || t == Ascii("debug") then Trace
    else if t == Ascii("warn") then Warn
    else if t == Ascii("error") then Error
    else if t == Ascii("fatal") then Fatal
    else Info
  }

  // ---------------------------------------------------------------------------
  // Properties

  /** The gate is monotone: raising the call's level or lowering the minimum
      never turns a passing call into a suppressed one. */
  lemma PassesMonotone(level: Level, level': Level, minimum: Level, minimum': Level)
    requires Passes(level, minimum) && level <= level' && minimum' <= minimum
    ensures Passes(level', minimum')
  {
  }

  /** The five names are distinct and non-empty. */
  lemma NameInjective(l: Level, m: Level)
    requires IsDeclared(l) && IsDeclared(m) && Name(l) == Name(m)
    ensures l == m && Name(l) != []
  {
    NamesDistinct();
  }

  /** The five spellings the parse recognises are pairwise distinct. */
  lemma NamesDistinct()
    ensures Ascii("trace") != Ascii("debug")
    ensures Ascii("warn") !in {Ascii("trace"), Ascii("debug"), Ascii("info")}
    ensures Ascii("error") !in {Ascii("trace"), Ascii("debug"), Ascii("warn"), Ascii("info")}
    ensures Ascii("fatal") !in {Ascii("trace"), Ascii("debug"), Ascii("warn"), Ascii("error"), Ascii("info")}
    ensures Ascii("info") !in {Ascii("trace"), Ascii("debug")}
  {
    assert Ascii("trace")[0] != Ascii("debug")[0];
    assert Ascii("warn")[0] != Ascii("info")[0];
    assert Ascii("error")[0] != Ascii("trace")[0] && Ascii("error")[0] != Ascii("debug")[0];
    assert Ascii("fatal")[0] != Ascii("trace")[0] && Ascii("fatal")[0] != Ascii("debug")[0];
    assert Ascii("fatal")[0] != Ascii("error")[0];
  }

  /** Lowercasing leaves an already lowercase ASCII name unchanged. */
  lemma ToLowerOfLower(s: string)
    requires forall i | 0 <= i < |s| :: 'a' <= s[i] <= 'z'
    ensures ToLower(Ascii(s)) == Ascii(s)
  {
    var a := Ascii(s);
    forall i | 0 <= i < |a|
      ensures ToLower(a)[i] == a[i]
    {
      assert !(0x41 <= a[i] <= 0x5A);
    }
  }

  /** Parsing a declared level's name gives the level back. */
  lemma ParseName(l: Level)
    requires IsDeclared(l)
    ensures Parse(Name(l)) == l
  {
    NamesDistinct();
    if l == Trace {
      ToLowerOfLower("debug");
    } else if l == Info {
      ToLowerOfLower("info");
    } else if l == Warn {
      ToLowerOfLower("warn");
    } else if l == Error {
      ToLowerOfLower("error");
    } else {
      ToLowerOfLower("fatal");
    }
  }

  /** Parsing ignores ASCII case: two inputs that agree once lowercased parse alike. */
  lemma ParseIgnoresCase(s: Bytes, t: Bytes)
    requires ToLower(s) == ToLower(t)
    ensures Parse(s) == Parse(t)
  {
  }

  /** The recognised spellings, in any case, and the default. */
  lemma ParseCases(s: Bytes)
    ensures Parse(s) == Trace <==> ToLower(s) == Ascii("trace") || ToLower(s) == Ascii("debug")
    ensures Parse(s) == Warn <==> ToLower(s) == Ascii("warn")
    ensures Parse(s) == Error <==> ToLower(s) == Ascii("error")
    ensures Parse(s) == Fatal <==> ToLower(s) == Ascii("fatal")
    ensures Parse(s) == Info <==> ToLower(s) !in {Ascii("trace"), Ascii("debug"), Ascii("warn"), Ascii("error"), Ascii("fatal")}
  {
    NamesDistinct();
  }

  /** The table of TestLevel: each lowercase name, and the empty string. */
  lemma ParseExamples()
    ensures Parse(Ascii("trace")) == Trace && Parse(Ascii("info")) == Info
    ensures Parse(Ascii("error")) == Error && Parse(Ascii("warn")) == Warn
    ensures Parse(Ascii("fatal")) == Fatal && Parse([]) == Info
  {
    ToLowerOfLower("trace");
    ParseName(Info);
    ParseName(Warn);
    ParseName(Error);
    ParseName(Fatal);
  }

  /** Upper-case and mixed-case spellings parse like the lowercase ones. */
  lemma ParseUpperCase()
    ensures Parse(Ascii("DEBUG")) == Trace && Parse(Ascii("Warn")) == Warn
  {
    var d, w := Ascii("DEBUG"), Ascii("Warn");
    forall i | 0 <= i < 5 ensures ToLower(d)[i] == Ascii("debug")[i] { }
    forall i | 0 <= i < 4 ensures ToLower(w)[i] == Ascii("warn")[i] { }
    assert ToLower(d) == Ascii("debug");
    assert ToLower(w) == Ascii("warn");
    NamesDistinct();
  }
}
