/** The key/value encoding of `writeFields` (emitter.go), as functions.

    Go passes fields as a flat `...interface{}` list: key, value, key, value.
    `Any` is the closed set of dynamic values the two type switches tell apart.
    Each variant carries the text the switches would obtain from it; the text
    that `fmt`'s `%v` verb renders is taken as given, not computed. */
module Fields {
  import opened Bytes
  import opened Escaping

  /** A dynamic Go value, by the arm of the type switches that catches it. */
  datatype Any =
    | Str(s: Bytes)                  // string
    | ByteSlice(b: Bytes, v: Bytes)  // []byte; v is its %v rendering ("[104 105]")
    | Stringer(text: Bytes)          // implements fmt.Stringer; text is String()
    | Scalar(v: Bytes)               // exactly bool, int, int8, int16, int32, int64, uint, uint8 (byte),
                                     // uint16, uint32, uint64, float32 or float64; v is its %v rendering
    | Err(text: Bytes)               // implements error but not fmt.Stringer; text is Error()
    | Other(v: Bytes)                // anything else: arrays, maps, nil, uintptr, complex64, complex128,
                                     // and named numeric or boolean types without String(); v is its %v rendering

  /** The text written for a key: a string as is, a Stringer's String(), and
      the %v rendering of anything else (for an error, its Error()). It is
      written without escaping. */
  function KeyText(k: Any): Bytes {
    match k
    case Str(s) => s
    case ByteSlice(_, v) => v
    case Stringer(text) => text
    case Scalar(v) => v
    case Err(text) => text
    case Other(v) => v
  }

  /** The string that a non-scalar value is rendered as before it is quoted. */
  function StringForm(x: Any): Bytes
    requires !x.Scalar?
  {
    match x
    case Str(s) => s
    case ByteSlice(b, _) => b
    case Stringer(text) => text
    case Err(text) => text
    case Other(v) => v
  }

  /** The JSON text written for a value: the thirteen predeclared scalar types
      of the switch bare, the rest (other numeric kinds and named types
      included) as a quoted, escaped string. */
  function ValueJson(x: Any): (r: Bytes)
    ensures x.Scalar? ==> r == x.v
    ensures !x.Scalar? ==>
              |r| >= 2 && r[0] == QUOTE && r[|r| - 1] == QUOTE
              && Unescape(r[1..|r| - 1]) == Some(StringForm(x))
  {
    match x
    case Scalar(v) => v
    case _ =>
      var r := Quoted(StringForm(x));
      EscapeRoundTrip(StringForm(x));
      assert r[1..|r| - 1] == Escape(StringForm(x));
      r
  }

  /** The part of a fragment up to the value: `,"key":`. */
  function KeyPart(k: Any): Bytes {
    [COMMA, QUOTE] + KeyText(k) + [QUOTE, COLON]
  }

  /** The fragment `,"key":value` written for one pair. */
  function Fragment(k: Any, x: Any): Bytes {
    KeyPart(k) + ValueJson(x)
  }

  predicate IsEven(fields: seq<Any>) {
    |fields| % 2 == 0
  }

  /** The bytes writeFields appends for a list of complete pairs. */
  function Encode(fields: seq<Any>): Bytes
    requires IsEven(fields)
    decreases |fields|
  {
    if fields == [] then [] else Fragment(fields[0], fields[1]) + Encode(fields[2..])
  }

  /** The pairs of a flat field list, in order. */
  function Pairs(fields: seq<Any>): (ps: seq<(Any, Any)>)
    requires IsEven(fields)
    ensures |ps| == |fields| / 2
    ensures forall i | 0 <= i < |ps| :: ps[i] == (fields[2 * i], fields[2 * i + 1])
    decreases |fields|
  {
    if fields == [] then [] else [(fields[0], fields[1])] + Pairs(fields[2..])
  }

  /** The concatenation of the fragments of a list of pairs. */
  function Fragments(ps: seq<(Any, Any)>): Bytes {
    if ps == [] then [] else Fragment(ps[0].0, ps[0].1) + Fragments(ps[1..])
  }

  // ---------------------------------------------------------------------------
  // Properties

  /** Encoding emits one fragment per pair, in input order. */
  lemma {:induction false} EncodeIsFragments(fields: seq<Any>)
    requires IsEven(fields)
    ensures Encode(fields) == Fragments(Pairs(fields))
    decreases |fields|
  {
    if fields != [] {
      EncodeIsFragments(fields[2..]);
      assert Pairs(fields)[1..] == Pairs(fields[2..]);
    }
  }

  /** The fields of a concatenated list encode to the concatenation of the
      separate encodings; this is what makes context prefixes compose. */
  lemma {:induction false} EncodeAppend(a: seq<Any>, b: seq<Any>)
    requires IsEven(a) && IsEven(b)
    ensures IsEven(a + b)
    ensures Encode(a + b) == Encode(a) + Encode(b)
    decreases |a|
  {
    if a == [] {
      assert a + b == b;
    } else {
      var ab := a + b;
      assert |ab| == |a| + |b|;
      assert IsEven(ab);
      assert ab[0] == a[0] && ab[1] == a[1] && ab[2..] == a[2..] + b;
      EncodeAppend(a[2..], b);
    }
  }

  /** Encoding one more pair appends that pair's fragment. */
  lemma EncodeSnoc(fields: seq<Any>, i: nat)
    requires i + 2 <= |fields| && i % 2 == 0
    ensures IsEven(fields[..i]) && IsEven(fields[..i + 2])
    ensures Encode(fields[..i + 2]) == Encode(fields[..i]) + Fragment(fields[i], fields[i + 1])
  {
    var pair := [fields[i], fields[i + 1]];
    assert |fields[..i]| == i;
    assert fields[..i + 2] == fields[..i] + pair;
    EncodeAppend(fields[..i], pair);
    assert pair[2..] == [];
  }

  /** The loop step of writeFields: after the encoding of the first `i`
      fields, writing the next key part and value gives the encoding of the
      first `i + 2`. */
  lemma EncodeStep(base: Bytes, fields: seq<Any>, i: nat)
    requires i + 2 <= |fields| && i % 2 == 0
    ensures IsEven(fields[..i]) && IsEven(fields[..i + 2])
    ensures base + Encode(fields[..i]) + KeyPart(fields[i]) + ValueJson(fields[i + 1])
            == base + Encode(fields[..i + 2])
  {
    EncodeSnoc(fields, i);
    var e, k, v := Encode(fields[..i]), KeyPart(fields[i]), ValueJson(fields[i + 1]);
    AppendAssoc(base + e, k, v);
    AppendAssoc(base, e, k + v);
  }

  /** Keys are written as they are, not escaped: a string key holding a byte
      that the value encoder would escape yields a key part different from
      its escaped form. */
  lemma KeyUnescaped(s: Bytes, i: nat)
    requires i < |s| && IsSpecial(s[i])
    ensures KeyPart(Str(s)) != [COMMA, QUOTE] + Escape(s) + [QUOTE, COLON]
  {
    CountSpecialPositive(s, i);
    EscapeLength(s);
  }
}
