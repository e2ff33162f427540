/** The string escaping of `writeJSONString` (emitter.go), as functions on bytes.

    The encoder works byte by byte and rewrites exactly seven bytes: the quote,
    the backslash, and the five control bytes that JSON gives a one-letter escape
    (backspace, form feed, newline, carriage return, tab). Every other byte,
    UTF-8 lead and continuation bytes included, is copied unchanged. This is a
    subset of the escapes of section 7 of RFC 8259: the remaining control bytes
    0x00-0x1F are copied raw, which that section does not allow inside a string
    (`EscapeIsJsonIff` states exactly when the output is a valid string body). */
module Escaping {
  import opened Bytes

  /** The seven bytes the encoder rewrites. */
  predicate IsSpecial(b: byte) {
    b == QUOTE || b == BACKSLASH || b == BACKSPACE || b == FORMFEED
    || b == NEWLINE || b == RETURN || b == TAB
  }

  /** A control byte that JSON requires escaped but the encoder copies raw. */
  predicate IsRawControl(b: byte) {
    b < 0x20 && !IsSpecial(b)
  }

  /** The letter that follows the backslash in the escape of a special byte. */
  function Letter(b: byte): byte
    requires IsSpecial(b)
  {
    if b == BACKSPACE then LETTER_B
    else if b == FORMFEED then LETTER_F
    else if b == NEWLINE then LETTER_N
    else if b == RETURN then LETTER_R
    else if b == TAB then LETTER_T
    else b  // the quote and the backslash stand for themselves
  }

  /** The byte that the two-byte escape backslash-`c` denotes in a JSON string
      (section 7 of RFC 8259), for every escape except the six-byte `\uXXXX`. */
  function Unletter(c: byte): (r: Option<byte>)
    ensures r.Some? ==> IsSpecial(r.value) || r.value == SLASH
  {
    if c == QUOTE || c == BACKSLASH || c == SLASH then Some(c)
    else if c == LETTER_B then Some(BACKSPACE)
    else if c == LETTER_F then Some(FORMFEED)
    else if c == LETTER_N then Some(NEWLINE)
    else if c == LETTER_R then Some(RETURN)
    else if c == LETTER_T then Some(TAB)
    else None
  }

  /** What the encoder appends for one input byte. */
  function EscapeByte(b: byte): Bytes {
    if IsSpecial(b) then [BACKSLASH, Letter(b)] else [b]
  }

  /** The bytes between the quotes that writeJSONString produces for `s`. */
  function Escape(s: Bytes): Bytes {
    if s == [] then [] else EscapeByte(s[0]) + Escape(s[1..])
  }

  /** `s` enclosed in quotes, escaped: the whole output of writeJSONString. */
  function Quoted(s: Bytes): Bytes {
    [QUOTE] + Escape(s) + [QUOTE]
  }

  /** The number of special bytes in `s`. */
  function CountSpecial(s: Bytes): nat {
    if s == [] then 0 else (if IsSpecial(s[0]) then 1 else 0) + CountSpecial(s[1..])
  }

  /** The decoder of a JSON string body restricted to what the encoder needs:
      undoes every two-byte escape, and fails on a raw special byte, a lone
      trailing backslash, an unknown escape letter and `\u`. */
  function Unescape(e: Bytes): Option<Bytes>
    decreases |e|
  {
    if e == [] then Some([])
    else if e[0] == BACKSLASH then
      if |e| < 2 || Unletter(e[1]).None? then None
      else match Unescape(e[2..])
        case None => None
        case Some(rest) => Some([Unletter(e[1]).value] + rest)
    else if IsSpecial(e[0]) then None
    else match Unescape(e[1..])
      case None => None
      case Some(rest) => Some([e[0]] + rest)
  }

  /** The shape promised of the escaped text: it holds no raw quote, newline,
      carriage return, tab, backspace or form feed, and each backslash begins a
      two-byte escape. */
  predicate WellEscaped(e: Bytes)
    decreases |e|
  {
    if e == [] then true
    else if e[0] == BACKSLASH then |e| >= 2 && Unletter(e[1]).Some? && WellEscaped(e[2..])
    else !IsSpecial(e[0]) && WellEscaped(e[1..])
  }

  predicate IsHexDigit(b: byte) {
    0x30 <= b <= 0x39 || 0x41 <= b <= 0x46 || 0x61 <= b <= 0x66
  }

  /** The characters allowed between the quotes of a JSON string by section 7 of
      RFC 8259, read byte by byte: any byte from 0x20 up except the quote and
      the backslash, or an escape (two-byte, or `\u` with four hex digits).
      Bytes from 0x80 up are all accepted: that the text is well-formed UTF-8
      (section 8.1) is not checked. */
  predicate IsJsonStringBody(e: Bytes)
    decreases |e|
  {
    if e == [] then true
    else if e[0] == BACKSLASH then
      (|e| >= 2 && Unletter(e[1]).Some? && IsJsonStringBody(e[2..]))
      || (|e| >= 6 && e[1] == LETTER_U && IsHexDigit(e[2]) && IsHexDigit(e[3])
          && IsHexDigit(e[4]) && IsHexDigit(e[5]) && IsJsonStringBody(e[6..]))
    else 0x20 <= e[0] && e[0] != QUOTE && IsJsonStringBody(e[1..])
  }

  // ---------------------------------------------------------------------------
  // Properties of the escaping

  /** Escaping works byte by byte, so it distributes over concatenation; this is
      what lets the encoder's loop append one byte's escape at a time. */
  lemma {:induction false} EscapeAppend(a: Bytes, b: Bytes)
    ensures Escape(a + b) == Escape(a) + Escape(b)
  {
    if a == [] {
      assert a + b == b;
    } else {
      assert (a + b)[1..] == a[1..] + b;
      EscapeAppend(a[1..], b);
    }
  }

  /** The escape of a prefix one byte longer adds that byte's escape. */
  lemma EscapeSnoc(s: Bytes, i: nat)
    requires i < |s|
    ensures Escape(s[..i + 1]) == Escape(s[..i]) + EscapeByte(s[i])
  {
    assert s[..i + 1] == s[..i] + [s[i]];
    EscapeAppend(s[..i], [s[i]]);
    assert Escape([s[i]]) == EscapeByte(s[i]) + Escape([]);
  }

  /** Each special byte adds exactly one byte (its backslash) to the output. */
  lemma {:induction false} EscapeLength(s: Bytes)
    ensures |Escape(s)| == |s| + CountSpecial(s)
  {
    if s != [] {
      EscapeLength(s[1..]);
    }
  }

  /** A special byte anywhere in `s` is counted. */
  lemma {:induction false} CountSpecialPositive(s: Bytes, i: nat)
    requires i < |s| && IsSpecial(s[i])
    ensures CountSpecial(s) > 0
  {
    if i > 0 {
      CountSpecialPositive(s[1..], i - 1);
    }
  }

  /** Text with no special byte, such as any UTF-8 text without quotes,
      backslashes or those five control bytes, is copied unchanged. */
  lemma {:induction false} EscapeIdentity(s: Bytes)
    requires forall i | 0 <= i < |s| :: !IsSpecial(s[i])
    ensures Escape(s) == s
  {
    if s != [] {
      assert !IsSpecial(s[0]);
      EscapeIdentity(s[1..]);
      assert [s[0]] + s[1..] == s;
    }
  }

  /** Decoding the escaped text gives the original bytes back. */
  lemma {:induction false} EscapeRoundTrip(s: Bytes)
    ensures Unescape(Escape(s)) == Some(s)
  {
    if s != [] {
      var e := Escape(s);
      var rest := Escape(s[1..]);
      EscapeRoundTrip(s[1..]);
      if IsSpecial(s[0]) {
        assert e == [BACKSLASH, Letter(s[0])] + rest;
        assert e[2..] == rest;
      } else {
        assert e == [s[0]] + rest;
        assert e[1..] == rest;
      }
      assert [s[0]] + s[1..] == s;
    }
  }

  /** Distinct inputs never escape to the same bytes. */
  lemma EscapeInjective(s: Bytes, t: Bytes)
    requires Escape(s) == Escape(t)
    ensures s == t
  {
    EscapeRoundTrip(s);
    EscapeRoundTrip(t);
  }

  /** The escaped text always has the promised shape. */
  lemma {:induction false} EscapeWellEscaped(s: Bytes)
    ensures WellEscaped(Escape(s))
  {
    if s != [] {
      var e := Escape(s);
      var rest := Escape(s[1..]);
      EscapeWellEscaped(s[1..]);
      if IsSpecial(s[0]) {
        assert e == [BACKSLASH, Letter(s[0])] + rest;
        assert e[2..] == rest;
      } else {
        assert e == [s[0]] + rest;
        assert e[1..] == rest;
      }
    }
  }

  /** The escaped text is a valid JSON string body exactly when the input holds
      none of the control bytes the encoder leaves raw. */
  lemma {:induction false} EscapeIsJsonIff(s: Bytes)
    ensures IsJsonStringBody(Escape(s)) <==> forall i | 0 <= i < |s| :: !IsRawControl(s[i])
  {
    if s != [] {
      var e := Escape(s);
      var rest := Escape(s[1..]);
      EscapeIsJsonIff(s[1..]);
      if IsSpecial(s[0]) {
        assert e == [BACKSLASH, Letter(s[0])] + rest;
        assert e[2..] == rest;
        assert Letter(s[0]) != LETTER_U;
      } else {
        assert e == [s[0]] + rest;
        assert e[1..] == rest;
      }
      assert (forall i | 0 <= i < |s| :: !IsRawControl(s[i]))
        <==> !IsRawControl(s[0]) && forall i | 0 <= i < |s[1..]| :: !IsRawControl(s[1..][i]);
    }
  }
}
