/** Byte strings, the unit everything in the logger is built from.

    Go strings and `[]byte` values are both plain byte sequences; nothing in the
    emission pipeline inspects their encoding, so the model works on `seq<byte>`
    throughout. `Ascii` turns a Dafny string literal into the bytes of its ASCII
    spelling, for the fixed pieces of the wire format. */
module Bytes {

  newtype byte = x: int | 0 <= x < 0x100

  type Bytes = seq<byte>

  datatype Option<+T> = None | Some(value: T)

  // The bytes the encoder treats specially, and the letters of their escapes.
  const QUOTE: byte := 0x22      // "
  const BACKSLASH: byte := 0x5C  // \
  const SLASH: byte := 0x2F      // /
  const BACKSPACE: byte := 0x08
  const TAB: byte := 0x09
  const NEWLINE: byte := 0x0A
  const FORMFEED: byte := 0x0C
  const RETURN: byte := 0x0D
  const LETTER_B: byte := 0x62
  const LETTER_F: byte := 0x66
  const LETTER_N: byte := 0x6E
  const LETTER_R: byte := 0x72
  const LETTER_T: byte := 0x74
  const LETTER_U: byte := 0x75

  // JSON punctuation.
  const OPEN_BRACE: byte := 0x7B   // {
  const CLOSE_BRACE: byte := 0x7D  // }
  const COMMA: byte := 0x2C        // ,
  const COLON: byte := 0x3A        // :

  /** The bytes of an ASCII literal, one byte per character (the low eight
      bits of each character, which is the character itself for ASCII). */
  function Ascii(s: string): (r: Bytes)
    ensures |r| == |s|
  {
    seq(|s|, i requires 0 <= i < |s| => (s[i] as int % 0x100) as byte)
  }

  /** Ascii works character by character. */
  lemma AsciiAppend(s: string, t: string)
    ensures Ascii(s + t) == Ascii(s) + Ascii(t)
  {
  }

  /** Concatenation is associative (stated once, so that proofs about long
      concatenations can regroup them without unfolding what they contain). */
  lemma AppendAssoc(a: Bytes, b: Bytes, c: Bytes)
    ensures (a + b) + c == a + (b + c)
  {
  }
}
