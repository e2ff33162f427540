/** The byte containers the emitter writes into: Go's growable `bytes.Buffer`
    and the `io.Writer` sink, reduced to the operations the emitter uses. */
module Io {
  import opened Bytes

  /** A growable byte buffer (`bytes.Buffer`). */
  class Buffer {
    var bytes: Bytes

    constructor ()
      ensures bytes == []
    {
      bytes := [];
    }

    /** `WriteByte`: append one byte. */
    method WriteByte(b: byte)
      modifies this
      ensures bytes == old(bytes) + [b]
    {
      bytes := bytes + [b];
    }

    /** `Write` and `WriteString`: append a byte string. */
    method Write(p: Bytes)
      modifies this
      ensures bytes == old(bytes) + p
    {
      bytes := bytes + p;
    }

    /** `WriteTo`: hand the whole unread content to `w` and leave the buffer empty. */
    method WriteTo(w: Sink)
      modifies this, w
      ensures w.written == old(w.written) + old(bytes)
      ensures bytes == []
    {
      w.Write(bytes);
      bytes := [];
    }
  }

  /** A destination for documents (`io.Writer`): everything written to it, in order. */
  class Sink {
    var written: Bytes

    constructor ()
      ensures written == []
    {
      written := [];
    }

    method Write(p: Bytes)
      modifies this
      ensures written == old(written) + p
    {
      written := written + p;
    }
  }
}
