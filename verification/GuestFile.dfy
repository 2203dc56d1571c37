/** A guest file's bytes, and what a write does to them. */
module GuestFiles {
  import opened Types

  /** The byte at `i`; a file reads as zeros past its end and in its holes. */
  function ByteAt(f: seq<byte>, i: nat): byte {
    if i < |f| then f[i] else 0
  }

  /** A write of at least one byte; a gap before it fills with zeros. */
  function WriteAt(f: seq<byte>, off: nat, data: seq<byte>): seq<byte> {
    if data == [] then f
    else seq(Max(|f|, off + |data|),
             i requires 0 <= i => if off <= i < off + |data| then data[i - off] else ByteAt(f, i))
  }

  lemma WriteAtIs(f: seq<byte>, off: nat, data: seq<byte>)
    requires data != []
    ensures |WriteAt(f, off, data)| == Max(|f|, off + |data|)
    ensures forall i: nat ::
              ByteAt(WriteAt(f, off, data), i) == if off <= i < off + |data| then data[i - off] else ByteAt(f, i)
  {}

  lemma SameFile(f: seq<byte>, g: seq<byte>)
    requires |f| == |g| && forall i: nat :: i < |f| ==> ByteAt(f, i) == ByteAt(g, i)
    ensures f == g
  {
    forall i | 0 <= i < |f| ensures f[i] == g[i] { assert ByteAt(f, i) == ByteAt(g, i); }
  }
}
