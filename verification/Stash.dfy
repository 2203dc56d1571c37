/** Assembling whole chunks from the writes kept aside: which chunks are fully written, and their bytes. */
module Stashes {
  import opened CachedReads
  import opened GuestFiles
  import opened Types

  datatype Kept = Kept(off: nat, data: seq<byte>)

  function EndOf(w: Kept): nat {
    w.off + |w.data|
  }

  predicate Covers(w: Kept, i: nat) {
    w.off <= i < EndOf(w)
  }

  ghost predicate Written(stash: seq<Kept>, i: nat) {
    exists k :: 0 <= k < |stash| && Covers(stash[k], i)
  }

  /** The byte at `i` after the writes in order; zero where nothing was written. */
  function Overlay(stash: seq<Kept>, i: nat): byte
    decreases |stash|
  {
    if stash == [] then 0
    else
      var w := stash[|stash| - 1];
      if Covers(w, i) then w.data[i - w.off] else Overlay(stash[..|stash| - 1], i)
  }

  ghost predicate Disjoint(stash: seq<Kept>) {
    forall j, k, i: nat :: 0 <= j < k < |stash| && Covers(stash[j], i) ==> !Covers(stash[k], i)
  }

  // ---- counting covered bytes ---------------------------------------------------------------------

  /** Bytes of [lo, hi) that one write covers. */
  function Overlap(w: Kept, lo: nat, hi: nat): nat
    requires lo <= hi
  {
    if EndOf(w) <= lo || w.off >= hi then 0 else Min(EndOf(w), hi) - Max(w.off, lo)
  }

  function Covered(stash: seq<Kept>, lo: nat, hi: nat): nat
    requires lo <= hi
    decreases |stash|
  {
    if stash == [] then 0 else Covered(stash[..|stash| - 1], lo, hi) + Overlap(stash[|stash| - 1], lo, hi)
  }

  // ---- the writes, byte by byte ---------------------------------------------------------------------

  /** How many writes cover byte `i`. */
  function Times(stash: seq<Kept>, i: nat): nat
    decreases |stash|
  {
    if stash == [] then 0 else Times(stash[..|stash| - 1], i) + if Covers(stash[|stash| - 1], i) then 1 else 0
  }

  /** Bytes of [lo, hi) that no write covers. */
  function Holes(stash: seq<Kept>, lo: nat, hi: nat): nat
    requires lo <= hi
    decreases hi
  {
    if lo == hi then 0 else Holes(stash, lo, hi - 1) + if Times(stash, hi - 1) == 0 then 1 else 0
  }

  /** For each byte of [lo, hi), the writes that cover it beyond the first. */
  function Repeats(stash: seq<Kept>, lo: nat, hi: nat): nat
    requires lo <= hi
    decreases hi
  {
    if lo == hi then 0
    else Repeats(stash, lo, hi - 1) + if Times(stash, hi - 1) == 0 then 0 else Times(stash, hi - 1) - 1
  }

  lemma {:induction false} WrittenIsTimes(stash: seq<Kept>, i: nat)
    ensures Written(stash, i) <==> Times(stash, i) > 0
    decreases |stash|
  {
    if stash != [] {
      var init := stash[..|stash| - 1];
      WrittenIsTimes(init, i);
      if Covers(stash[|stash| - 1], i) { assert Written(stash, i); }
      if k :| 0 <= k < |init| && Covers(init[k], i) { assert Covers(stash[k], i); }
      if k :| 0 <= k < |stash| && Covers(stash[k], i) {
        if k < |init| { assert Covers(init[k], i); }
      }
    }
  }

  /** Covering writes, added up byte by byte. */
  function TimesOver(stash: seq<Kept>, lo: nat, hi: nat): nat
    requires lo <= hi
    decreases hi
  {
    if lo == hi then 0 else TimesOver(stash, lo, hi - 1) + Times(stash, hi - 1)
  }

  /** One more write adds exactly its overlap. */
  lemma {:induction false} TimesOverSnoc(stash: seq<Kept>, lo: nat, hi: nat)
    requires lo <= hi && stash != []
    ensures TimesOver(stash, lo, hi) == TimesOver(stash[..|stash| - 1], lo, hi) + Overlap(stash[|stash| - 1], lo, hi)
    decreases hi
  {
    if lo < hi { TimesOverSnoc(stash, lo, hi - 1); }
  }

  lemma {:induction false} TimesOverNothing(lo: nat, hi: nat)
    requires lo <= hi
    ensures TimesOver([], lo, hi) == 0
    decreases hi
  {
    if lo < hi { TimesOverNothing(lo, hi - 1); }
  }

  /** The count kept write by write is the count taken byte by byte. */
  lemma {:induction false} CoveredIsTimes(stash: seq<Kept>, lo: nat, hi: nat)
    requires lo <= hi
    ensures Covered(stash, lo, hi) == TimesOver(stash, lo, hi)
    decreases |stash|
  {
    if stash == [] {
      TimesOverNothing(lo, hi);
    } else {
      CoveredIsTimes(stash[..|stash| - 1], lo, hi);
      TimesOverSnoc(stash, lo, hi);
    }
  }

  lemma {:induction false} TimesSplit(stash: seq<Kept>, lo: nat, hi: nat)
    requires lo <= hi
    ensures TimesOver(stash, lo, hi) + Holes(stash, lo, hi) == hi - lo + Repeats(stash, lo, hi)
    decreases hi
  {
    if lo < hi { TimesSplit(stash, lo, hi - 1); }
  }

  /** Whatever the writes, the count misses the holes and adds the repeats. */
  lemma CoveredBalance(stash: seq<Kept>, lo: nat, hi: nat)
    requires lo <= hi
    ensures Covered(stash, lo, hi) + Holes(stash, lo, hi) == hi - lo + Repeats(stash, lo, hi)
  {
    CoveredIsTimes(stash, lo, hi);
    TimesSplit(stash, lo, hi);
  }

  /** No holes means every byte was written. */
  lemma {:induction false} NoHolesIffWritten(stash: seq<Kept>, lo: nat, hi: nat)
    requires lo <= hi
    ensures Holes(stash, lo, hi) == 0 <==> forall i: nat :: lo <= i < hi ==> Written(stash, i)
    decreases hi
  {
    hide Written;
    if lo < hi {
      NoHolesIffWritten(stash, lo, hi - 1);
      WrittenIsTimes(stash, hi - 1);
    }
  }

  /** No repeats means no byte was written twice. */
  lemma {:induction false} NoRepeatsIffOnce(stash: seq<Kept>, lo: nat, hi: nat)
    requires lo <= hi
    ensures Repeats(stash, lo, hi) == 0 <==> forall i: nat :: lo <= i < hi ==> Times(stash, i) <= 1
    decreases hi
  {
    if lo < hi {
      NoRepeatsIffOnce(stash, lo, hi - 1);
      assert Times(stash, hi - 1) <= 1 || exists i: nat :: lo <= i < hi && Times(stash, i) > 1;
    }
  }

  lemma {:induction false} DisjointOnce(stash: seq<Kept>, i: nat)
    requires Disjoint(stash)
    ensures Times(stash, i) <= 1
    decreases |stash|
  {
    if stash != [] {
      var init := stash[..|stash| - 1];
      forall j, k, i: nat | 0 <= j < k < |init| && Covers(init[j], i) ensures !Covers(init[k], i) {
        assert Covers(stash[j], i);
      }
      DisjointOnce(init, i);
      if Times(init, i) > 0 {
        WrittenIsTimes(init, i);
        var j :| 0 <= j < |init| && Covers(init[j], i);
        assert Covers(stash[j], i);
      }
    }
  }

  /** Disjoint writes repeat nothing. */
  lemma DisjointNeverRepeats(stash: seq<Kept>, lo: nat, hi: nat)
    requires Disjoint(stash) && lo <= hi
    ensures Repeats(stash, lo, hi) == 0
  {
    forall i: nat ensures Times(stash, i) <= 1 { DisjointOnce(stash, i); }
    NoRepeatsIffOnce(stash, lo, hi);
  }

  // ---- assembling ------------------------------------------------------------------------------------

  function MaxEnd(stash: seq<Kept>): nat
    decreases |stash|
  {
    if stash == [] then 0 else Max(MaxEnd(stash[..|stash| - 1]), EndOf(stash[|stash| - 1]))
  }

  lemma {:induction false} WrittenBelowEnd(stash: seq<Kept>, i: nat)
    requires Written(stash, i)
    ensures i < MaxEnd(stash)
    decreases |stash|
  {
    var init := stash[..|stash| - 1];
    WrittenIsTimes(stash, i);
    WrittenIsTimes(init, i);
    if !Covers(stash[|stash| - 1], i) { WrittenBelowEnd(init, i); }
  }

  method LargestEnd(stash: seq<Kept>) returns (end: nat)
    ensures end == MaxEnd(stash)
  {
    end := 0;
    var k := 0;
    while k < |stash|
      invariant 0 <= k <= |stash| && end == MaxEnd(stash[..k])
    {
      assert stash[..k + 1][..k] == stash[..k];
      end := Max(end, EndOf(stash[k]));
      k := k + 1;
    }
    assert stash[..k] == stash;
  }

  /** One chunk: every write that meets it is copied into the buffer, and counted. */
  method Assemble(stash: seq<Kept>, lo: nat, len: nat) returns (bytes: seq<byte>, covered: nat)
    ensures |bytes| == len && forall i :: 0 <= i < len ==> bytes[i] == Overlay(stash, lo + i)
    ensures covered == Covered(stash, lo, lo + len)
  {
    var buf := new byte[len](_ => 0);
    covered := 0;
    var hi, k := lo + len, 0;
    while k < |stash|
      invariant 0 <= k <= |stash| && covered == Covered(stash[..k], lo, hi)
      invariant forall i :: 0 <= i < len ==> buf[i] == Overlay(stash[..k], lo + i)
    {
      assert stash[..k + 1][..k] == stash[..k];
      var w := stash[k];
      if EndOf(w) > lo && w.off < hi {
        var s, e := Max(w.off, lo), Min(EndOf(w), hi);
        forall i | s - lo <= i < e - lo { buf[i] := w.data[lo + i - w.off]; }
        covered := covered + (e - s);
      }
      k := k + 1;
    }
    assert stash[..k] == stash;
    bytes := buf[..];
  }

  /** The bytes chunk `c` must have; without a known size only whole chunks count. */
  function ChunkLen(size: Option<nat>, c: nat): nat {
    match size
    case None => CAS_CHUNK
    case Some(z) => if c * CAS_CHUNK < z then Min(CAS_CHUNK, z - c * CAS_CHUNK) else 0
  }

  ghost predicate FullyWritten(stash: seq<Kept>, size: Option<nat>, c: nat) {
    && ChunkLen(size, c) > 0
    && forall i: nat :: c * CAS_CHUNK <= i < c * CAS_CHUNK + ChunkLen(size, c) ==> Written(stash, i)
  }

  datatype Chunk = Chunk(c: nat, bytes: seq<byte>)

  ghost predicate ChunkRight(stash: seq<Kept>, size: Option<nat>, chunk: Chunk) {
    && |chunk.bytes| == ChunkLen(size, chunk.c)
    && forall i :: 0 <= i < |chunk.bytes| ==> chunk.bytes[i] == Overlay(stash, chunk.c * CAS_CHUNK + i)
  }

  ghost predicate Has(out: seq<Chunk>, c: nat) {
    exists k :: 0 <= k < |out| && out[k].c == c
  }

  function ChunksUpTo(end: nat): nat {
    (end + CAS_CHUNK - 1) / CAS_CHUNK
  }

  /** How far the chunks are looked at. */
  function Reach(stash: seq<Kept>, size: Option<nat>): nat {
    match size
    case None => MaxEnd(stash)
    case Some(z) => Min(z, MaxEnd(stash))
  }

  /** A chunk that is looked at at all. */
  predicate LookedAt(stash: seq<Kept>, size: Option<nat>, c: nat) {
    c < ChunksUpTo(Reach(stash, size)) && (size.None? ==> c * CAS_CHUNK + CAS_CHUNK <= MaxEnd(stash))
  }

  /** The tally that decides: as many bytes counted as the chunk is long. */
  predicate Tallies(stash: seq<Kept>, size: Option<nat>, c: nat) {
    LookedAt(stash, size, c) && Covered(stash, c * CAS_CHUNK, c * CAS_CHUNK + ChunkLen(size, c)) == ChunkLen(size, c)
  }

  /** A chunk fully written is looked at. */
  lemma WrittenIsLookedAt(stash: seq<Kept>, size: Option<nat>, c: nat)
    requires FullyWritten(stash, size, c)
    ensures LookedAt(stash, size, c)
  {
    hide Written, MaxEnd;
    var lo, len := c * CAS_CHUNK, ChunkLen(size, c);
    WrittenBelowEnd(stash, lo);
    WrittenBelowEnd(stash, lo + len - 1);
  }

  /** Exactly when a chunk is produced although bytes of it are missing: the holes are made up for by as many
      repeats. */
  lemma ProducedWithHolesIff(stash: seq<Kept>, size: Option<nat>, c: nat)
    ensures var lo, hi := c * CAS_CHUNK, c * CAS_CHUNK + ChunkLen(size, c);
            (Tallies(stash, size, c) && !FullyWritten(stash, size, c)) <==>
            (LookedAt(stash, size, c) && Holes(stash, lo, hi) == Repeats(stash, lo, hi) > 0)
  {
    hide Covered, Written, MaxEnd, Holes, Repeats;
    var lo, hi := c * CAS_CHUNK, c * CAS_CHUNK + ChunkLen(size, c);
    CoveredBalance(stash, lo, hi);
    NoHolesIffWritten(stash, lo, hi);
  }

  /** Exactly when a chunk is withheld although every byte of it was written: some byte was written twice. */
  lemma WithheldThoughWrittenIff(stash: seq<Kept>, size: Option<nat>, c: nat)
    ensures var lo, hi := c * CAS_CHUNK, c * CAS_CHUNK + ChunkLen(size, c);
            (FullyWritten(stash, size, c) && !Tallies(stash, size, c)) <==>
            (ChunkLen(size, c) > 0 && Holes(stash, lo, hi) == 0 && Repeats(stash, lo, hi) > 0)
  {
    hide Covered, Written, MaxEnd, Holes, Repeats, LookedAt;
    var lo, hi := c * CAS_CHUNK, c * CAS_CHUNK + ChunkLen(size, c);
    CoveredBalance(stash, lo, hi);
    NoHolesIffWritten(stash, lo, hi);
    if FullyWritten(stash, size, c) { WrittenIsLookedAt(stash, size, c); }
  }

  /** So for disjoint writes the tally is right: a chunk is produced if and only if all of it was written. */
  lemma TallyIffWritten(stash: seq<Kept>, size: Option<nat>, c: nat)
    requires Disjoint(stash)
    ensures Tallies(stash, size, c) <==> FullyWritten(stash, size, c)
  {
    hide Tallies, FullyWritten, Holes, Repeats;
    DisjointNeverRepeats(stash, c * CAS_CHUNK, c * CAS_CHUNK + ChunkLen(size, c));
    ProducedWithHolesIff(stash, size, c);
    WithheldThoughWrittenIff(stash, size, c);
  }

  /** Both happen.  One byte written twice makes up for one missing; and of a file of one byte it withholds the
      only chunk. */
  lemma OverlapMiscounts()
    ensures var stash := [Kept(0, [7]), Kept(0, [7])];
            && Tallies(stash, Some(2), 0) && !Written(stash, 1)
            && FullyWritten(stash, Some(1), 0) && !Tallies(stash, Some(1), 0)
  {
    var stash := [Kept(0, [7]), Kept(0, [7])];
    assert stash[..1] == [Kept(0, [7])] && stash[..1][..0] == [];
    assert Covered(stash, 0, 2) == Covered(stash[..1], 0, 2) + Overlap(stash[1], 0, 2);
    assert Covered(stash, 0, 1) == Covered(stash[..1], 0, 1) + Overlap(stash[1], 0, 1);
    assert Covers(stash[0], 0);
  }

  /** The chunks that tally, in order, each with its bytes. */
  method CoveredChunks(stash: seq<Kept>, size: Option<nat>) returns (out: seq<Chunk>)
    ensures forall k :: 0 <= k < |out| ==> ChunkRight(stash, size, out[k])
    ensures forall j, k :: 0 <= j < k < |out| ==> out[j].c < out[k].c
    ensures forall c: nat :: Has(out, c) <==> Tallies(stash, size, c)
    ensures Disjoint(stash) ==> forall c: nat :: Has(out, c) <==> FullyWritten(stash, size, c)
  {
    var maxEnd := LargestEnd(stash);
    var end := if size.Some? then Min(size.value, maxEnd) else maxEnd;
    out := [];
    var n, c := ChunksUpTo(end), 0;
    while c < n
      invariant 0 <= c <= n
      invariant forall k :: 0 <= k < |out| ==> ChunkRight(stash, size, out[k])
      invariant forall k :: 0 <= k < |out| ==> out[k].c < c
      invariant forall j, k :: 0 <= j < k < |out| ==> out[j].c < out[k].c
      invariant forall b: nat :: Has(out, b) <==> b < c && Tallies(stash, size, b)
    {
      var keep, chunk := OneChunk(stash, size, end, c);
      GrowHas(out, chunk);
      if keep { out := out + [chunk]; }
      c := c + 1;
    }
    if Disjoint(stash) {
      forall b: nat ensures Has(out, b) <==> FullyWritten(stash, size, b) { TallyIffWritten(stash, size, b); }
    }
  }

  lemma GrowHas(out: seq<Chunk>, chunk: Chunk)
    ensures forall b: nat :: Has(out + [chunk], b) <==> Has(out, b) || b == chunk.c
  {
    forall b: nat ensures Has(out + [chunk], b) <==> Has(out, b) || b == chunk.c {
      var more := out + [chunk];
      if b == chunk.c { assert more[|out|].c == b; }
      if k :| 0 <= k < |out| && out[k].c == b { assert more[k].c == b; }
      if k :| 0 <= k < |out| && more[k].c == b { assert out[k].c == b; }
    }
  }

  method OneChunk(stash: seq<Kept>, size: Option<nat>, end: nat, c: nat) returns (keep: bool, chunk: Chunk)
    requires c < ChunksUpTo(end) && end == Reach(stash, size)
    ensures chunk.c == c && (keep <==> Tallies(stash, size, c))
    ensures keep ==> ChunkRight(stash, size, chunk)
  {
    var off := c * CAS_CHUNK;
    if size.None? && off + CAS_CHUNK > end { return false, Chunk(c, []); }
    var len := if size.Some? then Min(CAS_CHUNK, size.value - off) else CAS_CHUNK;
    var bytes, covered := Assemble(stash, off, len);
    return covered == len, Chunk(c, bytes);
  }

  // ---- what the chunks are chunks of -----------------------------------------------------------------

  /** The guest's file after the writes, in order. */
  function FileAfter(f: seq<byte>, stash: seq<Kept>): seq<byte>
    decreases |stash|
  {
    if stash == [] then f
    else WriteAt(FileAfter(f, stash[..|stash| - 1]), stash[|stash| - 1].off, stash[|stash| - 1].data)
  }

  lemma {:induction false} OverlayIsFile(f: seq<byte>, stash: seq<Kept>, i: nat)
    ensures ByteAt(FileAfter(f, stash), i) == if Written(stash, i) then Overlay(stash, i) else ByteAt(f, i)
    ensures Written(stash, i) ==> i < |FileAfter(f, stash)|
    decreases |stash|
  {
    hide Written;
    WrittenIsTimes(stash, i);
    if stash != [] {
      var init, w := stash[..|stash| - 1], stash[|stash| - 1];
      OverlayIsFile(f, init, i);
      WrittenIsTimes(init, i);
      if w.data != [] { WriteAtIs(FileAfter(f, init), w.off, w.data); }
    }
  }

  /** A chunk that was written in full and is produced is that chunk of the guest's file: of any file the writes went
      to, as long as the size given is its size. */
  lemma ProducedIsFileChunk(f: seq<byte>, stash: seq<Kept>, size: Option<nat>, chunk: Chunk)
    requires size.Some? ==> size.value == |FileAfter(f, stash)|
    requires FullyWritten(stash, size, chunk.c) && ChunkRight(stash, size, chunk)
    ensures chunk.c * CAS_CHUNK <= |FileAfter(f, stash)|
    ensures chunk.bytes == ChunkOf(FileAfter(f, stash), chunk.c * CAS_CHUNK)
  {
    hide Written, Overlay, FileAfter;
    var lo, len, g := chunk.c * CAS_CHUNK, ChunkLen(size, chunk.c), FileAfter(f, stash);
    OverlayIsFile(f, stash, lo + len - 1);
    assert len == |ChunkOf(g, lo)|;
    forall i | 0 <= i < len ensures chunk.bytes[i] == ChunkOf(g, lo)[i] {
      OverlayIsFile(f, stash, lo + i);
    }
  }
}
