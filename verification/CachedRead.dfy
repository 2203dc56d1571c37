/** Reads through the content cache: whole aligned chunks are fetched and kept by version, and any mix of
    kept, missing and evicted chunks must read like the guest's file. */
module CachedReads {
  import opened Types

  /** Names a file's content: which file, and which version of it. */
  datatype Key = Key(share: ShareId, node: NodeKey, version: nat)

  /** A content hash; taken to tell contents apart. */
  datatype Hash = Hash(of: seq<byte>)

  datatype ReadResult = ReadResult(data: seq<byte>, eof: bool)

  /** What the guest answers to a read. */
  function GuestRead(f: seq<byte>, off: nat, len: nat): (r: ReadResult)
    ensures off <= |f| ==> r.data <= f[off..] && |r.data| == Min(len, |f| - off)
    ensures off > |f| ==> r.data == []
    ensures r.eof <==> off + len >= |f|
  {
    var end := Min(|f|, off + len);
    ReadResult(if off < end then f[off..end] else [], end >= |f|)
  }

  /** The aligned chunk at `off`; the last one may be short. */
  function ChunkOf(f: seq<byte>, off: nat): seq<byte>
    requires off <= |f|
  {
    f[off..Min(off + CAS_CHUNK, |f|)]
  }

  /** Every chunk a manifest records is that version's. */
  predicate Right(m: map<nat, Hash>, f: seq<byte>) {
    forall off :: off in m ==> off < |f| && m[off] == Hash(ChunkOf(f, off))
  }

  lemma ChunkSlice(f: seq<byte>, off: nat, inner: nat, want: nat)
    requires off <= |f| && inner + want <= Min(CAS_CHUNK, |f| - off)
    ensures inner + want <= |ChunkOf(f, off)|
    ensures ChunkOf(f, off)[inner..inner + want] == f[off + inner..off + inner + want]
  {}

  /** The byte before `end`, in 64 bits: a read of nothing at the very start wraps around. */
  function LastByte(end: nat): nat {
    if end == 0 then U64_MAX else end - 1
  }

  lemma OneChunk(size: nat, offset: nat, end: nat)
    requires offset < size && offset <= end <= size && offset / CAS_CHUNK == LastByte(end) / CAS_CHUNK
    ensures var chunkOff := offset / CAS_CHUNK * CAS_CHUNK;
            chunkOff <= offset && end - chunkOff <= Min(CAS_CHUNK, size - chunkOff)
  {
    assert offset - offset / CAS_CHUNK * CAS_CHUNK == offset % CAS_CHUNK;
    if end > 0 {
      assert end - 1 - LastByte(end) / CAS_CHUNK * CAS_CHUNK == (end - 1) % CAS_CHUNK;
    }
  }

  /** An aligned chunk with bytes in the range. */
  predicate Meets(off: nat, offset: nat, end: nat) {
    off % CAS_CHUNK == 0 && off < end && offset < off + CAS_CHUNK && offset < end
  }

  /** The chunk is there, and is found: by the manifest remembered, or else by the one on disk. */
  ghost predicate KeptIn(remembered: map<Key, map<nat, Hash>>, manifests: map<Key, map<nat, Hash>>,
                         blobs: set<Hash>, key: Key, f: seq<byte>, off: nat) {
    && off <= |f| && Hash(ChunkOf(f, off)) in blobs
    && ((key in remembered && off in remembered[key]) || (key in manifests && off in manifests[key]))
  }

  lemma KeptStays(remembered: map<Key, map<nat, Hash>>, remembered': map<Key, map<nat, Hash>>,
                  manifests: map<Key, map<nat, Hash>>, blobs: set<Hash>, blobs': set<Hash>,
                  key: Key, f: seq<byte>, off: nat)
    requires KeptIn(remembered, manifests, blobs, key, f, off) && blobs <= blobs'
    requires key in remembered ==> key in remembered' && remembered'[key] == remembered[key]
    ensures KeptIn(remembered', manifests, blobs', key, f, off)
  {}

  lemma OnlyChunk(off: nat, offset: nat, end: nat)
    requires offset / CAS_CHUNK == LastByte(end) / CAS_CHUNK && Meets(off, offset, end)
    ensures off == offset / CAS_CHUNK * CAS_CHUNK
  {
    var c := off / CAS_CHUNK;
    assert off == c * CAS_CHUNK;
  }

  lemma NoneMet(offset: nat)
    ensures forall off :: !Meets(off, offset, offset)
  {}

  lemma ThisChunk(offset: nat, pos: nat, end: nat)
    requires offset <= pos < end
    ensures Meets(pos / CAS_CHUNK * CAS_CHUNK, offset, end)
    ensures pos - pos / CAS_CHUNK * CAS_CHUNK == pos % CAS_CHUNK
  {}

  /** A range one chunk longer meets one more chunk. */
  lemma NextChunk(off: nat, offset: nat, pos: nat, more: nat)
    requires offset <= pos && pos % CAS_CHUNK + more <= CAS_CHUNK && Meets(off, offset, pos + more)
    ensures Meets(off, offset, pos) || off == pos / CAS_CHUNK * CAS_CHUNK
  {
    var c := off / CAS_CHUNK;
    assert off == c * CAS_CHUNK && pos == pos / CAS_CHUNK * CAS_CHUNK + pos % CAS_CHUNK;
  }

  class ReadCache {
    var manifests: map<Key, map<nat, Hash>>
    var blobs: set<Hash>
    /** Manifests read before, kept in memory; they may lag behind. */
    var remembered: map<Key, map<nat, Hash>>
    /** Reads sent to the guest so far. */
    var asked: nat
    /** The content each key stands for. */
    ghost const versions: map<Key, seq<byte>>
    /** Chunks that happen not to be evicted: any set at all. */
    const spared: set<Hash>

    ghost predicate Valid()
      reads this
    {
      && (forall key :: key in manifests ==> key in versions && Right(manifests[key], versions[key]))
      && (forall key :: key in remembered ==> key in versions && Right(remembered[key], versions[key]))
    }

    ghost predicate Kept(key: Key, f: seq<byte>, off: nat)
      reads this
    {
      KeptIn(remembered, manifests, blobs * spared, key, f, off)
    }

    constructor (ghost versions: map<Key, seq<byte>>, spared: set<Hash>)
      ensures Valid() && this.versions == versions && this.spared == spared && asked == 0
    {
      this.versions, this.spared := versions, spared;
      manifests, blobs, remembered, asked := map[], {}, map[], 0;
    }

    /** Other readers and the evictor at work: blobs may go at any time. */
    method Meanwhile()
      modifies this`blobs
      ensures blobs <= old(blobs) && old(blobs) * spared <= blobs
    {
      var gone: set<Hash> := *;
      blobs := blobs - (gone - spared);
    }

    /** The manifest remembered, or else the one on disk, which is remembered from now on. */
    method Manifest(key: Key) returns (m: Option<map<nat, Hash>>)
      requires Valid()
      modifies this`remembered
      ensures Valid() && |remembered| <= Max(|old(remembered)|, 256)
      ensures m == if key in old(remembered) then Some(old(remembered)[key])
                   else if key in manifests then Some(manifests[key]) else None
      ensures m.Some? ==> key in remembered && remembered[key] == m.value
      ensures key !in remembered <==> m.None?
    {
      if key in remembered { return Some(remembered[key]); }
      if key !in manifests { return None; }
      if |remembered| >= 256 { remembered := map[]; }
      assert remembered[key := manifests[key]].Keys == remembered.Keys + {key};
      remembered := remembered[key := manifests[key]];
      m := Some(manifests[key]);
    }

    /** Keep a whole chunk.  Recording the version's own bytes keeps every manifest right. */
    method Ingest(key: Key, off: nat, data: seq<byte>)
      requires Valid() && key in versions && off < |versions[key]| && data == ChunkOf(versions[key], off)
      modifies this`manifests, this`blobs
      ensures Valid() && blobs == old(blobs) + {Hash(data)} && key in manifests && off in manifests[key]
      ensures forall k, o :: k in old(manifests) && o in old(manifests)[k] ==> k in manifests && o in manifests[k]
    {
      var m := if key in manifests then manifests[key] else map[];
      blobs := blobs + {Hash(data)};
      manifests := manifests[key := m[off := Hash(data)]];
    }

    /** `want` bytes at `inner` of a kept chunk, if the chunk is still there. */
    method BlobRange(h: Hash, inner: nat, want: nat) returns (piece: Option<seq<byte>>)
      ensures piece.Some? <==> h in blobs && inner + want <= |h.of|
      ensures piece.Some? ==> piece.value == h.of[inner..inner + want]
    {
      if h in blobs && inner + want <= |h.of| { return Some(h.of[inner..inner + want]); }
      return None;
    }

    method AskGuest(guest: seq<byte>, off: nat, len: nat) returns (r: ReadResult)
      modifies this`asked
      ensures r == GuestRead(guest, off, len) && asked == old(asked) + 1
    {
      asked := asked + 1;
      r := GuestRead(guest, off, len);
    }

    /** Listed where a reader looks first: in the manifest remembered, if there is one. */
    ghost predicate Shown(key: Key, off: nat)
      reads this
    {
      if key in remembered then off in remembered[key] else key in manifests && off in manifests[key]
    }

    /** A piece of a chunk, if it is found at the first look. */
    method Peek(key: Key, ghost guest: seq<byte>, chunkOff: nat, inner: nat, want: nat)
      returns (piece: Option<seq<byte>>)
      requires Valid() && key in versions && guest == versions[key]
      requires chunkOff < |guest| && inner + want <= Min(CAS_CHUNK, |guest| - chunkOff)
      modifies this`remembered, this`blobs
      ensures Valid() && (old(Kept(key, guest, chunkOff) && Shown(key, chunkOff)) ==> piece.Some?)
      ensures piece.Some? ==> piece.value == guest[chunkOff + inner..chunkOff + inner + want]
      ensures piece.Some? && Hash(ChunkOf(guest, chunkOff)) in spared ==> Kept(key, guest, chunkOff)
      ensures forall off :: old(Kept(key, guest, off)) ==> Kept(key, guest, off)
      ensures key in old(remembered) ==> key in remembered && remembered[key] == old(remembered)[key]
    {
      ChunkSlice(guest, chunkOff, inner, want);
      hide ChunkOf;
      ghost var r, b := remembered, blobs * spared;
      var m := Manifest(key);
      Meanwhile();
      forall off | KeptIn(r, manifests, b, key, guest, off)
        ensures KeptIn(remembered, manifests, blobs * spared, key, guest, off)
      {
        KeptStays(r, remembered, manifests, b, blobs * spared, key, guest, off);
      }
      if m.None? || chunkOff !in m.value { return None; }
      piece := BlobRange(m.value[chunkOff], inner, want);
    }

    /** A piece of a chunk that is kept: as remembered, or, after waiting for other readers, as on disk. */
    method Find(key: Key, ghost guest: seq<byte>, chunkOff: nat, inner: nat, want: nat)
      returns (piece: Option<seq<byte>>)
      requires Valid() && key in versions && guest == versions[key]
      requires chunkOff < |guest| && inner + want <= Min(CAS_CHUNK, |guest| - chunkOff)
      modifies this`remembered, this`blobs
      ensures Valid() && (old(Kept(key, guest, chunkOff)) ==> piece.Some?)
      ensures piece.Some? ==> piece.value == guest[chunkOff + inner..chunkOff + inner + want]
      ensures piece.Some? && Hash(ChunkOf(guest, chunkOff)) in spared ==> Kept(key, guest, chunkOff)
      ensures forall off :: old(Kept(key, guest, off)) ==> Kept(key, guest, off)
    {
      piece := Peek(key, guest, chunkOff, inner, want);
      if piece.Some? { return; }
      ChunkSlice(guest, chunkOff, inner, want);
      hide ChunkOf;
      Meanwhile();
      if key in manifests && chunkOff in manifests[key] {
        piece := BlobRange(manifests[key][chunkOff], inner, want);
        if piece.Some? { return; }
      }
      piece := None;
    }

    /** Serve a piece of one chunk: kept, kept meanwhile by another reader, or fetched whole and kept. */
    method ChunkRead(key: Key, guest: seq<byte>, chunkOff: nat, chunkLen: nat, inner: nat, want: nat)
      returns (piece: seq<byte>)
      requires Valid() && key in versions && guest == versions[key]
      requires chunkOff < |guest| && chunkLen == Min(CAS_CHUNK, |guest| - chunkOff) && inner + want <= chunkLen
      modifies this
      ensures Valid() && piece == guest[chunkOff + inner..chunkOff + inner + want]
      ensures old(asked) <= asked && (old(Kept(key, guest, chunkOff)) ==> asked == old(asked))
      ensures Hash(ChunkOf(guest, chunkOff)) in spared ==> Kept(key, guest, chunkOff)
      ensures forall off :: old(Kept(key, guest, off)) ==> Kept(key, guest, off)
    {
      var hit := Find(key, guest, chunkOff, inner, want);
      if hit.Some? { return hit.value; }
      var got := AskGuest(guest, chunkOff, chunkLen);
      var data := got.data;
      var sliceEnd := Min(|data|, inner + want);
      piece := if inner <= sliceEnd then data[inner..sliceEnd] else [];
      if |data| == chunkLen {
        Ingest(key, chunkOff, data);
        Prefetch(key, guest, chunkOff + CAS_CHUNK);
      }
    }

    /** The next chunk, if there is one and somebody gets round to it. */
    method Prefetch(key: Key, guest: seq<byte>, chunkOff: nat)
      requires Valid() && key in versions && guest == versions[key]
      modifies this`manifests, this`blobs, this`asked
      ensures Valid() && old(blobs) <= blobs && old(asked) <= asked
      ensures forall k, o :: k in old(manifests) && o in old(manifests)[k] ==> k in manifests && o in manifests[k]
    {
      var goes: bool := *;
      if !goes || chunkOff >= |guest| || (key in manifests && chunkOff in manifests[key]) { return; }
      var chunkLen := Min(CAS_CHUNK, |guest| - chunkOff);
      var got := AskGuest(guest, chunkOff, chunkLen);
      if |got.data| == chunkLen { Ingest(key, chunkOff, got.data); }
    }

    /** Every chunk that the range meets is kept; a range of nothing still looks at the chunk it is in. */
    ghost predicate AllKept(key: Key, f: seq<byte>, offset: nat, end: nat)
      reads this
    {
      forall off :: Meets(off, offset, Max(end, offset + 1)) ==> Kept(key, f, off)
    }

    /** Every chunk with bytes in the range that is spared is kept. */
    ghost predicate SparedKept(key: Key, f: seq<byte>, offset: nat, end: nat)
      requires end <= |f|
      reads this
    {
      forall off :: Meets(off, offset, end) && Hash(ChunkOf(f, off)) in spared ==> Kept(key, f, off)
    }

    /** A read, whichever way it goes: straight from the guest, one chunk, or chunk after chunk.  What is kept is not
        asked for, and what was read stays kept until it is evicted. */
    method Read(key: Key, guest: seq<byte>, offset: nat, count: nat, cached: bool, dirty: bool) returns (r: ReadResult)
      requires Valid() && key in versions && guest == versions[key]
      modifies this
      ensures Valid() && r == GuestRead(guest, offset, count)
      ensures !cached || dirty ==> asked == old(asked) + 1
      ensures cached && !dirty && offset < |guest| ==>
                && (old(AllKept(key, guest, offset, Min(|guest|, offset + count))) ==> asked == old(asked))
                && SparedKept(key, guest, offset, Min(|guest|, offset + count))
      ensures cached && !dirty && offset >= |guest| ==> asked == old(asked)
    {
      if !cached || dirty {
        r := AskGuest(guest, offset, count);
        return;
      }
      hide KeptIn, ChunkOf, Right, AllKept, SparedKept;
      var size := |guest|;
      if offset >= size { return ReadResult([], true); }
      var end := Min(size, offset + count);
      if offset / CAS_CHUNK == LastByte(end) / CAS_CHUNK {
        var piece := ReadOne(key, guest, offset, end);
        return ReadResult(piece, offset + |piece| >= size);
      }
      var data, pos := ReadChunks(key, guest, offset, end);
      return ReadResult(data, pos >= size);
    }

    /** All of the range in one chunk. */
    method ReadOne(key: Key, guest: seq<byte>, offset: nat, end: nat) returns (data: seq<byte>)
      requires Valid() && key in versions && guest == versions[key] && offset < |guest| && offset <= end <= |guest|
      requires offset / CAS_CHUNK == LastByte(end) / CAS_CHUNK
      modifies this
      ensures Valid() && data == guest[offset..end]
      ensures old(AllKept(key, guest, offset, end)) ==> asked == old(asked)
      ensures SparedKept(key, guest, offset, end)
    {
      hide KeptIn, ChunkOf, Right;
      OneChunk(|guest|, offset, end);
      var chunkOff := offset / CAS_CHUNK * CAS_CHUNK;
      assert Meets(chunkOff, offset, Max(end, offset + 1));
      forall off | Meets(off, offset, end) ensures off == chunkOff { OnlyChunk(off, offset, end); }
      data := ChunkRead(key, guest, chunkOff, Min(CAS_CHUNK, |guest| - chunkOff), offset - chunkOff, end - offset);
    }

    method ReadChunks(key: Key, guest: seq<byte>, offset: nat, end: nat) returns (data: seq<byte>, pos: nat)
      requires Valid() && key in versions && guest == versions[key] && offset <= end <= |guest|
      modifies this
      ensures Valid() && data == guest[offset..end] && pos == end
      ensures old(AllKept(key, guest, offset, end)) ==> asked == old(asked)
      ensures SparedKept(key, guest, offset, end)
    {
      hide KeptIn, ChunkOf, Right, Meets;
      var size := |guest|;
      data, pos := [], offset;
      NoneMet(offset);
      while pos < end
        invariant Valid() && offset <= pos <= end && data == guest[offset..pos]
        invariant old(AllKept(key, guest, offset, end)) ==> asked == old(asked) && AllKept(key, guest, offset, end)
        invariant SparedKept(key, guest, offset, pos)
      {
        var chunkOff := pos / CAS_CHUNK * CAS_CHUNK;
        var chunkLen := Min(CAS_CHUNK, size - chunkOff);
        var inner := pos - chunkOff;
        var want := Min(end - pos, chunkLen - inner);
        ThisChunk(offset, pos, end);
        forall off | Meets(off, offset, pos + want) ensures Meets(off, offset, pos) || off == chunkOff {
          NextChunk(off, offset, pos, want);
        }
        var piece := ChunkRead(key, guest, chunkOff, chunkLen, inner, want);
        assert guest[offset..pos] + guest[pos..pos + want] == guest[offset..pos + want];
        data := data + piece;
        pos := pos + |piece|;
        if |piece| < want { break; }
      }
    }

    /** The range is in one chunk, and that chunk is kept and found at the first look. */
    ghost predicate Ready(key: Key, f: seq<byte>, offset: nat, count: nat)
      requires offset < |f| && count > 0
      reads this
    {
      var end, off := Min(|f|, offset + count), offset / CAS_CHUNK * CAS_CHUNK;
      offset / CAS_CHUNK == (end - 1) / CAS_CHUNK && Kept(key, f, off) && Shown(key, off)
    }

    /** The fused path: kept bytes go straight into the reply; anything else is left to `Read`. */
    method ReadInto(key: Key, guest: seq<byte>, offset: nat, count: nat, cached: bool, dirty: bool,
                    pending: bool, out: seq<byte>)
      returns (eof: Option<bool>, out': seq<byte>)
      requires Valid() && key in versions && guest == versions[key]
      modifies this`remembered, this`blobs
      ensures Valid()
      ensures eof.None? ==> out' == out
      ensures eof.Some? ==> cached && !dirty && !pending
      ensures cached && !dirty && !pending && offset < |guest| && count > 0 && old(Ready(key, guest, offset, count)) ==>
                eof.Some?
      ensures eof.Some? ==>
                out' == out + GuestRead(guest, offset, count).data && eof.value == GuestRead(guest, offset, count).eof
    {
      hide KeptIn, ChunkOf, Right;
      eof, out' := None, out;
      if !cached || dirty || pending { return; }
      var size := |guest|;
      if offset >= size || count == 0 { return; }
      var end := Min(size, offset + count);
      if offset / CAS_CHUNK != (end - 1) / CAS_CHUNK { return; }
      var chunkOff := offset / CAS_CHUNK * CAS_CHUNK;
      OneChunk(size, offset, end);
      var hit := Peek(key, guest, chunkOff, offset - chunkOff, end - offset);
      if hit.None? { return; }
      out' := out + hit.value;
      eof := Some(end >= size);
    }
  }
}
