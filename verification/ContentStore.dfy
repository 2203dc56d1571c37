/** The content store: chunk rows, recency, running totals and versioned manifests, changed by every call. */
module ContentStores {
  import opened Types
  import opened CachedReads
  import opened Evictions

  datatype Stored = Stored(len: nat, at: nat)

  /** A chunk of a file: where it belongs and what it holds. */
  datatype ChunkRef = ChunkRef(off: nat, len: nat, hash: Hash)

  /** In order of offset, each offset once. */
  predicate Listed(m: seq<ChunkRef>) {
    forall i, j :: 0 <= i < j < |m| ==> m[i].off < m[j].off
  }

  ghost predicate Lists(m: seq<ChunkRef>, c: ChunkRef) {
    exists i :: 0 <= i < |m| && m[i] == c
  }

  /** Binary search for an offset: in a manifest in order, the place it is at, or the place it belongs. */
  method Search(m: seq<ChunkRef>, off: nat) returns (found: bool, at: nat)
    ensures at <= |m| && (found ==> at < |m| && m[at].off == off)
    ensures Listed(m) ==> forall i :: 0 <= i < at ==> m[i].off < off
    ensures Listed(m) ==> forall i :: at <= i < |m| ==> m[i].off > off || (found && i == at)
  {
    var lo, hi := 0, |m|;
    while lo < hi
      invariant 0 <= lo <= hi <= |m|
      invariant Listed(m) ==> forall i :: 0 <= i < lo ==> m[i].off < off
      invariant Listed(m) ==> forall i :: hi <= i < |m| ==> m[i].off > off
    {
      var mid := (lo + hi) / 2;
      if m[mid].off == off { return true, mid; }
      if m[mid].off < off { lo := mid + 1; } else { hi := mid; }
    }
    return false, lo;
  }

  /** Put one chunk into a manifest in order: it replaces whatever was at its offset, and nothing else moves. */
  method Merge(m: seq<ChunkRef>, c: ChunkRef) returns (m': seq<ChunkRef>)
    ensures Listed(m) ==> Listed(m') && forall x :: Lists(m', x) <==> x == c || (Lists(m, x) && x.off != c.off)
  {
    var found, at := Search(m, c.off);
    var rest := if found then m[at + 1..] else m[at..];
    m' := m[..at] + [c] + rest;
    if Listed(m) { MergedLists(m, c, at, rest, m'); }
  }

  lemma MergedLists(m: seq<ChunkRef>, c: ChunkRef, at: nat, rest: seq<ChunkRef>, m': seq<ChunkRef>)
    requires at <= |m| && m' == m[..at] + [c] + rest
    requires rest == m[at..] || (at < |m| && m[at].off == c.off && rest == m[at + 1..])
    requires forall i :: 0 <= i < at ==> m[i].off < c.off
    requires forall i :: 0 <= i < |rest| ==> rest[i].off > c.off
    ensures forall x :: Lists(m', x) <==> x == c || (Lists(m, x) && x.off != c.off)
  {
    hide Lists;
    forall x ensures Lists(m', x) <==> x == c || (Lists(m, x) && x.off != c.off) {
      MergedFrom(m, c, at, rest, m', x);
      MergedInto(m, c, at, rest, m', x);
    }
  }

  lemma MergedFrom(m: seq<ChunkRef>, c: ChunkRef, at: nat, rest: seq<ChunkRef>, m': seq<ChunkRef>, x: ChunkRef)
    requires at <= |m| && m' == m[..at] + [c] + rest
    requires rest == m[at..] || (at < |m| && m[at].off == c.off && rest == m[at + 1..])
    requires forall i :: 0 <= i < at ==> m[i].off < c.off
    requires forall i :: 0 <= i < |rest| ==> rest[i].off > c.off
    ensures Lists(m', x) ==> x == c || (Lists(m, x) && x.off != c.off)
  {
    if Lists(m', x) {
      var i :| 0 <= i < |m'| && m'[i] == x;
      if i < at {
        assert m[i] == x;
      } else if i > at {
        assert rest[i - at - 1] == x;
        assert m[|m| - |rest| + i - at - 1] == x;
      }
    }
  }

  lemma MergedInto(m: seq<ChunkRef>, c: ChunkRef, at: nat, rest: seq<ChunkRef>, m': seq<ChunkRef>, x: ChunkRef)
    requires at <= |m| && m' == m[..at] + [c] + rest
    requires rest == m[at..] || (at < |m| && m[at].off == c.off && rest == m[at + 1..])
    ensures x == c || (Lists(m, x) && x.off != c.off) ==> Lists(m', x)
  {
    if x == c {
      assert m'[at] == x;
    } else if Lists(m, x) && x.off != c.off {
      var i :| 0 <= i < |m| && m[i] == x;
      if i < at {
        assert m'[i] == x;
      } else {
        assert rest[i - (|m| - |rest|)] == x;
        assert m'[at + 1 + i - (|m| - |rest|)] == x;
      }
    }
  }

  /** In order of offset; several chunks may claim the same one. */
  predicate Ascending(m: seq<ChunkRef>) {
    forall i, j :: 0 <= i < j < |m| ==> m[i].off <= m[j].off
  }

  /** The chunks that claim an offset, in the order they are listed. */
  function At(m: seq<ChunkRef>, off: nat): seq<ChunkRef>
    decreases |m|
  {
    if m == [] then [] else (if m[0].off == off then [m[0]] else []) + At(m[1..], off)
  }

  lemma {:induction false} AtConcat(a: seq<ChunkRef>, b: seq<ChunkRef>, off: nat)
    ensures At(a + b, off) == At(a, off) + At(b, off)
    decreases |a|
  {
    if a == [] {
      assert a + b == b;
    } else {
      var rest := a[1..];
      assert (a + b)[0] == a[0] && (a + b)[1..] == rest + b;
      AtConcat(rest, b, off);
      var first := if a[0].off == off then [a[0]] else [];
      assert At(a, off) == first + At(rest, off);
      assert At(a + b, off) == first + At(rest + b, off);
    }
  }

  lemma {:induction false} AtNone(m: seq<ChunkRef>, off: nat)
    requires forall i :: 0 <= i < |m| ==> m[i].off != off
    ensures At(m, off) == []
    decreases |m|
  {
    if m != [] { AtNone(m[1..], off); }
  }

  /** A chunk put behind those before or at its offset comes last among its equals. */
  lemma PutAt(a: seq<ChunkRef>, c: ChunkRef, b: seq<ChunkRef>, off: nat)
    requires forall i :: 0 <= i < |b| ==> b[i].off > c.off
    ensures At(a + [c] + b, off) == At(a + b + [c], off)
  {
    AtConcat(a + [c], b, off);
    AtConcat(a, [c], off);
    AtConcat(a + b, [c], off);
    AtConcat(a, b, off);
    if off == c.off { AtNone(b, off); }
  }

  lemma PutAscending(a: seq<ChunkRef>, c: ChunkRef, b: seq<ChunkRef>)
    requires Ascending(a + b)
    requires forall i :: 0 <= i < |a| ==> a[i].off <= c.off
    requires forall i :: 0 <= i < |b| ==> b[i].off > c.off
    ensures Ascending(a + [c] + b)
  {
    var all, more := a + b, a + [c] + b;
    forall i, j | 0 <= i < j < |more| ensures more[i].off <= more[j].off {
      if i != |a| { assert more[i] == all[if i < |a| then i else i - 1]; }
      if j != |a| { assert more[j] == all[if j < |a| then j else j - 1]; }
    }
  }

  /** A stable sort by offset. */
  method SortByOffset(refs: seq<ChunkRef>) returns (m: seq<ChunkRef>)
    ensures Ascending(m) && forall off :: At(m, off) == At(refs, off)
  {
    m := [];
    var i := 0;
    while i < |refs|
      invariant 0 <= i <= |refs| && Ascending(m) && forall off :: At(m, off) == At(refs[..i], off)
    {
      hide At, Ascending;
      var c := refs[i];
      var at := |m|;
      while at > 0 && m[at - 1].off > c.off
        invariant 0 <= at <= |m| && forall k :: at <= k < |m| ==> m[k].off > c.off
      {
        at := at - 1;
      }
      PutInPlace(m, at, c);
      PutClaims(refs[..i], m, at, c);
      assert refs[..i + 1] == refs[..i] + [c];
      m := m[..at] + [c] + m[at..];
      i := i + 1;
    }
    assert refs[..i] == refs;
  }

  /** The next claim goes after those with its offset or a smaller one. */
  lemma PutInPlace(m: seq<ChunkRef>, at: nat, c: ChunkRef)
    requires at <= |m| && Ascending(m)
    requires forall k :: at <= k < |m| ==> m[k].off > c.off
    requires at > 0 ==> m[at - 1].off <= c.off
    ensures Ascending(m[..at] + [c] + m[at..])
  {
    var a, b := m[..at], m[at..];
    assert m == a + b;
    forall k | 0 <= k < |a| ensures a[k].off <= c.off {
      assert a[k] == m[k] && m[k].off <= m[at - 1].off;
    }
    PutAscending(a, c, b);
  }

  lemma PutClaims(done: seq<ChunkRef>, m: seq<ChunkRef>, at: nat, c: ChunkRef)
    requires at <= |m| && forall off :: At(m, off) == At(done, off)
    requires forall k :: at <= k < |m| ==> m[k].off > c.off
    ensures forall off :: At(m[..at] + [c] + m[at..], off) == At(done + [c], off)
  {
    hide At;
    var a, b := m[..at], m[at..];
    assert m == a + b;
    forall off ensures At(a + [c] + b, off) == At(done + [c], off) {
      PutNext(done, m, a, c, b, off);
    }
  }

  lemma PutNext(done: seq<ChunkRef>, m: seq<ChunkRef>, a: seq<ChunkRef>, c: ChunkRef, b: seq<ChunkRef>, off: nat)
    requires m == a + b && At(m, off) == At(done, off) && forall i :: 0 <= i < |b| ==> b[i].off > c.off
    ensures At(a + [c] + b, off) == At(done + [c], off)
  {
    hide At;
    PutAt(a, c, b, off);
    AtConcat(m, [c], off);
    AtConcat(done, [c], off);
  }

  lemma {:induction false} AtLists(m: seq<ChunkRef>, x: ChunkRef)
    ensures Lists(At(m, x.off), x) <==> Lists(m, x)
    decreases |m|
  {
    if m != [] {
      AtLists(m[1..], x);
      assert m == [m[0]] + m[1..];
      ListsConcat([m[0]], m[1..], x);
      ListsConcat(if m[0].off == x.off then [m[0]] else [], At(m[1..], x.off), x);
      ListsOne(m[0], x);
    }
  }

  lemma ListsConcat(a: seq<ChunkRef>, b: seq<ChunkRef>, x: ChunkRef)
    ensures Lists(a + b, x) <==> Lists(a, x) || Lists(b, x)
  {
    if i :| 0 <= i < |a| && a[i] == x { assert (a + b)[i] == x; }
    if i :| 0 <= i < |b| && b[i] == x { assert (a + b)[|a| + i] == x; }
  }

  lemma ListsOne(c: ChunkRef, x: ChunkRef)
    ensures Lists([c], x) <==> x == c
  {
    assert [c][0] == c;
  }

  /** The same claims mean the same chunks; and if no two claim the same offset, the list is a manifest in order. */
  lemma SortedLists(refs: seq<ChunkRef>, m: seq<ChunkRef>)
    requires Ascending(m) && forall off :: At(m, off) == At(refs, off)
    ensures forall x :: Lists(m, x) <==> Lists(refs, x)
    ensures (forall i, j :: 0 <= i < j < |refs| ==> refs[i].off != refs[j].off) ==> Listed(m)
  {
    hide At;
    forall x ensures Lists(m, x) <==> Lists(refs, x) {
      AtLists(m, x);
      AtLists(refs, x);
    }
    if forall i, j :: 0 <= i < j < |refs| ==> refs[i].off != refs[j].off {
      forall i, j | 0 <= i < j < |m| ensures m[i].off < m[j].off {
        AtOnce(refs, m[i].off);
        AtTwice(m, i, j);
      }
    }
  }

  lemma {:induction false} AtOnce(refs: seq<ChunkRef>, off: nat)
    requires forall i, j :: 0 <= i < j < |refs| ==> refs[i].off != refs[j].off
    ensures |At(refs, off)| <= 1
    decreases |refs|
  {
    if refs != [] {
      AtOnce(refs[1..], off);
      if refs[0].off == off {
        forall i | 0 <= i < |refs[1..]| ensures refs[1..][i].off != off { assert refs[1..][i] == refs[i + 1]; }
        AtNone(refs[1..], off);
      }
    }
  }

  lemma AtTwice(m: seq<ChunkRef>, i: nat, j: nat)
    requires i < j < |m|
    ensures m[i].off == m[j].off ==> |At(m, m[i].off)| >= 2
  {
    var a, b := m[..j], m[j..];
    assert m == a + b;
    AtConcat(a, b, m[i].off);
    if m[i].off == m[j].off {
      AtSome(a, i);
      AtSome(b, 0);
    }
  }

  lemma {:induction false} AtSome(m: seq<ChunkRef>, i: nat)
    requires i < |m|
    ensures |At(m, m[i].off)| >= 1
    decreases i
  {
    if i > 0 { AtSome(m[1..], i - 1); }
  }

  /** Another version of the same file. */
  predicate Stale(k: Key, key: Key) {
    k.share == key.share && k.node == key.node && k.version != key.version
  }

  /** A version of a file takes the place of all others of that file, and every other file stays.  So if there was one
      version of each file, there still is. */
  lemma FileReplaced(before: map<Key, seq<ChunkRef>>, after: map<Key, seq<ChunkRef>>, key: Key)
    requires forall k :: k in after <==> k == key || (k in before && !Stale(k, key))
    requires forall k :: k in after && k != key ==> after[k] == before[k]
    ensures forall k :: k in after && k.share == key.share && k.node == key.node ==> k == key
    ensures forall k :: k in before && (k.share != key.share || k.node != key.node) ==>
              k in after && after[k] == before[k]
    ensures OneVersion(before) ==> OneVersion(after)
  {
    forall k | k in after && k.share == key.share && k.node == key.node ensures k == key {
      if k.version == key.version { assert k == Key(key.share, key.node, key.version); }
    }
  }

  ghost predicate OneVersion(manifests: map<Key, seq<ChunkRef>>) {
    forall a, b :: a in manifests && b in manifests && a.share == b.share && a.node == b.node ==> a == b
  }

  function RefOf(chunk: (nat, seq<byte>)): ChunkRef {
    ChunkRef(chunk.0, |chunk.1|, Hash(chunk.1))
  }

  function RefsOf(chunks: seq<(nat, seq<byte>)>): seq<ChunkRef> {
    seq(|chunks|, i requires 0 <= i < |chunks| => RefOf(chunks[i]))
  }

  /** The rows after these chunks are kept at this time. */
  function RowsWith(rows: map<Hash, Stored>, refs: seq<ChunkRef>, now: nat): map<Hash, Stored>
    decreases |refs|
  {
    if refs == [] then rows
    else RowsWith(rows, refs[..|refs| - 1], now)[refs[|refs| - 1].hash := Stored(refs[|refs| - 1].len, now)]
  }

  /** Recency after these chunks are used at this time. */
  function Marked(recency: map<Hash, nat>, refs: seq<ChunkRef>, now: nat): map<Hash, nat>
    decreases |refs|
  {
    if refs == [] then recency else Marked(recency, refs[..|refs| - 1], now)[refs[|refs| - 1].hash := now]
  }

  /** Seconds a stored time may lag behind the last read. */
  const ACCESS_WRITE_GRANULARITY: nat := 3600

  /** A time a chunk is known to have been used at: stored, or read. */
  predicate UsedAt(rows: map<Hash, Stored>, recency: map<Hash, nat>, h: Hash, t: nat) {
    (h in rows && rows[h].at == t) || (h in recency && recency[h] == t)
  }

  /** A chunk was used when it was read or stored, whichever is later. */
  function LastUse(rows: map<Hash, Stored>, recency: map<Hash, nat>, h: Hash): nat
    requires h in rows
  {
    Max(rows[h].at, if h in recency then recency[h] else 0)
  }

  /** These are the rows, oldest first. */
  ghost predicate IsOrder(rows: map<Hash, Stored>, recency: map<Hash, nat>, order: seq<Row>) {
    && Oldest(order) && Distinct(order) && HashSet(order) == rows.Keys
    && forall i :: 0 <= i < |order| ==>
         var h := order[i].hash;
         h in rows && order[i] == Row(h, rows[h].len, LastUse(rows, recency, h))
  }

  /** A store within `limit` keeps everything; any other gives up what the eviction rule chooses. */
  ghost predicate MadeRoom(rows: map<Hash, Stored>, recency: map<Hash, nat>, limit: nat, target: nat,
                           max: nat, now: nat,
                           order: seq<Row>, victims: seq<Row>, rows': map<Hash, Stored>, recency': map<Hash, nat>) {
    && rows' == rows - HashSet(victims) && recency' == recency - HashSet(victims)
    && if TotalOf(rows.Keys) <= limit then victims == []
       else IsOrder(rows, recency, order) && IsChoice(order, TotalOf(rows.Keys), target, max, now, victims)
  }

  /** The manifests after one chunk is recorded: the version's own gains it, older versions are gone, and
      other files are as they were. */
  ghost predicate Recorded(before: map<Key, seq<ChunkRef>>, after: map<Key, seq<ChunkRef>>, key: Key, c: ChunkRef) {
    && (forall k :: k in after <==> k == key || (k in before && !Stale(k, key)))
    && (forall k :: k in after && k != key ==> after[k] == before[k])
    && key in after && Listed(after[key])
    && forall x :: Lists(after[key], x) <==> x == c || (key in before && Lists(before[key], x) && x.off != c.off)
  }

  lemma EmptyListed()
    ensures Listed([])
  {}

  lemma AddKey(rows: map<Hash, Stored>, h: Hash, s: Stored)
    ensures TotalOf(rows[h := s].Keys) == TotalOf(rows.Keys) + if h in rows then 0 else |h.of|
    ensures |rows[h := s]| == |rows| + if h in rows then 0 else 1
  {
    var keys := rows[h := s].Keys;
    assert keys == rows.Keys + {h};
    if h in rows {
      assert keys == rows.Keys;
    } else {
      TotalWithout(keys, h);
      assert keys - {h} == rows.Keys;
    }
  }

  /** The totals are the true sum and count of the rows, and a row's length is its chunk's. */
  ghost predicate Books(rows: map<Hash, Stored>, total: nat, blobs: nat) {
    && total == TotalOf(rows.Keys) && blobs == |rows|
    && forall h :: h in rows ==> rows[h].len == |h.of|
  }

  lemma BooksAdd(rows: map<Hash, Stored>, total: nat, blobs: nat, h: Hash, s: Stored)
    requires Books(rows, total, blobs) && s.len == |h.of|
    ensures if h in rows then Books(rows[h := s], total, blobs) else Books(rows[h := s], total + |h.of|, blobs + 1)
  {
    hide TotalOf;
    AddKey(rows, h, s);
  }

  lemma BooksDrop(rows: map<Hash, Stored>, total: nat, blobs: nat, h: Hash)
    requires Books(rows, total, blobs)
    ensures if h in rows then Books(rows - {h}, Less(total, rows[h].len), Less(blobs, 1)) else rows - {h} == rows
  {
    hide TotalOf;
    var keys := (rows - {h}).Keys;
    assert keys == rows.Keys - {h};
    if h in rows {
      TotalWithout(rows.Keys, h);
      assert |rows - {h}| == |keys| == |rows.Keys| - 1;
    } else {
      assert rows - {h} == rows;
    }
  }

  lemma BooksMinus(rows: map<Hash, Stored>, total: nat, blobs: nat, hs: set<Hash>, total': nat, blobs': nat)
    requires Books(rows, total, blobs) && TotalOf(rows.Keys - hs) == total' && |rows.Keys - hs| == blobs'
    ensures Books(rows - hs, total', blobs')
  {
    MinusKeys(rows, hs);
    hide TotalOf;
  }

  lemma BooksAre(rows: map<Hash, Stored>, total: nat, blobs: nat)
    requires Books(rows, total, blobs)
    ensures total == TotalOf(rows.Keys) && blobs == |rows.Keys|
    ensures forall h :: h in rows ==> rows[h].len == |h.of|
  {}

  class ContentStore {
    const max: nat
    const target: nat
    var rows: map<Hash, Stored>
    var recency: map<Hash, nat>
    var total: nat
    var blobs: nat
    var manifests: map<Key, seq<ChunkRef>>

    /** The books are exact. */
    ghost predicate Valid()
      reads this
    {
      target <= max && Books(rows, total, blobs)
    }

    /** Manifests made by the store's own calls are in order; one put in whole is as it was given. */
    ghost predicate Ordered()
      reads this
    {
      forall key :: key in manifests ==> Listed(manifests[key])
    }

    constructor (max: nat, target: nat)
      requires target <= max
      ensures Valid() && Ordered() && rows == map[] && manifests == map[]
    {
      this.max, this.target := max, target;
      rows, recency, total, blobs, manifests := map[], map[], 0, 0, map[];
    }

    method InOrder() returns (order: seq<Row>)
      requires forall h :: h in rows ==> rows[h].len == |h.of|
      ensures IsOrder(rows, recency, order) && Oldest(order) && Distinct(order) && Sized(order)
      ensures HashSet(order) == rows.Keys
    {
      order := [];
      var left := rows.Keys;
      while left != {}
        invariant left <= rows.Keys && Oldest(order) && Distinct(order) && HashSet(order) == rows.Keys - left
        invariant forall i :: 0 <= i < |order| ==>
                    var h := order[i].hash;
                    h in rows && order[i] == Row(h, rows[h].len, LastUse(rows, recency, h))
        decreases |left|
      {
        var h :| h in left;
        assert h !in HashSet(order);
        order := Insert(order, Row(h, rows[h].len, LastUse(rows, recency, h)));
        left := left - {h};
      }
    }

    /** Bring the store down to its target. */
    method Evict(now: nat) returns (freed: nat, ghost order: seq<Row>, ghost victims: seq<Row>)
      requires Valid()
      modifies this
      ensures Valid() && total <= max && manifests == old(manifests) && freed == Sum(victims)
      ensures MadeRoom(old(rows), old(recency), target, target, max, now, order, victims, rows, recency)
    {
      hide Books, Oldest, Distinct, HashSet, IsChoice, Sized, IsOrder, TotalOf, MadeRoom, Less, Sum;
      BooksAre(rows, total, blobs);
      if total <= target {
        KeptAll(rows, recency, target, target, max, now, []);
        return 0, [], [];
      }
      var chosen, sum, hs;
      chosen, sum, hs, order := Pick(now);
      victims, freed := chosen, sum;
      GaveUp(rows, recency, target, target, max, now, order, chosen);
      BooksMinus(rows, total, blobs, hs, Less(total, sum), Less(blobs, |chosen|));
      rows, recency := rows - hs, recency - hs;
      total, blobs := Less(total, sum), Less(blobs, |chosen|);
    }

    // ---- ingest ---------------------------------------------------------------------------------

    /** A chunk row is new or refreshed.  Content names itself, so a row's length never changes. */
    method AddRow(h: Hash, now: nat)
      requires Valid()
      modifies this`rows, this`total, this`blobs
      ensures Valid() && rows == old(rows)[h := Stored(|h.of|, now)]
    {
      hide Books;
      var isNew := h !in rows;
      BooksAdd(rows, total, blobs, h, Stored(|h.of|, now));
      rows := rows[h := Stored(|h.of|, now)];
      if isNew { total, blobs := total + |h.of|, blobs + 1; }
    }

    /** Every other version of this file goes; every other file stays. */
    method DropStale(key: Key)
      modifies this`manifests
      ensures manifests == map k | k in old(manifests) && !Stale(k, key) :: old(manifests)[k]
    {
      manifests := map k | k in manifests && !Stale(k, key) :: manifests[k];
    }

    /** Keep one chunk of a version: its row, its place in the manifest, and room for it. */
    method IngestChunk(key: Key, off: nat, data: seq<byte>, now: nat)
      returns (ghost order: seq<Row>, ghost victims: seq<Row>)
      requires Valid()
      modifies this
      ensures Valid() && total <= max && (old(Ordered()) ==> Ordered())
      ensures (key in old(manifests) ==> Listed(old(manifests)[key])) ==>
                Recorded(old(manifests), manifests, key, RefOf((off, data)))
      ensures MadeRoom(RowsWith(old(rows), [RefOf((off, data))], now), Marked(old(recency), [RefOf((off, data))], now),
                       max, target, max, now, order, victims, rows, recency)
    {
      hide Books, TotalOf, Listed, HashSet, IsOrder, IsChoice, MadeRoom;
      var c := RefOf((off, data));
      AddRow(c.hash, now);
      RowsWithOne(old(rows), c, now);
      DropStale(key);
      var m := if key in manifests then manifests[key] else [];
      assert Listed([]) by { EmptyListed(); }
      var m' := Merge(m, c);
      manifests := manifests[key := m'];
      order, victims := MakeRoom([c], now);
    }

    /** Keep a chunk that no manifest names yet. */
    method PutBlob(data: seq<byte>, now: nat) returns (ghost order: seq<Row>, ghost victims: seq<Row>)
      requires Valid()
      modifies this
      ensures Valid() && total <= max && manifests == old(manifests)
      ensures MadeRoom(RowsWith(old(rows), [RefOf((0, data))], now), Marked(old(recency), [RefOf((0, data))], now),
                       max, target, max, now, order, victims, rows, recency)
    {
      hide Books, TotalOf, HashSet, IsOrder, IsChoice, MadeRoom;
      AddRow(Hash(data), now);
      RowsWithOne(old(rows), RefOf((0, data)), now);
      order, victims := MakeRoom([RefOf((0, data))], now);
    }

    /** Note the use, and evict only if the hard limit is passed. */
    method MakeRoom(used: seq<ChunkRef>, now: nat) returns (ghost order: seq<Row>, ghost victims: seq<Row>)
      requires Valid()
      modifies this
      ensures Valid() && total <= max && manifests == old(manifests)
      ensures MadeRoom(old(rows), Marked(old(recency), used, now), max, target, max, now, order, victims, rows, recency)
    {
      hide Books, TotalOf, HashSet, IsOrder, IsChoice;
      var i := 0;
      while i < |used|
        invariant 0 <= i <= |used| && Valid() && rows == old(rows) && manifests == old(manifests) && total == old(total)
        invariant recency == Marked(old(recency), used[..i], now)
      {
        recency := recency[used[i].hash := now];
        assert used[..i + 1][..i] == used[..i];
        i := i + 1;
      }
      assert used[..i] == used;
      order, victims := [], [];
      NothingGone(rows, recency);
      BooksAre(rows, total, blobs);
      if total > max {
        var freed;
        freed, order, victims := Evict(now);
      }
    }

    /** All chunks of one version at once: its manifest is replaced whole. */
    method IngestChunks(key: Key, chunks: seq<(nat, seq<byte>)>, now: nat)
      returns (ghost order: seq<Row>, ghost victims: seq<Row>)
      requires Valid()
      modifies this
      ensures Valid() && total <= max
      ensures forall k :: k in manifests <==> k == key || (k in old(manifests) && !Stale(k, key))
      ensures forall k :: k in manifests && k != key ==> manifests[k] == old(manifests)[k]
      ensures Ascending(manifests[key]) && forall off :: At(manifests[key], off) == At(RefsOf(chunks), off)
      ensures forall x :: Lists(manifests[key], x) <==> Lists(RefsOf(chunks), x)
      ensures (forall i, j :: 0 <= i < j < |chunks| ==> chunks[i].0 != chunks[j].0) ==>
                Listed(manifests[key]) && (old(Ordered()) ==> Ordered())
      ensures MadeRoom(RowsWith(old(rows), RefsOf(chunks), now), Marked(old(recency), RefsOf(chunks), now),
                       max, target, max, now, order, victims, rows, recency)
    {
      hide Books, TotalOf, HashSet, IsOrder, IsChoice, MadeRoom, At, Ascending, Lists, Listed;
      var refs: seq<ChunkRef> := [];
      var i := 0;
      while i < |chunks|
        invariant 0 <= i <= |chunks| && Valid() && manifests == old(manifests) && recency == old(recency)
        invariant refs == RefsOf(chunks[..i]) && rows == RowsWith(old(rows), refs, now)
      {
        AddRow(Hash(chunks[i].1), now);
        ghost var before := refs;
        refs := refs + [RefOf(chunks[i])];
        assert refs[..|refs| - 1] == before;
        assert RefsOf(chunks[..i + 1]) == refs;
        i := i + 1;
      }
      assert chunks[..i] == chunks;
      DropStale(key);
      var sorted := SortByOffset(refs);
      SortedLists(refs, sorted);
      manifests := manifests[key := sorted];
      order, victims := MakeRoom(refs, now);
    }

    // ---- reads --------------------------------------------------------------------------------------

    /** A read of a kept chunk is a use of it.  The stored time follows only if it may be an hour behind. */
    method Touch(h: Hash, now: nat)
      requires Valid()
      modifies this`rows, this`recency
      ensures Valid() && recency == old(recency)[h := now]
      ensures rows.Keys == old(rows).Keys && forall g :: g in rows && g != h ==> rows[g] == old(rows)[g]
      ensures h in rows ==>
                rows[h].at == if h in old(recency) && Less(now, old(recency)[h]) < 3600 then old(rows)[h].at else now
      ensures UsedAt(rows, recency, h, now)
      ensures forall g, t :: g != h ==> (UsedAt(rows, recency, g, t) <==> old(UsedAt(rows, recency, g, t)))
    {
      var stale := h !in recency || Less(now, recency[h]) >= ACCESS_WRITE_GRANULARITY;
      recency := recency[h := now];
      if stale && h in rows {
        BooksAdd(rows, total, blobs, h, Stored(rows[h].len, now));
        hide Books;
        rows := rows[h := Stored(rows[h].len, now)];
      }
    }

    // ---- drops and rebinds --------------------------------------------------------------------------

    /** A damaged chunk is forgotten; manifests that name it will miss. */
    method DropCorrupt(h: Hash)
      requires Valid()
      modifies this
      ensures Valid() && rows == old(rows) - {h} && recency == old(recency) - {h} && manifests == old(manifests)
    {
      hide Books;
      BooksDrop(rows, total, blobs, h);
      if h in rows {
        rows, total, blobs := rows - {h}, Less(total, rows[h].len), Less(blobs, 1);
      }
      recency := recency - {h};
    }

    /** A whole manifest, replacing every version of its file. */
    method PutManifest(key: Key, chunks: seq<ChunkRef>)
      requires Valid()
      modifies this`manifests
      ensures Valid() && (old(Ordered()) && Listed(chunks) ==> Ordered())
      ensures manifests == (map k | k in old(manifests) && !Stale(k, key) :: old(manifests)[k])[key := chunks]
    {
      DropStale(key);
      manifests := manifests[key := chunks];
    }

    /** What was gathered under one key becomes the content of another; nothing to move changes nothing. */
    method RebindManifest(from: Key, to: Key)
      requires Valid()
      modifies this`manifests
      ensures Valid() && (old(Ordered()) ==> Ordered())
      ensures from !in old(manifests) ==> manifests == old(manifests)
      ensures from in old(manifests) ==>
                && to in manifests && manifests[to] == old(manifests)[from] && (from != to ==> from !in manifests)
                && (forall k :: k != to ==> (k in manifests <==> k in old(manifests) && k != from && !Stale(k, to)))
                && (forall k :: k in manifests && k != to ==> manifests[k] == old(manifests)[k])
    {
      if from !in manifests { return; }
      var m := manifests[from];
      manifests := manifests - {from};
      DropStale(to);
      manifests := manifests[to := m];
    }

    /** What to give up, and what that does to the books. */
    method Pick(now: nat) returns (chosen: seq<Row>, sum: nat, hs: set<Hash>, ghost order: seq<Row>)
      requires Valid()
      ensures IsOrder(rows, recency, order) && IsChoice(order, total, target, max, now, chosen)
      ensures sum == Sum(chosen) && hs == HashSet(chosen)
      ensures TotalOf(rows.Keys - hs) == Less(total, sum) <= max && |rows.Keys - hs| == Less(blobs, |chosen|)
    {
      hide Books, Oldest, Distinct, HashSet, IsChoice, Sized, IsOrder, TotalOf;
      BooksAre(rows, total, blobs);
      var list := InOrder();
      order := list;
      chosen, sum := ChooseVictims(list, total, target, max, now);
      ChosenPrefix(list, total, target, max, now, chosen);
      hs := HashesOf(chosen);
      HashesAre(chosen, hs);
      GiveUp(list, chosen, rows.Keys);
      ChoiceFits(list, total, target, max, now, chosen);
      MinusKeys(rows, hs);
    }
  }

  lemma KeptAll(rows: map<Hash, Stored>, recency: map<Hash, nat>, limit: nat, target: nat, max: nat, now: nat,
                order: seq<Row>)
    requires TotalOf(rows.Keys) <= limit
    ensures MadeRoom(rows, recency, limit, target, max, now, order, [], rows, recency) && Sum([]) == 0
  {
    hide HashSet;
    NothingGone(rows, recency);
  }

  lemma GaveUp(rows: map<Hash, Stored>, recency: map<Hash, nat>, limit: nat, target: nat, max: nat, now: nat,
               order: seq<Row>, victims: seq<Row>)
    requires TotalOf(rows.Keys) > limit
    requires IsOrder(rows, recency, order) && IsChoice(order, TotalOf(rows.Keys), target, max, now, victims)
    ensures MadeRoom(rows, recency, limit, target, max, now, order, victims,
                     rows - HashSet(victims), recency - HashSet(victims))
  {}

  lemma RowsWithOne(rows: map<Hash, Stored>, c: ChunkRef, now: nat)
    ensures RowsWith(rows, [c], now) == rows[c.hash := Stored(c.len, now)]
  {
    assert [c][..0] == [];
    assert RowsWith(rows, [], now) == rows;
  }

  lemma NothingGone(rows: map<Hash, Stored>, recency: map<Hash, nat>)
    ensures HashSet([]) == {} && rows - {} == rows && recency - {} == recency
  {
    HashesAre([], {});
  }

  lemma MinusKeys(rows: map<Hash, Stored>, hs: set<Hash>)
    ensures (rows - hs).Keys == rows.Keys - hs && |rows - hs| == |rows.Keys - hs| && |rows| == |rows.Keys|
  {}

  lemma HashesAre(rows: seq<Row>, hs: set<Hash>)
    requires forall h :: h in hs <==> exists j :: 0 <= j < |rows| && rows[j].hash == h
    ensures hs == HashSet(rows)
  {
    forall h ensures h in hs <==> h in HashSet(rows) { InHashSet(rows, h); }
  }

  /** Into its place by last use, after those used at the same time. */
  method Insert(order: seq<Row>, row: Row) returns (more: seq<Row>)
    requires Oldest(order) && Distinct(order) && row.hash !in HashSet(order)
    ensures Oldest(more) && Distinct(more) && HashSet(more) == HashSet(order) + {row.hash}
    ensures forall i :: 0 <= i < |more| ==> more[i] == row || exists j :: 0 <= j < |order| && order[j] == more[i]
  {
    var i := 0;
    while i < |order| && order[i].last <= row.last
      invariant 0 <= i <= |order| && forall j :: 0 <= j < i ==> order[j].last <= row.last
    {
      i := i + 1;
    }
    var a, b := order[..i], order[i..];
    assert order == a + b;
    more := a + [row] + b;
    hide Oldest, Distinct, HashSet;
    InsertOldest(a, row, b);
    InsertDistinct(a, row, b);
    InsertedHashes(a, row, b);
  }

  lemma InsertedHashes(a: seq<Row>, row: Row, b: seq<Row>)
    ensures HashSet(a + [row] + b) == HashSet(a + b) + {row.hash}
    ensures forall i :: 0 <= i < |a + [row] + b| ==>
              (a + [row] + b)[i] == row || exists j :: 0 <= j < |a + b| && (a + b)[j] == (a + [row] + b)[i]
  {
    HashSetOne(row);
    HashSetConcat(a, b);
    HashSetConcat(a, [row]);
    HashSetConcat(a + [row], b);
    hide HashSet;
    var more := a + [row] + b;
    forall i | 0 <= i < |more| ensures more[i] == row || exists j :: 0 <= j < |a + b| && (a + b)[j] == more[i] {
      if i < |a| { assert (a + b)[i] == more[i]; }
      if i > |a| { assert (a + b)[i - 1] == more[i]; }
    }
  }

  lemma ChosenPrefix(rows: seq<Row>, total: nat, target: nat, max: nat, now: nat, victims: seq<Row>)
    requires IsChoice(rows, total, target, max, now, victims)
    ensures |victims| <= |rows| && victims == rows[..|victims|]
  {}

  /** Giving up a prefix of the list takes exactly its bytes and its chunks off the books. */
  lemma GiveUp(order: seq<Row>, victims: seq<Row>, hs: set<Hash>)
    requires Distinct(order) && Sized(order) && HashSet(order) == hs && |victims| <= |order|
    requires victims == order[..|victims|]
    ensures TotalOf(hs) == Sum(order) && TotalOf(hs - HashSet(victims)) == Less(TotalOf(hs), Sum(victims))
    ensures |hs| == |order| && |hs - HashSet(victims)| == |order| - |victims|
  {
    var rest := order[|victims|..];
    assert order == victims + rest;
    assert Sized(rest);
    hide HashSet, Distinct, Sized;
    SumConcat(victims, rest);
    TotalIsSum(order);
    DistinctSplit(victims, rest);
    TotalIsSum(rest);
    HashSetConcat(victims, rest);
    assert HashSet(rest) == hs - HashSet(victims);
  }
}
