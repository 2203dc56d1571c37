/** From the guest's disk to what the host serves. */
module EndToEnd {
  import opened Types
  import opened Replicas
  import opened Collection
  import opened FileTrees
  import opened GuestHistories
  import opened GuestPaths
  import opened ConsistentCuts
  import opened Seeding
  import opened WalkRuns
  import opened JournalBatches
  import opened LiveReplicas
  import A = Assemblies

  /** The path resolves as at the guest in the end: to the same object, of the same kind, and a directory is
      listed in full. */
  ghost predicate ServesPath(h: History, s: Share, path: seq<Name>)
    requires Guest(h)
  {
    var found := Resolve(s, s.root, path);
    && found == Walk(Last(h).dirs, Last(h).root, path)
    && (found.Some? ==> ServesNode(Last(h), s, found.value))
  }

  ghost predicate ServesNode(fs: Fs, s: Share, k: NodeKey) {
    && k in fs.kinds && k in s.nodes && s.nodes[k].attr.kind == fs.kinds[k]
    && (k in fs.dirs ==> HasDir(s, k) && s.nodes[k].dir.value.complete)
  }

  /** The host once a snapshot begun, and then these events, is completed. */
  ghost function Seeded(host: A.Host, es: seq<A.Event>, share: ShareId, snapId: nat): A.Host
    requires A.Uninterrupted(es, share, snapId)
  {
    A.FinishSeed(A.OnEvents(A.Begin(host, share, snapId), es), share, snapId)
  }

  /** A snapshot of a share: its walk races the guest, its pieces and the journal arrive interleaved in any
      way, and once it completes the host serves the guest's tree as of the last record. */
  lemma SeedServesGuestTree(h: History, c: Setup, ws: seq<Walker>, items: seq<Item>,
                            host: A.Host, es: seq<A.Event>, share: ShareId, path: seq<Name>)
    requires Guest(h) && DirsNamedOnce(h.states[0]) && WalkRun(h, c, ws) && Done(ws[|ws| - 1])
    requires share != A.ALL_SHARES && share in host.served && share in host.roots && host.roots[share] == Last(h).root
    requires A.Uninterrupted(es, share, c.snapId)
    requires multiset(A.PiecesOf(es, share, c.snapId)) == multiset(ws[|ws| - 1].out)
    requires Tells(h, 0, |h.ops|, items) && A.RecordsIn(A.BatchesOf(es, share)) == RecordsOf(items)
    ensures var host' := Seeded(host, es, share, c.snapId);
            share in host'.served && share in host'.live && ServesPath(h, host'.served[share], path)
  {
    hide Guest, DirsNamedOnce, WalkRun, Done, Tells, A.OnEvents, A.FinishSeed, A.Begin, A.Uninterrupted, Resolve, Walk;
    A.SeedServes(host, es, share, c.snapId);
    RacingWalk(h, c, ws, A.PiecesOf(es, share, c.snapId), items, path);
  }

  /** And it goes on doing so.  The guest cuts its stream into batches `bs`.  Events `before` build the snapshot,
      while batches `p` to `q` arrive; events `after` bring further batches, any of them in any order, and the
      share stays live: its sequence check never fails.  Then what was applied is the stream from batch `q` on,
      and the host serves the guest's tree as of the last record applied, whatever the host took for its own
      changes.  (With no batch held back there is no number to check the next one against, so it must be batch
      `q`.) */
  lemma ServedFollowsGuest(h: History, c: Setup, ws: seq<Walker>, bs: seq<Batch>, p: nat, q: nat,
                           held: seq<Item>, live: seq<Item>, j: nat,
                           host: A.Host, before: seq<A.Event>, after: seq<A.Event>, share: ShareId, path: seq<Name>)
    requires Guest(h) && DirsNamedOnce(h.states[0]) && WalkRun(h, c, ws) && Done(ws[|ws| - 1])
    requires share != A.ALL_SHARES && share in host.served && share in host.roots && host.roots[share] == Last(h).root
    requires NumberedFrom(bs, 1) && |Flatten(bs)| + 1 < A.SEQ_ADOPT && p <= q <= |bs|
    requires A.Uninterrupted(before, share, c.snapId) && A.BatchesOf(before, share) == bs[p..q]
    requires multiset(A.PiecesOf(before, share, c.snapId)) == multiset(ws[|ws| - 1].out)
    requires forall i :: 0 <= i < |after| && after[i].JournalEvent? && after[i].batch.share == share ==>
               after[i].batch in bs
    requires p == q && A.BatchesOf(after, share) != [] ==>
               A.BatchesOf(after, share)[0].firstSeq == 1 + |Flatten(bs[..q])|
    requires StaysLive(Seeded(host, before, share, c.snapId), after, share)
    requires Tells(h, 0, j, held) && Flatten(bs[..p]) + RecordsOf(held) == Flatten(bs[..q])
    requires Tells(h, j, |h.ops|, live) && Flatten(bs[..q]) + RecordsOf(live) <= Flatten(bs)
    requires |RecordsOf(live)| == |A.RecordsIn(A.BatchesOf(after, share))|
    ensures forall i :: 0 <= i < |after| ==> A.Decodes(after[i])
    ensures var host' := A.OnEvents(Seeded(host, before, share, c.snapId), after);
            share in host'.served && ServesPath(h, host'.served[share], path)
  {
    var seeded := Seeded(host, before, share, c.snapId);
    hide Guest, DirsNamedOnce, WalkRun, Done, Tells, A.OnEvents, A.FinishSeed, A.Begin, Cut, LiveReplay, Resolve, Walk,
         StaysLive, RecordsOf, A.Uninterrupted, A.PiecesOf, NumberedFrom, Awaits;
    HeldBack(bs, p, q, A.SEQ_ADOPT);
    assert A.RecordsIn(bs[p..q]) == RecordsOf(held) by {
      SameRest(Flatten(bs[..p]), A.RecordsIn(bs[p..q]), RecordsOf(held));
    }
    SeededCut(h, c, ws, held, j, host, before, share);
    SeedAwaits(host, before, after, share, c.snapId, bs, p, q);
    LiveArrivals(seeded, after, share, bs, q);
    assert A.RecordsIn(A.BatchesOf(after, share)) == RecordsOf(live) by {
      SamePiece(Flatten(bs), Flatten(bs[..q]), A.RecordsIn(A.BatchesOf(after, share)), RecordsOf(live));
    }
    LiveServes(seeded, after, share);
    LiveCut(h, j, |h.ops|, seeded.served[share], live, OwnOf(after, share));
    CutServes(h, A.OnEvents(seeded, after).served[share], path);
  }

  lemma SameRest(a: seq<Rec>, b: seq<Rec>, c: seq<Rec>)
    requires a + b == a + c
    ensures b == c
  {
    assert b == (a + b)[|a|..] && c == (a + c)[|a|..];
  }

  lemma SamePiece(stream: seq<Rec>, a: seq<Rec>, b: seq<Rec>, c: seq<Rec>)
    requires a + b <= stream && a + c <= stream && |b| == |c|
    ensures b == c
  {
    SameRest(a, b, c);
  }

  /** After the snapshot the host waits for the batch that follows those it held back. */
  lemma SeedAwaits(host: A.Host, before: seq<A.Event>, after: seq<A.Event>, share: ShareId, snapId: nat,
                   bs: seq<Batch>, p: nat, q: nat)
    requires share != A.ALL_SHARES && share in host.served && share in host.roots
    requires A.Uninterrupted(before, share, snapId)
    requires NumberedFrom(bs, 1) && p <= q <= |bs| && A.BatchesOf(before, share) == bs[p..q]
    requires p == q && A.BatchesOf(after, share) != [] ==>
               A.BatchesOf(after, share)[0].firstSeq == 1 + |Flatten(bs[..q])|
    ensures var seeded := Seeded(host, before, share, snapId);
            Awaits(seeded, after, share, 1 + |Flatten(bs[..q])|)
  {
    var host0 := A.Begin(host, share, snapId);
    assert share in host0.staging && host0.staging[share].snapId == snapId && host0.staging[share].buf == [];
    hide A.Begin, A.OnEvents, A.Uninterrupted, A.PiecesOf, ApplySnapDirs, A.FinishSeed, NumberedFrom, Flatten,
         A.NextSeq,
         A.BatchesOf;
    A.Staged(host0, before, share, snapId);
    assert [] + bs[p..q] == bs[p..q];
    FinishExpects(A.OnEvents(host0, before), share, snapId);
    HeldBack(bs, p, q, A.SEQ_ADOPT);
  }

  lemma FinishExpects(host: A.Host, share: ShareId, snapId: nat)
    requires share in host.staging && host.staging[share].snapId == snapId
    ensures A.At(A.FinishSeed(host, share, snapId).expected, share)
         == Some(A.NextSeq(A.SEQ_ADOPT, host.staging[share].buf))
  {
    hide A.Replay, A.Recounted, A.NextSeq;
  }

  lemma LiveArrivals(host: A.Host, after: seq<A.Event>, share: ShareId, bs: seq<Batch>, q: nat)
    requires NumberedFrom(bs, 1) && |Flatten(bs)| + 1 < A.SEQ_ADOPT && q <= |bs|
    requires forall i :: 0 <= i < |after| && after[i].JournalEvent? && after[i].batch.share == share ==>
               after[i].batch in bs
    requires StaysLive(host, after, share) && share in host.served && share !in host.staging
    requires Awaits(host, after, share, 1 + |Flatten(bs[..q])|)
    ensures Flatten(bs[..q]) + A.RecordsIn(A.BatchesOf(after, share)) <= Flatten(bs)
  {
    hide StaysLive, Awaits, NumberedFrom, Flatten;
    var stream := Flatten(bs);
    forall i | 0 <= i < |after| ensures A.FromStream(after[i], stream, share) {
      if after[i].JournalEvent? && after[i].batch.share == share {
        var k :| 0 <= k < |bs| && bs[k] == after[i].batch;
        BatchesGenuine(bs, k);
      }
    }
    FlattenWithin(bs, q, |bs|);
    assert bs[..|bs|] == bs;
    InSequence(host, after, share, stream, 1 + |Flatten(bs[..q])|);
    assert stream == Flatten(bs[..q]) + stream[|Flatten(bs[..q])|..];
  }

  /** What a completed snapshot serves is right up to the last event buffered. */
  lemma SeededCut(h: History, c: Setup, ws: seq<Walker>, held: seq<Item>, j: nat,
                  host: A.Host, es: seq<A.Event>, share: ShareId)
    requires Guest(h) && DirsNamedOnce(h.states[0]) && WalkRun(h, c, ws) && Done(ws[|ws| - 1])
    requires share != A.ALL_SHARES && share in host.served && share in host.roots && host.roots[share] == Last(h).root
    requires A.Uninterrupted(es, share, c.snapId)
    requires multiset(A.PiecesOf(es, share, c.snapId)) == multiset(ws[|ws| - 1].out)
    requires Tells(h, 0, j, held) && A.RecordsIn(A.BatchesOf(es, share)) == RecordsOf(held)
    ensures var host' := Seeded(host, es, share, c.snapId);
            && share in host'.served && share in host'.live && share !in host'.staging
            && j <= |h.ops| && Cut(h, j, host'.served[share])
  {
    var w, rs := ws[|ws| - 1], A.PiecesOf(es, share, c.snapId);
    hide Guest, DirsNamedOnce, WalkRun, Done, Tells, A.OnEvents, A.FinishSeed, A.Begin, A.Uninterrupted, A.PiecesOf,
         Cut,
         ApplyRecs, ApplySnapDirs, WalkInv, Covers, RecordsOf;
    A.SeedServes(host, es, share, c.snapId);
    WalkKeepsInv(h, c, ws);
    WalkGood(h, c, w, rs);
    WalkCovers(h, c, w, rs);
    SeedCut(h, rs);
    ReplayCut(h, 0, j, ApplySnapDirs(NewShare(Last(h).root), rs), held);
  }

  lemma CutServes(h: History, s: Share, path: seq<Name>)
    requires Guest(h) && Cut(h, |h.ops|, s)
    ensures ServesPath(h, s, path)
  {
    assert Last(h).root in Last(h).kinds by { StatesWellShaped(h, |h.ops|); }
    CutPaths(h, s, Last(h).root, path);
    hide Guest, Accounted, TablesWellFormed, SlotsAt, KindsRight;
  }
}
