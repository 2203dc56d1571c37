/** The assembler as the host runs it: its maps change in place with every event.  A staged or served
    replica is worked on as an object and put back. */
module Assemblers {
  import opened Types
  import opened Replicas
  import opened Collection
  import opened ReplicaRuns
  import opened ShareReplicas
  import opened Assemblies

  class Assembler {
    const roots: map<ShareId, NodeKey>
    var staging: map<ShareId, Stage>
    var expected: map<ShareId, nat>
    var served: map<ShareId, Share>
    var live: set<ShareId>
    ghost var log: map<ShareId, seq<Numbered>>
    ghost var seed: map<ShareId, nat>

    ghost function Value(): Host
      reads this
    {
      Host(roots, staging, expected, served, live, log, seed)
    }

    ghost predicate Valid()
      reads this
    {
      && (forall id :: id in staging ==> TablesWellFormed(staging[id].replica))
      && (forall id :: id in served ==> TablesWellFormed(served[id]))
    }

    constructor (roots: map<ShareId, NodeKey>, served: map<ShareId, Share>)
      requires forall id :: id in served ==> TablesWellFormed(served[id])
      ensures Valid() && Value() == Host(roots, map[], map[], served, {}, map[], map[])
    {
      this.roots, this.served := roots, served;
      staging, expected, live, log, seed := map[], map[], {}, map[], map[];
    }

    /** Start a snapshot over.  Live batches are no longer applied until it completes. */
    method Begin(share: ShareId, snapId: nat)
      requires Valid()
      modifies this
      ensures Valid() && Value() == Assemblies.Begin(old(Value()), share, snapId)
    {
      if share !in roots { return; }
      hide TablesWellFormed;
      EmptyTables(roots[share]);
      expected := expected - {share};
      staging := staging[share := Stage(snapId, NewShare(roots[share]), [])];
    }

    /** Start every share over. */
    method BeginAll(draw: map<ShareId, nat>)
      requires Valid()
      modifies this
      ensures Valid() && Value() == Assemblies.BeginAll(old(Value()), draw)
    {
      hide TablesWellFormed, BeginEach, Assemblies.Begin;
      ghost var before := Value();
      ghost var begun: set<ShareId> := {};
      BeginNone(before, draw);
      var left := roots.Keys;
      while left != {}
        invariant begun + left == roots.Keys && Valid()
        invariant Value() == BeginEach(before, draw, begun)
        decreases |left|
      {
        var id :| id in left;
        BeginOneMore(before, draw, begun, id);
        Begin(id, Drawn(draw, id));
        left, begun := left - {id}, begun + {id};
      }
      assert begun == roots.Keys;
    }

    method OnPiece(share: ShareId, r: SnapDir)
      requires Valid() && r.dirAttr.kind == Dir
      modifies this
      ensures Valid() && Value() == Assemblies.OnPiece(old(Value()), share, r)
    {
      hide TablesWellFormed, ApplySnapDir;
      if share in staging && staging[share].snapId == r.snapId {
        var replica := new ShareReplica.Of(staging[share].replica);
        replica.ApplySnapDir(r);
        staging := staging[share := staging[share].(replica := replica.Value())];
      }
    }

    /** A batch: everything starts over if events were lost; a staging share holds it back; a live share
        applies it if it is the one expected, and starts over if it is not. */
    method OnJournal(b: Batch, dirty: set<NodeKey>, draw: map<ShareId, nat>)
      requires Valid()
      modifies this
      ensures Valid() && Value() == Assemblies.OnJournal(old(Value()), b, dirty, draw)
    {
      hide TablesWellFormed, LiveRecs, Assemblies.Begin, Assemblies.BeginAll, Overflows, Number;
      var id := b.share;
      if id == ALL_SHARES {
        BeginAll(draw);
        return;
      }
      if id in staging {
        staging := staging[id := staging[id].(buf := staging[id].buf + [b])];
        return;
      }
      if id !in served || id !in live || id !in expected { return; }
      if expected[id] != SEQ_ADOPT && b.firstSeq != expected[id] {
        Begin(id, Drawn(draw, id));
        return;
      }
      ghost var before := Value();
      expected := expected[id := SeqAfter(b)];
      var replica := new ShareReplica.Of(served[id]);
      var overflow := ApplyLiveBatch(replica, b.records, dirty);
      served := served[id := replica.Value()];
      log := log[id := Log(before, id) + Number(b)];
      assert Value() == Applied(before, b, dirty);
      if overflow { Begin(id, Drawn(draw, id)); }
    }

    /** The snapshot's end: count, replay what was held back, swap, and know what comes next. */
    method FinishSeed(share: ShareId, snapId: nat)
      requires Valid()
      modifies this
      ensures Valid() && Value() == Assemblies.FinishSeed(old(Value()), share, snapId)
    {
      hide TablesWellFormed, Edges;
      if share !in staging || staging[share].snapId != snapId { return; }
      var s := staging[share];
      staging := staging - {share};
      var replica := new ShareReplica.Of(s.replica);
      replica.FinishSnapshot();
      CountedTables(s.replica, replica.Value());
      EdgesIgnoreCounters(s.replica, replica.entryCount);
      assert replica.Value() == Recounted(s.replica);
      var next := ReplayAll(replica, s.buf);
      if share in served {
        served := served[share := replica.Value()];
        live := live + {share};
      }
      expected := expected[share := next];
      log, seed := log[share := []], seed[share := next];
    }
  }

  /** One event, whole. */
  method Deliver(a: Assembler, e: Event)
    requires a.Valid() && Decodes(e)
    modifies a
    ensures a.Valid() && a.Value() == OnEvent(old(a.Value()), e)
  {
    hide TablesWellFormed, FinishSeed, OnPiece, OnJournal, Begin;
    match e
    case Begins(share, snapId) => a.Begin(share, snapId);
    case SnapPiece(share, piece) => a.OnPiece(share, piece);
    case SnapDone(share, snapId) => a.FinishSeed(share, snapId);
    case JournalEvent(batch, dirty, draw) => a.OnJournal(batch, dirty, draw);
  }

  /** One live record.  An echo of the host's own change to content or attributes is dropped. */
  method ApplyLive(replica: ShareReplica, rec: Rec, dirty: set<NodeKey>) returns (overflow: bool)
    requires replica.Valid()
    modifies replica
    ensures replica.Valid() && replica.Value() == LiveRec(old(replica.Value()), rec, dirty)
    ensures overflow == NeedsResync(rec)
  {
    hide TablesWellFormed, ApplyRec;
    var echo := IsEcho(replica.Value(), rec, dirty);
    if echo && (rec.Content? || rec.AttrChanged?) { return false; }
    overflow := replica.ApplyRec(rec);
    var ds := Parents(rec, dirty, echo);
    ghost var s := replica.Value();
    var i := 0;
    while i < |ds|
      invariant 0 <= i <= |ds| && replica.Valid()
      invariant BumpAll(replica.Value(), ds[i..]) == BumpAll(s, ds)
    {
      assert ds[i..][0] == ds[i] && ds[i..][1..] == ds[i + 1..];
      replica.BumpDirAttr(ds[i]);
      i := i + 1;
    }
  }

  method ApplyLiveBatch(replica: ShareReplica, recs: seq<Rec>, dirty: set<NodeKey>) returns (overflow: bool)
    requires replica.Valid()
    modifies replica
    ensures replica.Valid() && replica.Value() == LiveRecs(old(replica.Value()), recs, dirty)
    ensures overflow == Overflows(recs)
  {
    hide TablesWellFormed, LiveRec, NeedsResync;
    overflow := false;
    ghost var s := replica.Value();
    var i := 0;
    while i < |recs|
      invariant 0 <= i <= |recs| && replica.Valid()
      invariant LiveRecs(replica.Value(), recs[i..], dirty) == LiveRecs(s, recs, dirty)
      invariant overflow <==> exists j :: 0 <= j < i && NeedsResync(recs[j])
    {
      assert recs[i..][0] == recs[i] && recs[i..][1..] == recs[i + 1..];
      var more := ApplyLive(replica, recs[i], dirty);
      overflow := overflow || more;
      i := i + 1;
    }
  }

  lemma EmptyTables(root: NodeKey)
    ensures TablesWellFormed(NewShare(root))
  {}

  lemma CountedTables(s: Share, s': Share)
    requires TablesWellFormed(s) && s' == s.(entryCount := s'.entryCount)
    ensures TablesWellFormed(s')
  {}

  /** Every held-back record in order, and the number after the last. */
  method ReplayAll(replica: ShareReplica, buf: seq<Batch>) returns (next: nat)
    requires replica.Valid()
    modifies replica
    ensures replica.Valid() && replica.Value() == Replay(old(replica.Value()), buf)
    ensures next == NextSeq(SEQ_ADOPT, buf)
  {
    hide TablesWellFormed, ApplyRec;
    next := SEQ_ADOPT;
    ghost var s := replica.Value();
    var i := 0;
    while i < |buf|
      invariant 0 <= i <= |buf| && replica.Valid()
      invariant Replay(replica.Value(), buf[i..]) == Replay(s, buf)
      invariant NextSeq(next, buf[i..]) == NextSeq(SEQ_ADOPT, buf)
    {
      assert buf[i..][0] == buf[i] && buf[i..][1..] == buf[i + 1..];
      ReplayBatch(replica, buf[i].records);
      var end := SeqAfter(buf[i]);
      next := if next == SEQ_ADOPT || next < end then end else next;
      i := i + 1;
    }
  }

  method ReplayBatch(replica: ShareReplica, recs: seq<Rec>)
    requires replica.Valid()
    modifies replica
    ensures replica.Valid() && replica.Value() == ApplyRecs(old(replica.Value()), recs)
  {
    hide TablesWellFormed, ApplyRec;
    ghost var s := replica.Value();
    var i := 0;
    while i < |recs|
      invariant 0 <= i <= |recs| && replica.Valid()
      invariant ApplyRecs(replica.Value(), recs[i..]) == ApplyRecs(s, recs)
    {
      assert recs[i..][0] == recs[i] && recs[i..][1..] == recs[i + 1..];
      var _ := replica.ApplyRec(recs[i]);
      i := i + 1;
    }
  }
}
