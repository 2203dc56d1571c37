/** After the seed: live records keep the served replica at the guest's tree, and the nudges to directory
    times and the echoes that are dropped never show in it. */
module LiveReplicas {
  import opened Types
  import opened DirViews
  import opened Replicas
  import opened ReplicaInvariants
  import opened GuestHistories
  import opened ConsistentCuts
  import opened JournalBatches
  import A = Assemblies

  // ---- nudges ------------------------------------------------------------------------------------

  predicate Earlier(a: Ts, b: Ts) {
    a.sec < b.sec || (a.sec == b.sec && a.nsec < b.nsec)
  }

  /** A nudge moves a known directory's times strictly forward, both alike, and touches nothing else. */
  lemma BumpMovesOn(s: Share, d: NodeKey)
    ensures Quiet(s, BumpDirAttr(s, d))
    ensures BumpDirAttr(s, d).nodes.Keys == s.nodes.Keys
    ensures forall k :: k in s.nodes && (k != d || s.nodes[k].attr.kind != Dir) ==>
              BumpDirAttr(s, d).nodes[k] == s.nodes[k]
    ensures d in s.nodes && s.nodes[d].attr.kind == Dir ==>
              var a, b := s.nodes[d].attr, BumpDirAttr(s, d).nodes[d].attr;
              Earlier(a.mtime, b.mtime) && b.ctime == b.mtime && b == a.(mtime := b.mtime, ctime := b.ctime)
  {
    if d in s.nodes && s.nodes[d].attr.kind == Dir {
      NodeEditQuiet(s, d, BumpDirAttr(s, d).nodes[d]);
    } else {
      QuietNothing(s);
    }
    hide Quiet;
  }

  lemma BumpGentle(h: History, s: Share, d: NodeKey)
    requires Guest(h)
    ensures Gentle(h, s, BumpDirAttr(s, d))
  {
    hide Guest, Quiet;
    BumpMovesOn(s, d);
  }

  lemma {:induction false} BumpAllGentle(h: History, s: Share, ds: seq<NodeKey>)
    requires Guest(h)
    ensures Gentle(h, s, A.BumpAll(s, ds))
    decreases |ds|
  {
    hide Guest, Gentle, BumpDirAttr;
    if ds == [] {
      GentleNothing(h, s);
    } else {
      BumpGentle(h, s, ds[0]);
      BumpAllGentle(h, BumpDirAttr(s, ds[0]), ds[1..]);
      GentleThen(h, s, BumpDirAttr(s, ds[0]), A.BumpAll(s, ds));
    }
  }

  // ---- live records against the guest's history ------------------------------------------------------

  /** One record of the guest's, applied live: only a record beside the names can be dropped as an echo. */
  lemma LiveRecCut(h: History, i: nat, s: Share, rec: Rec, dirty: set<NodeKey>)
    requires Guest(h) && i <= |h.ops| && Cut(h, i, ApplyRec(s, rec))
    requires (rec.Content? || rec.AttrChanged? ==> Cut(h, i, s))
    ensures Cut(h, i, A.LiveRec(s, rec, dirty))
  {
    hide Guest, Cut, ApplyRec, A.IsEcho, A.Parents;
    var ds := A.Parents(rec, dirty, A.IsEcho(s, rec, dirty));
    BumpAllGentle(h, ApplyRec(s, rec), ds);
    GentleCut(h, i, ApplyRec(s, rec), A.BumpAll(ApplyRec(s, rec), ds));
  }

  /** Live records one after another, each with what was the host's own at the time. */
  ghost function LiveReplay(s: Share, recs: seq<Rec>, dirty: seq<set<NodeKey>>): Share
    requires |dirty| == |recs|
    decreases |recs|
  {
    if recs == [] then s else LiveReplay(A.LiveRec(s, recs[0], dirty[0]), recs[1..], dirty[1..])
  }

  lemma {:induction false} LiveCut(h: History, i: nat, j: nat, s: Share, items: seq<Item>, dirty: seq<set<NodeKey>>)
    requires Guest(h) && i <= |h.ops| && Cut(h, i, s) && Tells(h, i, j, items) && |dirty| == |RecordsOf(items)|
    ensures j <= |h.ops| && Cut(h, j, LiveReplay(s, RecordsOf(items), dirty))
    decreases |items|
  {
    hide Guest, Cut, RecordOf, Aside, A.LiveRec, ApplyRec;
    if items != [] {
      var rest := RecordsOf(items[1..]);
      match items[0]
      case Change(None) =>
        ChangeCut(h, i, s, None);
        assert RecordsOf(items) == rest;
        LiveCut(h, i + 1, j, s, items[1..], dirty);
      case Change(Some(rec)) =>
        ChangeCut(h, i, s, Some(rec));
        ChangesNames(h, i, rec);
        assert RecordsOf(items) == [rec] + rest;
        LiveRecCut(h, i + 1, s, rec, dirty[0]);
        LiveCut(h, i + 1, j, A.LiveRec(s, rec, dirty[0]), items[1..], dirty[1..]);
      case Other(rec) =>
        AsideCut(h, i, s, rec);
        assert RecordsOf(items) == [rec] + rest;
        LiveRecCut(h, i, s, rec, dirty[0]);
        LiveCut(h, i, j, A.LiveRec(s, rec, dirty[0]), items[1..], dirty[1..]);
    }
  }

  lemma ChangesNames(h: History, i: nat, rec: Rec)
    requires Guest(h) && i < |h.ops| && RecordOf(h, i, Some(rec))
    ensures !rec.Content? && !rec.AttrChanged?
  {}

  // ---- and through the assembler ---------------------------------------------------------------------

  function Repeat(d: set<NodeKey>, n: nat): seq<set<NodeKey>>
    decreases n
  {
    if n == 0 then [] else [d] + Repeat(d, n - 1)
  }

  lemma {:induction false} RepeatLen(d: set<NodeKey>, n: nat)
    ensures |Repeat(d, n)| == n
    decreases n
  {
    if n > 0 { RepeatLen(d, n - 1); }
  }

  lemma {:induction false} LiveBatchIs(s: Share, recs: seq<Rec>, d: set<NodeKey>)
    ensures |Repeat(d, |recs|)| == |recs| && A.LiveRecs(s, recs, d) == LiveReplay(s, recs, Repeat(d, |recs|))
    decreases |recs|
  {
    hide A.LiveRec;
    RepeatLen(d, |recs|);
    if recs != [] {
      LiveBatchIs(A.LiveRec(s, recs[0], d), recs[1..], d);
      assert Repeat(d, |recs|)[1..] == Repeat(d, |recs| - 1);
    }
  }

  lemma {:induction false} LiveReplaySplit(s: Share, a: seq<Rec>, b: seq<Rec>, da: seq<set<NodeKey>>,
                                           db: seq<set<NodeKey>>)
    requires |da| == |a| && |db| == |b|
    ensures LiveReplay(s, a + b, da + db) == LiveReplay(LiveReplay(s, a, da), b, db)
    decreases |a|
  {
    hide A.LiveRec;
    if a == [] {
      assert a + b == b && da + db == db;
    } else {
      assert (a + b)[0] == a[0] && (a + b)[1..] == a[1..] + b;
      assert (da + db)[0] == da[0] && (da + db)[1..] == da[1..] + db;
      LiveReplaySplit(A.LiveRec(s, a[0], da[0]), a[1..], b, da[1..], db);
    }
  }

  /** What the host took for its own, record by record. */
  function OwnOf(es: seq<A.Event>, share: ShareId): seq<set<NodeKey>>
    decreases |es|
  {
    if es == [] then []
    else if es[0].JournalEvent? && es[0].batch.share == share
    then Repeat(es[0].dirty, |es[0].batch.records|) + OwnOf(es[1..], share)
    else OwnOf(es[1..], share)
  }

  lemma {:induction false} OwnLen(es: seq<A.Event>, share: ShareId)
    ensures |OwnOf(es, share)| == |A.RecordsIn(A.BatchesOf(es, share))|
    decreases |es|
  {
    if es != [] {
      OwnLen(es[1..], share);
      if es[0].JournalEvent? && es[0].batch.share == share {
        RepeatLen(es[0].dirty, |es[0].batch.records|);
        assert A.BatchesOf(es, share)[1..] == A.BatchesOf(es[1..], share);
      }
    }
  }

  /** The share stays live along these events: its batches come in sequence and none reports an overflow. */
  ghost predicate StaysLive(host: A.Host, es: seq<A.Event>, share: ShareId)
    decreases |es|
  {
    es == [] ||
      (&& A.Decodes(es[0]) && !A.Restarts(es[0], share)
       && (es[0].JournalEvent? && es[0].batch.share == share ==>
             A.Accepts(host, es[0].batch) && !A.Overflows(es[0].batch.records))
       && StaysLive(A.OnEvent(host, es[0]), es[1..], share))
  }

  lemma {:induction false} LiveDecodes(host: A.Host, es: seq<A.Event>, share: ShareId)
    requires StaysLive(host, es, share)
    ensures forall i :: 0 <= i < |es| ==> A.Decodes(es[i])
    decreases |es|
  {
    hide A.OnEvent;
    if es != [] { LiveDecodes(A.OnEvent(host, es[0]), es[1..], share); }
  }

  lemma LiveStep(host: A.Host, e: A.Event, share: ShareId)
    requires A.Decodes(e) && !A.Restarts(e, share) && share in host.served && share !in host.staging
    requires e.JournalEvent? && e.batch.share == share ==> A.Accepts(host, e.batch) && !A.Overflows(e.batch.records)
    ensures var host' := A.OnEvent(host, e);
            && share in host'.served && share !in host'.staging
            && host'.served[share] == if e.JournalEvent? && e.batch.share == share
                                      then A.LiveRecs(host.served[share], e.batch.records, e.dirty)
                                      else host.served[share]
  {
    hide A.LiveRecs, A.Replay, A.Begin, A.Overflows, A.Number, A.BeginAll;
    if e.Begins? { A.BeginIs(host, e.share, e.snapId, share); }
    if e.JournalEvent? {
      var b := e.batch;
      A.BeginIs(host, b.share, A.Drawn(e.draw, b.share), share);
      if A.Accepts(host, b) {
        A.AppliedIs(host, b, e.dirty, share);
        A.BeginIs(A.Applied(host, b, e.dirty), b.share, A.Drawn(e.draw, b.share), share);
      }
    }
  }

  /** What a live share serves is its records, applied live in order of arrival. */
  lemma {:induction false} LiveServes(host: A.Host, es: seq<A.Event>, share: ShareId)
    requires StaysLive(host, es, share) && share in host.served && share !in host.staging
    ensures forall i :: 0 <= i < |es| ==> A.Decodes(es[i])
    ensures |OwnOf(es, share)| == |A.RecordsIn(A.BatchesOf(es, share))|
    ensures var host' := A.OnEvents(host, es);
            && share in host'.served
            && host'.served[share]
               == LiveReplay(host.served[share], A.RecordsIn(A.BatchesOf(es, share)), OwnOf(es, share))
    decreases |es|
  {
    LiveDecodes(host, es, share);
    OwnLen(es, share);
    if es != [] {
      var e, s := es[0], host.served[share];
      LiveStep(host, e, share);
      hide A.OnEvent, A.LiveRec, A.Accepts, A.Overflows;
      LiveServes(A.OnEvent(host, e), es[1..], share);
      OwnLen(es[1..], share);
      if e.JournalEvent? && e.batch.share == share {
        var recs, own := e.batch.records, Repeat(e.dirty, |e.batch.records|);
        LiveBatchIs(s, recs, e.dirty);
        assert A.BatchesOf(es, share) == [e.batch] + A.BatchesOf(es[1..], share);
        assert A.BatchesOf(es, share)[1..] == A.BatchesOf(es[1..], share);
        LiveReplaySplit(s, recs, A.RecordsIn(A.BatchesOf(es[1..], share)), own, OwnOf(es[1..], share));
      }
    }
  }

  // ---- the guest's stream, batch by batch --------------------------------------------------------------

  lemma LiveExpects(host: A.Host, e: A.Event, share: ShareId)
    requires A.Decodes(e) && !A.Restarts(e, share) && share !in host.staging
    requires e.JournalEvent? && e.batch.share == share ==> A.Accepts(host, e.batch) && !A.Overflows(e.batch.records)
    ensures A.At(A.OnEvent(host, e).expected, share)
         == if e.JournalEvent? && e.batch.share == share then Some(A.SeqAfter(e.batch)) else A.At(host.expected, share)
  {
    hide A.LiveRecs, A.Replay, A.Begin, A.Overflows, A.Number, A.BeginAll, A.Log;
    if e.Begins? { A.BeginIs(host, e.share, e.snapId, share); }
    if e.JournalEvent? {
      var b := e.batch;
      A.BeginIs(host, b.share, A.Drawn(e.draw, b.share), share);
      if A.Accepts(host, b) {
        A.AppliedIs(host, b, e.dirty, share);
        A.BeginIs(A.Applied(host, b, e.dirty), b.share, A.Drawn(e.draw, b.share), share);
      }
    }
  }

  /** Record `next` is due: the host waits for it, or waits for nothing and it is what comes. */
  ghost predicate Awaits(host: A.Host, es: seq<A.Event>, share: ShareId, next: nat) {
    || A.At(host.expected, share) == Some(next)
    || (A.At(host.expected, share) == Some(A.SEQ_ADOPT)
        && (A.BatchesOf(es, share) != [] ==> A.BatchesOf(es, share)[0].firstSeq == next))
  }

  /** Whichever genuine batches come, in whatever order: those a live share takes are the stream from `next` on. */
  lemma {:induction false} InSequence(host: A.Host, es: seq<A.Event>, share: ShareId, stream: seq<Rec>, next: nat)
    requires StaysLive(host, es, share) && share in host.served && share !in host.staging
    requires |stream| + 1 < A.SEQ_ADOPT && forall i :: 0 <= i < |es| ==> A.FromStream(es[i], stream, share)
    requires 1 <= next <= |stream| + 1 && Awaits(host, es, share, next)
    ensures A.RecordsIn(A.BatchesOf(es, share)) <= stream[next - 1..]
    decreases |es|
  {
    if es != [] {
      var e, host' := es[0], A.OnEvent(host, es[0]);
      LiveStep(host, e, share);
      LiveExpects(host, e, share);
      assert A.FromStream(e, stream, share);
      assert forall i :: 0 <= i < |es[1..]| ==> es[1..][i] == es[i + 1];
      hide A.OnEvent, A.LiveRecs, A.Overflows, A.FromStream;
      if e.JournalEvent? && e.batch.share == share {
        var b, rest := e.batch, A.BatchesOf(es[1..], share);
        assert b.firstSeq == next by { AcceptedNext(host, es, share, next); }
        BatchPiece(e, stream, share);
        InSequence(host', es[1..], share, stream, A.SeqAfter(b));
        assert A.BatchesOf(es, share) == [b] + rest && A.BatchesOf(es, share)[1..] == rest;
        assert A.RecordsIn(A.BatchesOf(es, share)) == b.records + A.RecordsIn(rest);
      } else {
        InSequence(host', es[1..], share, stream, next);
      }
    }
  }

  lemma BatchPiece(e: A.Event, stream: seq<Rec>, share: ShareId)
    requires A.FromStream(e, stream, share) && e.JournalEvent? && e.batch.share == share
    ensures var b := e.batch;
            && 1 <= b.firstSeq <= A.SeqAfter(b) <= |stream| + 1
            && stream[b.firstSeq - 1..] == b.records + stream[A.SeqAfter(b) - 1..]
  {}

  lemma AcceptedNext(host: A.Host, es: seq<A.Event>, share: ShareId, next: nat)
    requires es != [] && es[0].JournalEvent? && es[0].batch.share == share && A.Accepts(host, es[0].batch)
    requires Awaits(host, es, share, next) && next < A.SEQ_ADOPT
    ensures es[0].batch.firstSeq == next
  {}

  lemma {:induction false} FlattenMore(bs: seq<Batch>, p: nat)
    requires p < |bs|
    ensures Flatten(bs[..p + 1]) == Flatten(bs[..p]) + bs[p].records
  {
    assert bs[..p + 1][..p] == bs[..p];
  }

  lemma {:induction false} FlattenWithin(bs: seq<Batch>, p: nat, q: nat)
    requires p <= q <= |bs|
    ensures Flatten(bs[..p]) <= Flatten(bs[..q])
    decreases q - p
  {
    if p < q {
      FlattenMore(bs, p);
      FlattenWithin(bs, p + 1, q);
    }
  }

  /** Batches held back in the order they were sent are a piece of the stream, and the next one is due. */
  lemma {:induction false} HeldBack(bs: seq<Batch>, p: nat, q: nat, next: nat)
    requires NumberedFrom(bs, 1) && p <= q <= |bs|
    requires next == A.SEQ_ADOPT || next == 1 + |Flatten(bs[..p])|
    ensures A.NextSeq(next, bs[p..q]) == if p == q then next else 1 + |Flatten(bs[..q])|
    ensures Flatten(bs[..q]) == Flatten(bs[..p]) + A.RecordsIn(bs[p..q])
    decreases q - p
  {
    hide Flatten;
    if p == q {
      assert bs[p..q] == [];
    } else {
      FlattenMore(bs, p);
      var rest := bs[p + 1..q];
      assert bs[p..q] == [bs[p]] + rest && bs[p..q][1..] == rest;
      assert bs[p].firstSeq == 1 + |Flatten(bs[..p])|;
      hide NumberedFrom;
      HeldBack(bs, p + 1, q, 1 + |Flatten(bs[..p + 1])|);
      assert Flatten(bs[..p]) + A.RecordsIn(bs[p..q]) == Flatten(bs[..p + 1]) + A.RecordsIn(rest);
    }
  }
}
