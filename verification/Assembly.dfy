/** The host's side of the protocol, as a value: snapshots are staged beside the replica being served,
    journal batches are held back meanwhile, and a batch out of sequence starts it all over. */
module Assemblies {
  import opened Types
  import opened Replicas
  import opened Collection
  import opened ReplicaRuns
  import opened JournalBatches

  /** "No sequence known yet": the next live batch sets it. */
  const SEQ_ADOPT: nat := 0xFFFF_FFFF_FFFF_FFFF
  /** The share id of a batch that stands for all shares: events were lost. */
  const ALL_SHARES: ShareId := 0xFFFF

  datatype Stage = Stage(snapId: nat, replica: Share, buf: seq<Batch>)

  datatype Numbered = Numbered(seqNo: nat, rec: Rec)

  /** `served` is what clients see; `log` is what has been applied to it since its seed, by number,
      and `seed` the number its seed left off at. */
  datatype Host = Host(
    roots: map<ShareId, NodeKey>,
    staging: map<ShareId, Stage>,
    expected: map<ShareId, nat>,
    served: map<ShareId, Share>,
    live: set<ShareId>,
    log: map<ShareId, seq<Numbered>>,
    seed: map<ShareId, nat>)

  /** `dirty` holds the nodes whose changes the host made itself; `draw` the snapshot ids it draws. */
  datatype Event =
    | Begins(share: ShareId, snapId: nat)
    | SnapPiece(share: ShareId, piece: SnapDir)
    | SnapDone(share: ShareId, doneId: nat)
    | JournalEvent(batch: Batch, dirty: set<NodeKey>, draw: map<ShareId, nat>)

  function Drawn(draw: map<ShareId, nat>, share: ShareId): nat {
    if share in draw then draw[share] else 0
  }

  function Log(host: Host, share: ShareId): seq<Numbered> {
    if share in host.log then host.log[share] else []
  }

  // ---- snapshots ---------------------------------------------------------------------------------

  function Begin(host: Host, share: ShareId, snapId: nat): Host {
    if share !in host.roots then host
    else host.(expected := host.expected - {share},
               staging := host.staging[share := Stage(snapId, NewShare(host.roots[share]), [])])
  }

  function BeginAll(host: Host, draw: map<ShareId, nat>): Host {
    BeginEach(host, draw, host.roots.Keys)
  }

  function BeginEach(host: Host, draw: map<ShareId, nat>, ids: set<ShareId>): Host
    requires ids <= host.roots.Keys
  {
    host.(expected := host.expected - ids,
          staging := host.staging + map id | id in ids :: Stage(Drawn(draw, id), NewShare(host.roots[id]), []))
  }

  lemma BeginOneMore(host: Host, draw: map<ShareId, nat>, ids: set<ShareId>, id: ShareId)
    requires ids <= host.roots.Keys && id in host.roots
    ensures Begin(BeginEach(host, draw, ids), id, Drawn(draw, id)) == BeginEach(host, draw, ids + {id})
  {
    hide NewShare, Drawn;
    var a, b := Begin(BeginEach(host, draw, ids), id, Drawn(draw, id)), BeginEach(host, draw, ids + {id});
    assert a.staging.Keys == b.staging.Keys;
    forall k | k in a.staging ensures a.staging[k] == b.staging[k] {
      if k == id { assert k in ids + {id}; }
    }
    MinusTwice(host.expected, ids, id);
  }

  lemma MinusTwice(m: map<ShareId, nat>, ids: set<ShareId>, id: ShareId)
    ensures (m - ids) - {id} == m - (ids + {id})
  {}

  lemma BeginNone(host: Host, draw: map<ShareId, nat>)
    ensures BeginEach(host, draw, {}) == host
  {
    assert BeginEach(host, draw, {}).staging == host.staging;
  }

  /** Starting over touches nothing but the share's stage and its sequence. */
  lemma BeginIs(host: Host, share: ShareId, snapId: nat, other: ShareId)
    ensures var host' := Begin(host, share, snapId);
            && host' == host.(expected := host'.expected, staging := host'.staging)
            && (other in host.staging ==> other in host'.staging)
            && (other != share ==> (other in host'.staging <==> other in host.staging))
            && (other != share && other in host.staging ==> host'.staging[other] == host.staging[other])
            && At(host'.expected, other)
               == if other == share && share in host.roots then None else At(host.expected, other)
  {}

  lemma BeginAllIs(host: Host, draw: map<ShareId, nat>, other: ShareId)
    ensures var host' := BeginAll(host, draw);
            && host' == host.(expected := host'.expected, staging := host'.staging)
            && (other in host.staging ==> other in host'.staging)
            && At(host'.expected, other) in {At(host.expected, other), None}
  {}

  ghost function OnPiece(host: Host, share: ShareId, r: SnapDir): Host
    requires r.dirAttr.kind == Dir
  {
    if share in host.staging && host.staging[share].snapId == r.snapId then
      var s := host.staging[share];
      host.(staging := host.staging[share := s.(replica := ApplySnapDir(s.replica, r))])
    else host
  }

  ghost function Recounted(s: Share): Share {
    s.(entryCount := |Edges(s)|)
  }

  ghost function Replay(s: Share, bs: seq<Batch>): Share
    decreases |bs|
  {
    if bs == [] then s else Replay(ApplyRecs(s, bs[0].records), bs[1..])
  }

  function SeqAfter(b: Batch): nat {
    b.firstSeq + |b.records|
  }

  function NextSeq(next: nat, bs: seq<Batch>): nat
    decreases |bs|
  {
    if bs == [] then next
    else NextSeq(if next == SEQ_ADOPT || next < SeqAfter(bs[0]) then SeqAfter(bs[0]) else next, bs[1..])
  }

  /** This event completes the share's newest snapshot. */
  predicate Completes(host: Host, e: Event, share: ShareId) {
    e.SnapDone? && e.share == share && share in host.staging && host.staging[share].snapId == e.doneId
  }

  ghost function FinishSeed(host: Host, share: ShareId, snapId: nat): Host {
    if share !in host.staging || host.staging[share].snapId != snapId then host
    else
      var s := host.staging[share];
      var replica := Replay(Recounted(s.replica), s.buf);
      var next := NextSeq(SEQ_ADOPT, s.buf);
      host.(staging := host.staging - {share},
            served := if share in host.served then host.served[share := replica] else host.served,
            live := if share in host.served then host.live + {share} else host.live,
            expected := host.expected[share := next],
            log := host.log[share := []],
            seed := host.seed[share := next])
  }

  // ---- live batches --------------------------------------------------------------------------------

  /** The node a record tells about, if a change of it could be the host's own. */
  function Concerns(s: Share, rec: Rec): Option<NodeKey> {
    match rec
    case Content(node, _, _, _) => Some(node)
    case AttrChanged(node, _) => Some(node)
    case Removed(parent, name) =>
      var k := Lookup(s, parent, name);
      if k.Some? && k.value in s.nodes then k else None
    case _ => None
  }

  function IsEcho(s: Share, rec: Rec, dirty: set<NodeKey>): bool {
    Concerns(s, rec).Some? && Concerns(s, rec).value in dirty
  }

  /** The directories whose times a foreign change moves. */
  function Parents(rec: Rec, dirty: set<NodeKey>, echo: bool): seq<NodeKey> {
    match rec
    case Created(parent, _, node, _) => if node !in dirty then [parent] else []
    case CreatedBatch(parent, es) => if es == [] || es[0].node !in dirty then [parent] else []
    case Removed(parent, _) => if !echo then [parent] else []
    case Renamed(fp, _, tp, _) => if fp !in dirty && tp !in dirty then [fp, tp] else []
    case _ => []
  }

  function BumpAll(s: Share, ds: seq<NodeKey>): Share
    decreases |ds|
  {
    if ds == [] then s else BumpAll(BumpDirAttr(s, ds[0]), ds[1..])
  }

  /** One live record: an echo of the host's own attribute or content change is dropped. */
  ghost function LiveRec(s: Share, rec: Rec, dirty: set<NodeKey>): Share {
    if IsEcho(s, rec, dirty) && (rec.Content? || rec.AttrChanged?) then s
    else BumpAll(ApplyRec(s, rec), Parents(rec, dirty, IsEcho(s, rec, dirty)))
  }

  ghost function LiveRecs(s: Share, recs: seq<Rec>, dirty: set<NodeKey>): Share
    decreases |recs|
  {
    if recs == [] then s else LiveRecs(LiveRec(s, recs[0], dirty), recs[1..], dirty)
  }

  predicate Overflows(recs: seq<Rec>) {
    exists i :: 0 <= i < |recs| && NeedsResync(recs[i])
  }

  function Number(b: Batch): seq<Numbered> {
    seq(|b.records|, i requires 0 <= i < |b.records| => Numbered(b.firstSeq + i, b.records[i]))
  }

  /** A batch is applied only to a live share, outside a snapshot, and in sequence. */
  predicate Accepts(host: Host, b: Batch) {
    && b.share != ALL_SHARES && b.share !in host.staging && b.share in host.served && b.share in host.live
    && b.share in host.expected && (host.expected[b.share] == SEQ_ADOPT || b.firstSeq == host.expected[b.share])
  }

  /** A batch that shows that events were missed. */
  predicate Gap(host: Host, b: Batch) {
    && b.share != ALL_SHARES && b.share !in host.staging && b.share in host.served && b.share in host.live
    && b.share in host.expected && host.expected[b.share] != SEQ_ADOPT && b.firstSeq != host.expected[b.share]
  }

  ghost function OnJournal(host: Host, b: Batch, dirty: set<NodeKey>, draw: map<ShareId, nat>): Host {
    var id := b.share;
    if id == ALL_SHARES then BeginAll(host, draw)
    else if id in host.staging then
      var s := host.staging[id];
      host.(staging := host.staging[id := s.(buf := s.buf + [b])])
    else if Gap(host, b) then Begin(host, id, Drawn(draw, id))
    else if !Accepts(host, b) then host
    else if Overflows(b.records) then Begin(Applied(host, b, dirty), id, Drawn(draw, id))
    else Applied(host, b, dirty)
  }

  ghost function Applied(host: Host, b: Batch, dirty: set<NodeKey>): Host
    requires Accepts(host, b)
  {
    host.(expected := host.expected[b.share := SeqAfter(b)],
          served := host.served[b.share := LiveRecs(host.served[b.share], b.records, dirty)],
          log := host.log[b.share := Log(host, b.share) + Number(b)])
  }

  lemma AppliedIs(host: Host, b: Batch, dirty: set<NodeKey>, other: ShareId)
    requires Accepts(host, b)
    ensures var host' := Applied(host, b, dirty);
            && host'.staging == host.staging && host'.seed == host.seed && host'.served.Keys == host.served.Keys
            && (other != b.share ==>
                  Log(host', other) == Log(host, other) && At(host'.expected, other) == At(host.expected, other))
            && (other != b.share && other in host.served ==> host'.served[other] == host.served[other])
            && (other == b.share ==>
                  Log(host', other) == Log(host, other) + Number(b) && At(host'.expected, other) == Some(SeqAfter(b)))
  {
    hide LiveRecs, Number;
  }

  /** What decoding has already refused: a listing of something not a directory, an empty batch. */
  predicate Decodes(e: Event) {
    && (e.SnapPiece? ==> e.piece.dirAttr.kind == Dir)
    && (e.JournalEvent? ==> e.batch.records != [])
  }

  ghost function OnEvent(host: Host, e: Event): Host
    requires Decodes(e)
  {
    match e
    case Begins(share, snapId) => Begin(host, share, snapId)
    case SnapPiece(share, piece) => OnPiece(host, share, piece)
    case SnapDone(share, snapId) => FinishSeed(host, share, snapId)
    case JournalEvent(batch, dirty, draw) => OnJournal(host, batch, dirty, draw)
  }

  ghost function OnEvents(host: Host, es: seq<Event>): Host
    requires forall i :: 0 <= i < |es| ==> Decodes(es[i])
    decreases |es|
  {
    if es == [] then host else OnEvents(OnEvent(host, es[0]), es[1..])
  }

  // ---- the window ------------------------------------------------------------------------------------

  /** No gap, no repeat, and each record the stream's own. */
  ghost predicate IsWindow(stream: seq<Rec>, l: seq<Numbered>) {
    forall i :: 0 <= i < |l| ==>
      && l[i].seqNo == l[0].seqNo + i
      && 1 <= l[i].seqNo <= |stream| && l[i].rec == stream[l[i].seqNo - 1]
  }

  /** What has been applied since the seed is one window of the guest's stream, it starts where the seed
      left off, and the batch waited for is the one that continues it. */
  ghost predicate WindowOk(host: Host, stream: seq<Rec>, share: ShareId) {
    Tracks(stream, Log(host, share), At(host.seed, share), At(host.expected, share))
  }

  function At(m: map<ShareId, nat>, share: ShareId): Option<nat> {
    if share in m then Some(m[share]) else None
  }

  ghost predicate Tracks(stream: seq<Rec>, l: seq<Numbered>, seed: Option<nat>, expected: Option<nat>) {
    && IsWindow(stream, l)
    && (l != [] && seed.Some? && seed.value != SEQ_ADOPT ==> l[0].seqNo == seed.value)
    && (expected.Some? ==> if l == [] then expected == seed else expected.value == l[|l| - 1].seqNo + 1)
  }

  /** Batches of this share come from its stream; no stream reaches the last sequence number. */
  predicate FromStream(e: Event, stream: seq<Rec>, share: ShareId) {
    && |stream| + 1 < SEQ_ADOPT
    && (e.JournalEvent? && e.batch.share == share ==> Genuine(stream, e.batch))
  }

  lemma WindowGrows(stream: seq<Rec>, l: seq<Numbered>, b: Batch)
    requires IsWindow(stream, l) && Genuine(stream, b)
    requires l != [] ==> b.firstSeq == l[|l| - 1].seqNo + 1
    ensures IsWindow(stream, l + Number(b))
  {
    var l' := l + Number(b);
    assert forall i :: 0 <= i < |b.records| ==> b.records[i] == stream[b.firstSeq - 1 + i];
    forall i | 0 <= i < |l'|
      ensures l'[i].seqNo == l'[0].seqNo + i && 1 <= l'[i].seqNo <= |stream| && l'[i].rec == stream[l'[i].seqNo - 1]
    {
      if l != [] { assert l[|l| - 1].seqNo == l[0].seqNo + (|l| - 1); }
      if i >= |l| { assert l'[i] == Number(b)[i - |l|]; }
    }
  }

  lemma TracksOn(stream: seq<Rec>, l: seq<Numbered>, seed: Option<nat>, expected: Option<nat>, b: Batch)
    requires Tracks(stream, l, seed, expected) && Genuine(stream, b) && b.records != [] && |stream| + 1 < SEQ_ADOPT
    requires expected.Some? && (expected.value == SEQ_ADOPT || b.firstSeq == expected.value)
    ensures Tracks(stream, l + Number(b), seed, Some(SeqAfter(b)))
  {
    assert l != [] ==> l[|l| - 1].seqNo <= |stream|;
    WindowGrows(stream, l, b);
    NumberEnds(b);
    hide IsWindow, Number, Genuine;
  }

  lemma TracksNot(stream: seq<Rec>, l: seq<Numbered>, seed: Option<nat>, expected: Option<nat>)
    requires Tracks(stream, l, seed, expected)
    ensures Tracks(stream, l, seed, None)
  {}

  /** What a batch can do to the books of a share. */
  lemma JournalEffect(host: Host, e: Event, share: ShareId)
    requires Decodes(e) && e.JournalEvent?
    ensures var host', b := OnEvent(host, e), e.batch;
            && host'.seed == host.seed
            && if b.share == share && Accepts(host, b)
               then
                 && Log(host', share) == Log(host, share) + Number(b)
                 && At(host'.expected, share) in {Some(SeqAfter(b)), None}
               else
                 && Log(host', share) == Log(host, share)
                 && At(host'.expected, share) in {At(host.expected, share), None}
  {
    hide Applied, Overflows, Begin, BeginAll, At;
    var b := e.batch;
    BeginAllIs(host, e.draw, share);
    BeginIs(host, b.share, Drawn(e.draw, b.share), share);
    if Accepts(host, b) {
      AppliedIs(host, b, e.dirty, share);
      BeginIs(Applied(host, b, e.dirty), b.share, Drawn(e.draw, b.share), share);
    }
  }

  lemma JournalWindowStep(host: Host, e: Event, stream: seq<Rec>, share: ShareId)
    requires Decodes(e) && e.JournalEvent? && WindowOk(host, stream, share) && FromStream(e, stream, share)
    ensures WindowOk(OnEvent(host, e), stream, share)
  {
    hide OnEvent, Number, Tracks, Genuine, Log, At;
    var b, l, seed := e.batch, Log(host, share), At(host.seed, share);
    JournalEffect(host, e, share);
    TracksNot(stream, l, seed, At(host.expected, share));
    if b.share == share && Accepts(host, b) {
      assert At(host.expected, share) == Some(host.expected[share]) by { AtIs(host.expected, share); }
      TracksOn(stream, l, seed, At(host.expected, share), b);
      TracksNot(stream, l + Number(b), seed, Some(SeqAfter(b)));
    }
  }

  lemma AtIs(m: map<ShareId, nat>, share: ShareId)
    ensures share in m ==> At(m, share) == Some(m[share])
  {}

  lemma NumberEnds(b: Batch)
    ensures |Number(b)| == |b.records|
    ensures b.records != [] ==> Number(b)[0].seqNo == b.firstSeq && Number(b)[|b.records| - 1].seqNo == SeqAfter(b) - 1
  {}

  lemma WindowStep(host: Host, e: Event, stream: seq<Rec>, share: ShareId)
    requires Decodes(e) && WindowOk(host, stream, share) && FromStream(e, stream, share)
    ensures WindowOk(OnEvent(host, e), stream, share)
  {
    if e.JournalEvent? {
      JournalWindowStep(host, e, stream, share);
    } else {
      hide Replay, Tracks, Number;
      TracksNot(stream, Log(host, share), At(host.seed, share), At(host.expected, share));
      if Completes(host, e, share) { SeedTracks(stream, NextSeq(SEQ_ADOPT, host.staging[share].buf)); }
    }
  }

  lemma SeedTracks(stream: seq<Rec>, next: nat)
    ensures Tracks(stream, [], Some(next), Some(next))
  {}

  /** Over every run of events. */
  lemma {:induction false} JournalWindow(host: Host, es: seq<Event>, stream: seq<Rec>, share: ShareId)
    requires forall i :: 0 <= i < |es| ==> Decodes(es[i])
    requires forall i :: 0 <= i < |es| ==> FromStream(es[i], stream, share)
    requires WindowOk(host, stream, share)
    ensures WindowOk(OnEvents(host, es), stream, share)
    decreases |es|
  {
    hide WindowOk, OnEvent, FromStream;
    if es != [] {
      WindowStep(host, es[0], stream, share);
      JournalWindow(OnEvent(host, es[0]), es[1..], stream, share);
    }
  }

  // ---- after a gap ------------------------------------------------------------------------------------

  /** The share is served from a seed, and no snapshot of it is being staged. */
  predicate InService(host: Host, share: ShareId) {
    share in host.served && share in host.live && share !in host.staging
  }

  /** The next number is known, and this is not it: a batch is missing, or has come before. */
  predicate OutOfStep(host: Host, b: Batch) {
    b.share in host.expected && host.expected[b.share] != 0xFFFF_FFFF_FFFF_FFFF && b.firstSeq != host.expected[b.share]
  }

  /** Something was missed: the share goes back to a fresh snapshot and leaves what is served alone.  (A
      batch with an overflow record in it is applied first.) */
  lemma MissedMeansReseed(host: Host, e: Event, share: ShareId)
    requires Decodes(e) && e.JournalEvent? && share in host.roots
    requires || e.batch.share == 0xFFFF
             || (&& e.batch.share == share && InService(host, share) && share in host.expected
                 && (OutOfStep(host, e.batch) || Overflow in e.batch.records))
    ensures var host' := OnEvent(host, e);
            && share in host'.staging
            && host'.staging[share] == Stage(Drawn(e.draw, share), NewShare(host.roots[share]), [])
            && share !in host'.expected
            && (e.batch.share == 0xFFFF || OutOfStep(host, e.batch) ==>
                  host'.served == host.served && host'.log == host.log)
  {
    hide LiveRecs;
    if i :| 0 <= i < |e.batch.records| && e.batch.records[i] == Overflow {
      assert NeedsResync(e.batch.records[i]);
    }
  }

  /** A batch for a share that is not in service, and not being staged, changes nothing. */
  lemma NotInServiceIgnored(host: Host, e: Event)
    requires Decodes(e) && e.JournalEvent? && e.batch.share != 0xFFFF
    requires e.batch.share !in host.staging && !(InService(host, e.batch.share) && e.batch.share in host.expected)
    ensures OnEvent(host, e) == host
  {}

  /** A share being staged holds its batches back, in order of arrival, and does nothing else with them. */
  lemma StagedHoldsBack(host: Host, e: Event)
    requires Decodes(e) && e.JournalEvent? && e.batch.share != 0xFFFF && e.batch.share in host.staging
    ensures var id, host' := e.batch.share, OnEvent(host, e);
            && host' == host.(staging := host'.staging) && host'.staging.Keys == host.staging.Keys
            && host'.staging[id] == host.staging[id].(buf := host.staging[id].buf + [e.batch])
            && forall other :: other in host.staging && other != id ==> host'.staging[other] == host.staging[other]
  {}

  /** The share's newest snapshot never completes along these events. */
  ghost predicate NeverCompletes(host: Host, es: seq<Event>, share: ShareId)
    requires forall i :: 0 <= i < |es| ==> Decodes(es[i])
    decreases |es|
  {
    es == [] || (!Completes(host, es[0], share) && NeverCompletes(OnEvent(host, es[0]), es[1..], share))
  }

  lemma QuarantineStep(host: Host, e: Event, share: ShareId)
    requires Decodes(e) && share in host.staging && !Completes(host, e, share)
    ensures var host' := OnEvent(host, e);
            && share in host'.staging
            && Log(host', share) == Log(host, share)
            && (share in host'.served <==> share in host.served)
            && (share in host.served ==> host'.served[share] == host.served[share])
  {
    hide Applied, Replay, Begin, BeginAll, Overflows, At;
    if e.Begins? { BeginIs(host, e.share, e.snapId, share); }
    if e.JournalEvent? {
      var b := e.batch;
      BeginAllIs(host, e.draw, share);
      BeginIs(host, b.share, Drawn(e.draw, b.share), share);
      if Accepts(host, b) {
        AppliedIs(host, b, e.dirty, share);
        BeginIs(Applied(host, b, e.dirty), b.share, Drawn(e.draw, b.share), share);
      }
    }
  }

  /** Until its newest snapshot completes, nothing reaches what a share serves: no journal record, no
      piece of any snapshot, whatever else arrives. */
  lemma {:induction false} Quarantine(host: Host, es: seq<Event>, share: ShareId)
    requires forall i :: 0 <= i < |es| ==> Decodes(es[i])
    requires share in host.staging && NeverCompletes(host, es, share)
    ensures var host' := OnEvents(host, es);
            && share in host'.staging
            && Log(host', share) == Log(host, share)
            && (share in host'.served <==> share in host.served)
            && (share in host.served ==> host'.served[share] == host.served[share])
    decreases |es|
  {
    hide OnEvent, Log, Completes;
    if es != [] {
      QuarantineStep(host, es[0], share);
      Quarantine(OnEvent(host, es[0]), es[1..], share);
    }
  }

  /** Pieces and ends of any snapshot but the newest have no effect at all. */
  lemma StaleIgnored(host: Host, e: Event)
    requires Decodes(e) && (e.SnapPiece? || e.SnapDone?)
    requires e.share in host.staging ==>
               host.staging[e.share].snapId != if e.SnapPiece? then e.piece.snapId else e.doneId
    ensures OnEvent(host, e) == host
  {}

  // ---- what a completed snapshot serves ----------------------------------------------------------------

  function PiecesOf(es: seq<Event>, share: ShareId, snapId: nat): seq<SnapDir>
    decreases |es|
  {
    if es == [] then []
    else if es[0].SnapPiece? && es[0].share == share && es[0].piece.snapId == snapId
    then [es[0].piece] + PiecesOf(es[1..], share, snapId)
    else PiecesOf(es[1..], share, snapId)
  }

  function BatchesOf(es: seq<Event>, share: ShareId): seq<Batch>
    decreases |es|
  {
    if es == [] then []
    else if es[0].JournalEvent? && es[0].batch.share == share then [es[0].batch] + BatchesOf(es[1..], share)
    else BatchesOf(es[1..], share)
  }

  /** This event starts the share's snapshot over. */
  predicate Restarts(e: Event, share: ShareId) {
    (e.Begins? && e.share == share) || (e.JournalEvent? && e.batch.share == ALL_SHARES)
  }

  predicate Uninterrupted(es: seq<Event>, share: ShareId, snapId: nat) {
    forall i :: 0 <= i < |es| ==>
      Decodes(es[i]) && !Restarts(es[i], share) && !(es[i].SnapDone? && es[i].share == share && es[i].doneId == snapId)
  }

  lemma {:induction false} PiecesDecoded(es: seq<Event>, share: ShareId, snapId: nat)
    requires Uninterrupted(es, share, snapId)
    ensures forall i :: 0 <= i < |PiecesOf(es, share, snapId)| ==> PiecesOf(es, share, snapId)[i].dirAttr.kind == Dir
    decreases |es|
  {
    if es != [] { PiecesDecoded(es[1..], share, snapId); }
  }

  lemma {:induction false} Staged(host: Host, es: seq<Event>, share: ShareId, snapId: nat)
    requires share != ALL_SHARES && Uninterrupted(es, share, snapId)
    requires share in host.staging && host.staging[share].snapId == snapId
    ensures forall i :: 0 <= i < |PiecesOf(es, share, snapId)| ==> PiecesOf(es, share, snapId)[i].dirAttr.kind == Dir
    ensures var host', s := OnEvents(host, es), host.staging[share];
            && share in host'.staging
            && host'.staging[share]
               == Stage(snapId, ApplySnapDirs(s.replica, PiecesOf(es, share, snapId)), s.buf + BatchesOf(es, share))
            && (share in host'.served <==> share in host.served)
    decreases |es|
  {
    PiecesDecoded(es, share, snapId);
    if es != [] {
      StagedStep(host, es[0], share, snapId);
      hide OnEvent, ApplySnapDir;
      Staged(OnEvent(host, es[0]), es[1..], share, snapId);
      StagedJoins(host.staging[share].buf, es, share);
    } else {
      assert host.staging[share].buf + [] == host.staging[share].buf;
    }
  }

  lemma StagedJoins(buf: seq<Batch>, es: seq<Event>, share: ShareId)
    requires es != []
    ensures es[0].JournalEvent? && es[0].batch.share == share ==>
              (buf + [es[0].batch]) + BatchesOf(es[1..], share) == buf + BatchesOf(es, share)
  {}

  lemma StagedStep(host: Host, e: Event, share: ShareId, snapId: nat)
    requires Decodes(e) && share != ALL_SHARES && !Restarts(e, share)
    requires !(e.SnapDone? && e.share == share && e.doneId == snapId)
    requires share in host.staging && host.staging[share].snapId == snapId
    ensures var host', s := OnEvent(host, e), host.staging[share];
            && share in host'.staging
            && (share in host'.served <==> share in host.served)
            && host'.staging[share] ==
               if e.SnapPiece? && e.share == share && e.piece.snapId == snapId
               then s.(replica := ApplySnapDir(s.replica, e.piece))
               else if e.JournalEvent? && e.batch.share == share then s.(buf := s.buf + [e.batch])
               else s
  {
    hide ApplySnapDir, Applied, Replay, Begin, Overflows, At, Log;
    if e.Begins? { BeginIs(host, e.share, e.snapId, share); }
    if e.JournalEvent? {
      var b := e.batch;
      BeginIs(host, b.share, Drawn(e.draw, b.share), share);
      if Accepts(host, b) {
        AppliedIs(host, b, e.dirty, share);
        BeginIs(Applied(host, b, e.dirty), b.share, Drawn(e.draw, b.share), share);
      }
    }
  }

  function RecordsIn(bs: seq<Batch>): seq<Rec>
    decreases |bs|
  {
    if bs == [] then [] else bs[0].records + RecordsIn(bs[1..])
  }

  lemma {:induction false} ApplyRecsSplit(s: Share, a: seq<Rec>, b: seq<Rec>)
    ensures ApplyRecs(s, a + b) == ApplyRecs(ApplyRecs(s, a), b)
    decreases |a|
  {
    hide ApplyRec;
    if a == [] {
      assert a + b == b;
    } else {
      assert (a + b)[0] == a[0] && (a + b)[1..] == a[1..] + b;
      ApplyRecsSplit(ApplyRec(s, a[0]), a[1..], b);
    }
  }

  lemma {:induction false} ReplayIs(s: Share, bs: seq<Batch>)
    ensures Replay(s, bs) == ApplyRecs(s, RecordsIn(bs))
    decreases |bs|
  {
    if bs != [] {
      ReplayIs(ApplyRecs(s, bs[0].records), bs[1..]);
      ApplyRecsSplit(s, bs[0].records, RecordsIn(bs[1..]));
    }
  }

  /** Counters are exact all through a snapshot, so its final recount changes nothing. */
  lemma {:induction false} SnapsCounted(s: Share, rs: seq<SnapDir>)
    requires Counted(s) && forall i :: 0 <= i < |rs| ==> rs[i].dirAttr.kind == Dir
    ensures Counted(ApplySnapDirs(s, rs))
    decreases |rs|
  {
    if rs != [] {
      SnapBalanced(s, rs[0]);
      hide ApplySnapDir;
      SnapsCounted(ApplySnapDir(s, rs[0]), rs[1..]);
    }
  }

  /** A snapshot begun and completed without interruption serves its pieces, in order of arrival, with
      every batch that arrived meanwhile replayed on top. */
  lemma SeedServes(host: Host, es: seq<Event>, share: ShareId, snapId: nat)
    requires share != ALL_SHARES && share in host.roots && share in host.served && Uninterrupted(es, share, snapId)
    ensures forall i :: 0 <= i < |PiecesOf(es, share, snapId)| ==> PiecesOf(es, share, snapId)[i].dirAttr.kind == Dir
    ensures var host' := FinishSeed(OnEvents(Begin(host, share, snapId), es), share, snapId);
            && share in host'.served && share in host'.live && share !in host'.staging
            && host'.served[share]
               == ApplyRecs(ApplySnapDirs(NewShare(host.roots[share]), PiecesOf(es, share, snapId)),
                            RecordsIn(BatchesOf(es, share)))
  {
    var host0, root, bs := Begin(host, share, snapId), host.roots[share], BatchesOf(es, share);
    assert host0.staging[share] == Stage(snapId, NewShare(root), []) && share in host0.served;
    hide Begin, FinishSeed, OnEvents, ApplySnapDirs, ApplyRecs, Recounted, Replay, Counted, NewShare, Uninterrupted;
    Staged(host0, es, share, snapId);
    FinishIs(OnEvents(host0, es), share, snapId);
    var s0 := ApplySnapDirs(NewShare(root), PiecesOf(es, share, snapId));
    NewShareIsClean(root);
    SnapsCounted(NewShare(root), PiecesOf(es, share, snapId));
    CountedRecounts(s0);
    assert [] + bs == bs;
    ReplayIs(s0, bs);
  }

  lemma FinishIs(host: Host, share: ShareId, snapId: nat)
    requires share in host.staging && host.staging[share].snapId == snapId && share in host.served
    ensures var host' := FinishSeed(host, share, snapId);
            && share in host'.served && share in host'.live && share !in host'.staging
            && host'.served[share] == Replay(Recounted(host.staging[share].replica), host.staging[share].buf)
  {
    hide Replay, Recounted;
  }

  lemma CountedRecounts(s: Share)
    requires Counted(s)
    ensures Recounted(s) == s
  {
    hide Edges;
  }
}
