/** The guest's batcher: one share's records, numbered from 1 and cut into batches. */
module JournalBatches {
  import opened Types

  const MAX_RECORDS := 512
  const MAX_BATCH_BYTES := 64 * 1024
  const BATCH_OVERHEAD := 64

  function ApproxSize(rec: Rec): nat {
    match rec
    case Created(_, name, _, _) => 48 + |name.bytes|
    case CreatedBatch(_, entries) => 16 + |entries| * 64
    case Removed(_, name) => 24 + |name.bytes|
    case Renamed(_, fromName, _, toName) => 48 + |fromName.bytes| + |toName.bytes|
    case AttrChanged(_, _) => 64
    case Content(_, _, _, _) => 40
    case SelfRemoved(_) => 16
    case Overflow => 8
    case EchoMarker(_) => 8
  }

  function Bytes(recs: seq<Rec>): nat
    decreases |recs|
  {
    if recs == [] then 0 else Bytes(recs[..|recs| - 1]) + ApproxSize(recs[|recs| - 1])
  }

  function Flatten(bs: seq<Batch>): seq<Rec>
    decreases |bs|
  {
    if bs == [] then [] else Flatten(bs[..|bs| - 1]) + bs[|bs| - 1].records
  }

  /** Batch `i` starts where the records before it end. */
  predicate NumberedFrom(bs: seq<Batch>, first: nat) {
    forall i :: 0 <= i < |bs| ==> bs[i].firstSeq == first + |Flatten(bs[..i])|
  }

  /** Never empty, never too many records, and full only by its last record.  (The first record's own
      size is not counted.) */
  predicate Sized(b: Batch) {
    && 0 < |b.records| <= MAX_RECORDS
    && (|b.records| > 1 ==> BATCH_OVERHEAD + Bytes(b.records[1..|b.records| - 1]) < MAX_BATCH_BYTES)
  }

  /** What a record adds to a batch at the least: its names, or its entries. */
  function Weight(rec: Rec): nat {
    match rec
    case Created(_, name, _, _) => |name.bytes|
    case CreatedBatch(_, entries) => 64 * |entries|
    case Removed(_, name) => |name.bytes|
    case Renamed(_, fromName, _, toName) => |fromName.bytes| + |toName.bytes|
    case _ => 8
  }

  function Weights(recs: seq<Rec>): nat
    decreases |recs|
  {
    if recs == [] then 0 else Weights(recs[..|recs| - 1]) + Weight(recs[|recs| - 1])
  }

  /** A batch is small: at most 512 records, and all between the first and the last together below 64 KiB. */
  lemma SizedIsSmall(b: Batch)
    requires Sized(b)
    ensures 0 < |b.records| <= 512
    ensures |b.records| > 1 ==> Weights(b.records[1..|b.records| - 1]) < 65536
  {
    if |b.records| > 1 { BytesCover(b.records[1..|b.records| - 1]); }
  }

  lemma {:induction false} BytesCover(recs: seq<Rec>)
    ensures Weights(recs) <= Bytes(recs)
    decreases |recs|
  {
    if recs != [] { BytesCover(recs[..|recs| - 1]); }
  }

  lemma GrowSized(share: ShareId, firstSeq: nat, records: seq<Rec>, rec: Rec)
    requires 0 < |records| < MAX_RECORDS && BATCH_OVERHEAD + Bytes(records[1..]) < MAX_BATCH_BYTES
    ensures Sized(Batch(share, firstSeq, records + [rec]))
    ensures Bytes((records + [rec])[1..]) == Bytes(records[1..]) + ApproxSize(rec)
  {
    var grown := records + [rec];
    assert grown[1..] == records[1..] + [rec] && grown[1..|grown| - 1] == records[1..];
  }

  /** One batch: at least one record, then more until it is full or the linger time runs out, which it
      may do after any record. */
  method NextBatch(share: ShareId, arrivals: seq<Rec>, from: nat, firstSeq: nat) returns (b: Batch, taken: nat)
    requires from < |arrivals|
    ensures from < taken <= |arrivals| && b == Batch(share, firstSeq, arrivals[from..taken]) && Sized(b)
  {
    hide ApproxSize, Bytes, Sized;
    var records := [arrivals[from]];
    assert records[1..] == [] && Bytes([]) == 0 && Sized(Batch(share, firstSeq, records)) by {
      OneSized(share, firstSeq, arrivals[from]);
    }
    var bytes := BATCH_OVERHEAD;
    taken := from + 1;
    while |records| < MAX_RECORDS && bytes < MAX_BATCH_BYTES && taken < |arrivals|
      invariant from < taken <= |arrivals| && records == arrivals[from..taken]
      invariant Sized(Batch(share, firstSeq, records)) && bytes == BATCH_OVERHEAD + Bytes(records[1..])
    {
      var expired: bool := *;
      if expired { break; }
      var rec := arrivals[taken];
      GrowSized(share, firstSeq, records, rec);
      bytes := bytes + ApproxSize(rec);
      records := records + [rec];
      taken := taken + 1;
    }
    b := Batch(share, firstSeq, records);
  }

  lemma OneSized(share: ShareId, firstSeq: nat, rec: Rec)
    ensures [rec][1..] == [] && Bytes([]) == 0 && Sized(Batch(share, firstSeq, [rec]))
  {}

  /** Any arrival pattern. */
  method Batcher(share: ShareId, arrivals: seq<Rec>) returns (batches: seq<Batch>)
    ensures Flatten(batches) == arrivals
    ensures NumberedFrom(batches, 1)
    ensures forall i :: 0 <= i < |batches| ==> batches[i].share == share && Sized(batches[i])
  {
    hide Sized, NumberedFrom;
    batches := [];
    assert NumberedFrom(batches, 1) by { NoneNumbered(1); }
    var next, taken := 1, 0;
    while taken < |arrivals|
      invariant 0 <= taken <= |arrivals| && next == 1 + taken
      invariant Flatten(batches) == arrivals[..taken] && NumberedFrom(batches, 1)
      invariant forall i :: 0 <= i < |batches| ==> batches[i].share == share && Sized(batches[i])
    {
      var from := taken;
      var b;
      b, taken := NextBatch(share, arrivals, from, next);
      next := next + |b.records|;
      AppendBatch(batches, b, 1);
      assert arrivals[..from] + arrivals[from..taken] == arrivals[..taken];
      batches := batches + [b];
    }
    assert arrivals[..taken] == arrivals;
  }

  lemma NoneNumbered(first: nat)
    ensures NumberedFrom([], first)
  {}

  lemma AppendBatch(bs: seq<Batch>, b: Batch, first: nat)
    requires NumberedFrom(bs, first) && b.firstSeq == first + |Flatten(bs)|
    ensures NumberedFrom(bs + [b], first) && Flatten(bs + [b]) == Flatten(bs) + b.records
  {
    var bs' := bs + [b];
    assert bs'[..|bs|] == bs;
    forall i | 0 <= i < |bs'| ensures bs'[i].firstSeq == first + |Flatten(bs'[..i])| {
      if i < |bs| { assert bs'[..i] == bs[..i]; }
    }
  }

  // ---- what a batch says about the stream ------------------------------------------------------------

  /** Every record of `b` is the stream's record of that number. */
  predicate Genuine(stream: seq<Rec>, b: Batch) {
    && 1 <= b.firstSeq && b.firstSeq - 1 + |b.records| <= |stream|
    && b.records == stream[b.firstSeq - 1..b.firstSeq - 1 + |b.records|]
  }

  /** What the batcher sends is the stream, in pieces. */
  lemma {:induction false} BatchesGenuine(bs: seq<Batch>, i: nat)
    requires NumberedFrom(bs, 1) && i < |bs|
    ensures Genuine(Flatten(bs), bs[i])
    decreases |bs|
  {
    var init := bs[..|bs| - 1];
    if i == |bs| - 1 {
      assert bs[..i] == init;
    } else {
      assert forall j :: 0 <= j <= |init| ==> init[..j] == bs[..j];
      BatchesGenuine(init, i);
    }
  }
}
