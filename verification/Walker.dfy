/** The guest's walk: directories are opened by path and scanned in parallel, each listing is cut
    into records, and every subdirectory found becomes a new job. */
module Walkers {
  import opened Types

  /** A directory still to scan: where it was found, and what was found there. */
  datatype Job = Job(path: seq<Name>, node: NodeKey, attr: Attr, parent: NodeKey)

  // ---- one scan: cutting a listing into records -------------------------------------------------------

  function PieceOf(snapId: nat, job: Job, es: seq<SnapEntry>, last: bool): SnapDir {
    SnapDir(snapId, job.node, job.attr, job.parent, es, last)
  }

  /** Entries per record; a record takes at least one entry whatever the setting. */
  function Quota(perRecord: nat): nat {
    if perRecord == 0 then 1 else perRecord
  }

  function Pieces(snapId: nat, job: Job, es: seq<SnapEntry>, perRecord: nat): seq<SnapDir>
    decreases |es|
  {
    var n := Quota(perRecord);
    if |es| < n then [PieceOf(snapId, job, es, true)]
    else [PieceOf(snapId, job, es[..n], false)] + Pieces(snapId, job, es[n..], perRecord)
  }

  function Subdirs(job: Job, es: seq<SnapEntry>): seq<Job>
    decreases |es|
  {
    if es == [] then []
    else if es[0].attr.kind != Dir then Subdirs(job, es[1..])
    else [ChildJob(job, es[0])] + Subdirs(job, es[1..])
  }

  function ChildJob(job: Job, e: SnapEntry): Job {
    Job(job.path + [e.name], e.node, e.attr, job.node)
  }

  /** A listing that could not be opened or read is no listing at all. */
  function Listing(found: Option<seq<SnapEntry>>): seq<SnapEntry> {
    if found.Some? then found.value else []
  }

  lemma {:induction false} SubdirsSnoc(job: Job, es: seq<SnapEntry>, e: SnapEntry)
    ensures Subdirs(job, es + [e])
         == if e.attr.kind == Dir then Subdirs(job, es) + [ChildJob(job, e)] else Subdirs(job, es)
    decreases |es|
  {
    if es == [] {
      assert es + [e] == [e];
    } else {
      assert (es + [e])[1..] == es[1..] + [e];
      SubdirsSnoc(job, es[1..], e);
    }
  }

  lemma FullPiece(snapId: nat, job: Job, full: seq<SnapEntry>, rest: seq<SnapEntry>, perRecord: nat)
    requires |full| == Quota(perRecord)
    ensures Pieces(snapId, job, full + rest, perRecord)
         == [PieceOf(snapId, job, full, false)] + Pieces(snapId, job, rest, perRecord)
  {
    assert (full + rest)[..|full|] == full && (full + rest)[|full|..] == rest;
  }

  lemma FinalPiece(snapId: nat, job: Job, es: seq<SnapEntry>, perRecord: nat)
    requires |es| < Quota(perRecord)
    ensures Pieces(snapId, job, es, perRecord) == [PieceOf(snapId, job, es, true)]
  {}

  /** One directory: entries gather until a record is full; the final record is always sent. */
  method ScanDir(snapId: nat, job: Job, found: Option<seq<SnapEntry>>, perRecord: nat)
    returns (records: seq<SnapDir>, subdirs: seq<Job>, entries: nat)
    ensures records == Pieces(snapId, job, Listing(found), perRecord)
    ensures subdirs == Subdirs(job, Listing(found))
    ensures entries == |Listing(found)|
  {
    hide Pieces, PieceOf, ChildJob;
    records, subdirs, entries := [], [], 0;
    if found.None? {
      FinalPiece(snapId, job, [], perRecord);
      records := [PieceOf(snapId, job, [], true)];
      return;
    }
    var es := found.value;
    var gathered: seq<SnapEntry> := [];
    var i := 0;
    assert [] + es[0..] == es;
    while i < |es|
      invariant 0 <= i <= |es| && entries == i
      invariant |gathered| < Quota(perRecord)
      invariant subdirs == Subdirs(job, es[..i])
      invariant records + Pieces(snapId, job, gathered + es[i..], perRecord) == Pieces(snapId, job, es, perRecord)
    {
      var e := es[i];
      SubdirsSnoc(job, es[..i], e);
      assert es[..i] + [e] == es[..i + 1];
      if e.attr.kind == Dir {
        subdirs := subdirs + [ChildJob(job, e)];
      }
      entries := entries + 1;
      assert gathered + es[i..] == gathered + [e] + es[i + 1..];
      gathered := gathered + [e];
      i := i + 1;
      if |gathered| >= perRecord {
        FullPiece(snapId, job, gathered, es[i..], perRecord);
        records := records + [PieceOf(snapId, job, gathered, false)];
        gathered := [];
        assert gathered + es[i..] == es[i..];
      }
    }
    assert gathered + es[i..] == gathered && es[..i] == es;
    FinalPiece(snapId, job, gathered, perRecord);
    records := records + [PieceOf(snapId, job, gathered, true)];
  }

  function Flat(rs: seq<SnapDir>): seq<SnapEntry>
    decreases |rs|
  {
    if rs == [] then [] else rs[0].entries + Flat(rs[1..])
  }

  /** The pieces carry every entry once and in order; all but the final one are full, and only the
      final one ends the directory. */
  lemma {:induction false} PiecesWhole(snapId: nat, job: Job, es: seq<SnapEntry>, perRecord: nat)
    ensures var ps, n := Pieces(snapId, job, es, perRecord), Max(1, perRecord);
            && Flat(ps) == es
            && |ps| > 0
            && (forall i :: 0 <= i < |ps| ==> ps[i] == PieceOf(snapId, job, ps[i].entries, i == |ps| - 1))
            && (forall i :: 0 <= i < |ps| - 1 ==> |ps[i].entries| == n)
            && |ps[|ps| - 1].entries| < n
    decreases |es|
  {
    var n := Quota(perRecord);
    if |es| < n {
      assert Flat([PieceOf(snapId, job, es, true)]) == es + Flat([]);
    } else {
      PiecesWhole(snapId, job, es[n..], perRecord);
      var rest := Pieces(snapId, job, es[n..], perRecord);
      assert Pieces(snapId, job, es, perRecord)[1..] == rest;
      assert es == es[..n] + es[n..];
    }
  }

  lemma {:induction false} FlatHas(rs: seq<SnapDir>, k: nat) returns (i: nat, j: nat)
    requires k < |Flat(rs)|
    ensures i < |rs| && j < |rs[i].entries| && rs[i].entries[j] == Flat(rs)[k]
    decreases |rs|
  {
    if k < |rs[0].entries| {
      i, j := 0, k;
    } else {
      i, j := FlatHas(rs[1..], k - |rs[0].entries|);
      i := i + 1;
    }
  }

  lemma {:induction false} FlatFrom(rs: seq<SnapDir>, i: nat, j: nat) returns (k: nat)
    requires i < |rs| && j < |rs[i].entries|
    ensures k < |Flat(rs)| && rs[i].entries[j] == Flat(rs)[k]
    decreases |rs|
  {
    if i == 0 {
      k := j;
    } else {
      k := FlatFrom(rs[1..], i - 1, j);
      k := k + |rs[0].entries|;
    }
  }

  lemma {:induction false} SubdirFrom(job: Job, es: seq<SnapEntry>, i: nat) returns (j: nat)
    requires i < |Subdirs(job, es)|
    ensures j < |es| && es[j].attr.kind == Dir && Subdirs(job, es)[i] == ChildJob(job, es[j])
    decreases |es|
  {
    if es[0].attr.kind == Dir && i == 0 {
      j := 0;
    } else {
      j := SubdirFrom(job, es[1..], if es[0].attr.kind == Dir then i - 1 else i);
      j := j + 1;
    }
  }

  lemma {:induction false} SubdirOf(job: Job, es: seq<SnapEntry>, j: nat) returns (i: nat)
    requires j < |es| && es[j].attr.kind == Dir
    ensures i < |Subdirs(job, es)| && Subdirs(job, es)[i] == ChildJob(job, es[j])
    decreases |es|
  {
    if j == 0 {
      i := 0;
    } else {
      i := SubdirOf(job, es[1..], j - 1);
      if es[0].attr.kind == Dir { i := i + 1; }
    }
  }
}
