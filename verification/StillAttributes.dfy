/** What a snapshot of a tree nobody changes says of each object: its attributes as read, and for a directory the
    directory that lists it. */
module StillAttributes {
  import opened Types
  import opened Replicas
  import opened Collection
  import opened ReplicaRuns
  import opened FileTrees
  import opened Refinement
  import opened Attributes
  import opened GuestHistories
  import opened GuestPaths
  import opened Seeding
  import opened Walkers
  import opened WalkRuns
  import opened StaticWalks
  import opened NodeParents

  /** Every stat of a scan tells the object's attributes. */
  ghost predicate Stats(attrs: Attrs, scan: Scan) {
    forall i :: 0 <= i < |scan.seen| ==> Tells(attrs, scan.seen[i].entry.node, scan.seen[i].entry.attr)
  }

  predicate Tells(attrs: Attrs, k: NodeKey, a: Attr) {
    k in attrs && a == attrs[k]
  }

  ghost predicate NamedIn(fs: Fs, p: NodeKey, k: NodeKey) {
    k != fs.root ==> NamesNode(fs, p, k)
  }

  ghost predicate JobTells(fs: Fs, attrs: Attrs, job: Job) {
    Tells(attrs, job.node, job.attr) && NamedIn(fs, job.parent, job.node)
  }

  ghost predicate RecordTells(fs: Fs, attrs: Attrs, r: SnapDir) {
    && Tells(attrs, r.dir, r.dirAttr) && NamedIn(fs, r.parent, r.dir)
    && forall i :: 0 <= i < |r.entries| ==>
         Tells(attrs, r.entries[i].node, r.entries[i].attr) && NamesNode(fs, r.dir, r.entries[i].node)
  }

  ghost predicate RecordsTell(fs: Fs, attrs: Attrs, rs: seq<SnapDir>) {
    forall i :: 0 <= i < |rs| ==> RecordTells(fs, attrs, rs[i])
  }

  // ---- the walk --------------------------------------------------------------------------------------

  ghost predicate WalkTells(fs: Fs, attrs: Attrs, w: Walker) {
    && (forall i :: 0 <= i < |w.queue| ==> JobTells(fs, attrs, w.queue[i]))
    && (forall i :: 0 <= i < |w.flying| ==> JobTells(fs, attrs, w.flying[i].job))
    && RecordsTell(fs, attrs, w.out)
  }

  ghost predicate SeenIn(fs: Fs, attrs: Attrs, d: NodeKey, es: seq<SnapEntry>) {
    forall i :: 0 <= i < |es| ==> Tells(attrs, es[i].node, es[i].attr) && NamesNode(fs, d, es[i].node)
  }

  lemma ScanSeen(fs: Fs, attrs: Attrs, scan: Scan)
    requires Tree(fs) && Guest(Still(fs)) && Honest(Still(fs), scan) && JobOk(Still(fs), scan.job, 0)
    requires Stats(attrs, scan)
    ensures SeenIn(fs, attrs, scan.job.node, EntriesSeen(scan.seen))
  {
    hide Guest, Honest, JobOk, Tree;
    StillScan(fs, scan);
    EntriesSeenAt(scan.seen);
    var es := EntriesSeen(scan.seen);
    forall i | 0 <= i < |es| ensures Tells(attrs, es[i].node, es[i].attr) && NamesNode(fs, scan.job.node, es[i].node) {
      assert Entry(fs.dirs, scan.job.node, scan.seen[i].entry.name) == Some(scan.seen[i].entry.node);
    }
  }

  lemma PiecesTell(fs: Fs, attrs: Attrs, c: Setup, scan: Scan)
    requires JobTells(fs, attrs, scan.job) && SeenIn(fs, attrs, scan.job.node, EntriesSeen(scan.seen))
    ensures RecordsTell(fs, attrs, RecordsFrom(c, scan))
  {
    var rs := RecordsFrom(c, scan);
    PiecesWhole(c.snapId, scan.job, EntriesSeen(scan.seen), c.perRecord);
    hide Pieces, EntriesSeen;
    forall i | 0 <= i < |rs| ensures RecordTells(fs, attrs, rs[i]) {
      assert rs[i] == PieceOf(c.snapId, scan.job, rs[i].entries, i == |rs| - 1);
      forall j | 0 <= j < |rs[i].entries|
        ensures Tells(attrs, rs[i].entries[j].node, rs[i].entries[j].attr)
        ensures NamesNode(fs, scan.job.node, rs[i].entries[j].node)
      {
        var k := FlatFrom(rs, i, j);
      }
    }
  }

  lemma SubdirsTell(fs: Fs, attrs: Attrs, job: Job, es: seq<SnapEntry>, j: nat)
    requires SeenIn(fs, attrs, job.node, es) && j < |Subdirs(job, es)|
    ensures JobTells(fs, attrs, Subdirs(job, es)[j])
  {
    var m := SubdirFrom(job, es, j);
  }

  lemma LandTells(fs: Fs, attrs: Attrs, c: Setup, w: Walker, w': Walker, i: nat, scan: Scan)
    requires Tree(fs) && Guest(Still(fs)) && WalkInv(Still(fs), c, w) && Land(Still(fs), c, w, w', i, scan)
    requires WalkTells(fs, attrs, w) && Stats(attrs, scan)
    ensures WalkTells(fs, attrs, w')
  {
    assert JobTells(fs, attrs, scan.job) && Honest(Still(fs), scan);
    hide Honest, JobOk, Guest, Tree, JobTells, Stats, RecordTells, SeenIn, WalkInv, WalkTells, Land, RecordsTell;
    FlightOk(fs, c, w, w', i, scan);
    ScanSeen(fs, attrs, scan);
    PiecesTell(fs, attrs, c, scan);
    LandJoins(fs, attrs, c, w, w', i, scan);
  }

  lemma FlightOk(fs: Fs, c: Setup, w: Walker, w': Walker, i: nat, scan: Scan)
    requires Guest(Still(fs)) && WalkInv(Still(fs), c, w) && Land(Still(fs), c, w, w', i, scan)
    ensures JobOk(Still(fs), scan.job, 0)
  {
    hide Honest, JobOk, Guest, RecordsFrom, HasJob, Sent, GoodRecords, EntriesSeen, Subdirs;
    assert JobOk(Still(fs), w.flying[i].job, w.flying[i].since);
  }

  lemma LandJoins(fs: Fs, attrs: Attrs, c: Setup, w: Walker, w': Walker, i: nat, scan: Scan)
    requires Guest(Still(fs)) && Land(Still(fs), c, w, w', i, scan) && WalkTells(fs, attrs, w)
    requires SeenIn(fs, attrs, scan.job.node, EntriesSeen(scan.seen)) && RecordsTell(fs, attrs, RecordsFrom(c, scan))
    ensures WalkTells(fs, attrs, w')
  {
    hide Honest, Guest, RecordsFrom, EntriesSeen, Subdirs, JobTells, RecordTells, SeenIn;
    forall j | 0 <= j < |w'.queue| ensures JobTells(fs, attrs, w'.queue[j]) {
      if j >= |w.queue| { SubdirsTell(fs, attrs, scan.job, EntriesSeen(scan.seen), j - |w.queue|); }
    }
  }

  lemma {:induction false} StillTells(fs: Fs, attrs: Attrs, c: Setup, ws: seq<Walker>)
    requires Tree(fs) && Guest(Still(fs)) && WalkRun(Still(fs), c, ws) && AllStat(attrs, ws)
    requires Tells(attrs, fs.root, ws[0].queue[0].attr)
    ensures WalkTells(fs, attrs, ws[|ws| - 1])
    decreases |ws|
  {
    var h := Still(fs);
    if |ws| > 1 {
      hide Land, Honest, JobOk, WalkInv, Tree, WalkTells, Stats;
      var w, w' := ws[|ws| - 2], ws[|ws| - 1];
      var ws0 := ws[..|ws| - 1];
      assert WalkRun(h, c, ws0) && AllStat(attrs, ws0);
      StillTells(fs, attrs, c, ws0);
      assert WalkRuns.Step(h, c, ws[|ws| - 2], ws[|ws| - 2 + 1]);
      if Start(w, w') {
        StartTells(fs, attrs, w, w');
      } else {
        var i, scan :| Land(h, c, w, w', i, scan);
        TreeShaped(fs);
        WalkKeepsInv(h, c, ws0);
        assert Stats(attrs, scan) by { LandedScan(h, c, w, w', i, scan); }
        LandTells(fs, attrs, c, w, w', i, scan);
      }
    }
  }

  lemma StartTells(fs: Fs, attrs: Attrs, w: Walker, w': Walker)
    requires WalkTells(fs, attrs, w) && Start(w, w')
    ensures WalkTells(fs, attrs, w')
  {
    hide JobTells, RecordTells;
  }

  lemma LandedScan(h: History, c: Setup, w: Walker, w': Walker, i: nat, scan: Scan)
    requires Guest(h) && Land(h, c, w, w', i, scan)
    ensures |w'.scans| > 0 && w'.scans[|w'.scans| - 1] == scan
  {}

  /** Every scan of the walk, whenever it ended, read these attributes. */
  ghost predicate AllStat(attrs: Attrs, ws: seq<Walker>) {
    forall m, i :: 0 <= m < |ws| && 0 <= i < |ws[m].scans| ==> Stats(attrs, ws[m].scans[i])
  }

  // ---- the replica -------------------------------------------------------------------------------------

  ghost predicate SaysRight(fs: Fs, attrs: Attrs, s: Share) {
    forall k :: k in s.nodes ==> Tells(attrs, k, s.nodes[k].attr) && NamedIn(fs, s.nodes[k].parent, k)
  }

  lemma {:induction false} LastMention(es: seq<SnapEntry>, k: NodeKey) returns (i: nat)
    requires Mentions(es, k)
    ensures IsLastMention(es, i, k)
    decreases |es|
  {
    var n := |es| - 1;
    if es[n].node == k {
      i := n;
    } else {
      var j :| 0 <= j < |es| && es[j].node == k;
      assert es[..n][j].node == k;
      i := LastMention(es[..n], k);
    }
  }

  lemma {:induction false} FirstMention(es: seq<SnapEntry>, k: NodeKey) returns (i: nat)
    requires Mentions(es, k)
    ensures IsFirstMention(es, i, k)
    decreases |es|
  {
    if es[0].node == k {
      i := 0;
    } else {
      MentionsSplit(es, k);
      i := FirstMention(es[1..], k);
      i := i + 1;
    }
  }

  lemma RecordSays(fs: Fs, attrs: Attrs, s: Share, r: SnapDir)
    requires r.dirAttr.kind == Dir && TablesWellFormed(s) && RecordTells(fs, attrs, r) && SaysRight(fs, attrs, s)
    ensures SaysRight(fs, attrs, ApplySnapDir(s, r))
  {
    hide ApplySnapDir, TablesWellFormed, Mentions, IsLastMention, IsFirstMention, NamesNode;
    var s' := ApplySnapDir(s, r);
    forall k | k in s'.nodes ensures Tells(attrs, k, s'.nodes[k].attr) && NamedIn(fs, s'.nodes[k].parent, k) {
      SnapTells(s, r, k);
      if Mentions(r.entries, k) {
        var i := LastMention(r.entries, k);
        var j := FirstMention(r.entries, k);
        MentionIs(r.entries, i, j, k);
      }
    }
  }

  lemma MentionIs(es: seq<SnapEntry>, i: nat, j: nat, k: NodeKey)
    requires IsLastMention(es, i, k) && IsFirstMention(es, j, k)
    ensures i < |es| && es[i].node == k && j < |es| && es[j].node == k
  {}

  lemma {:induction false} RecordsSay(fs: Fs, attrs: Attrs, s: Share, rs: seq<SnapDir>)
    requires forall i :: 0 <= i < |rs| ==> rs[i].dirAttr.kind == Dir
    requires TablesWellFormed(s) && RecordsTell(fs, attrs, rs) && SaysRight(fs, attrs, s)
    ensures SaysRight(fs, attrs, ApplySnapDirs(s, rs))
    decreases |rs|
  {
    hide ApplySnapDir, TablesWellFormed, SaysRight, RecordTells, Balanced;
    if rs != [] {
      RecordSays(fs, attrs, s, rs[0]);
      SnapBalanced(s, rs[0]);
      BalancedTables(s, ApplySnapDir(s, rs[0]));
      RecordsSay(fs, attrs, ApplySnapDir(s, rs[0]), rs[1..]);
    }
  }

  lemma RecordsMoved(fs: Fs, attrs: Attrs, a: seq<SnapDir>, b: seq<SnapDir>)
    requires RecordsTell(fs, attrs, a) && multiset(a) == multiset(b)
    ensures RecordsTell(fs, attrs, b)
  {
    hide RecordTells;
    forall i | 0 <= i < |b| ensures RecordTells(fs, attrs, b[i]) {
      assert b[i] in multiset(a);
      var j :| 0 <= j < |a| && a[j] == b[i];
    }
  }

  /** The snapshot of a tree at rest, walked by any schedule and assembled in any order: every object has the
      attributes the walk read, and every directory but the root is listed in its parent. */
  lemma SnapshotTells(fs: Fs, attrs: Attrs, c: Setup, ws: seq<Walker>, rs: seq<SnapDir>, k: NodeKey)
    requires AtRest(fs, c, ws) && Done(ws[|ws| - 1]) && multiset(rs) == multiset(ws[|ws| - 1].out)
    requires AllStat(attrs, ws) && Tells(attrs, fs.root, ws[0].queue[0].attr) && k in fs.kinds
    ensures forall i :: 0 <= i < |rs| ==> rs[i].dirAttr.kind == Dir
    ensures var s := ApplySnapDirs(NewShare(fs.root), rs);
            && k in s.nodes && Tells(attrs, k, s.nodes[k].attr)
            && (k in fs.dirs && k != fs.root ==>
                  exists n :: n in Table(s, s.nodes[k].parent) && Table(s, s.nodes[k].parent)[n].node == k)
  {
    hide WalkRun, Tree, Done, ApplySnapDirs, TablesWellFormed, WellShaped, Guest, RecordsTell, Refines, AllStat,
         DirsNamedOnce, Stats, GoodRecords, SaysRight, Still, Table, Tells;
    TreeShaped(fs);
    StillGuest(fs);
    SnapshotRoundTrip(fs, c, ws, rs);
    GoodAreDirs(fs, rs);
    StillTells(fs, attrs, c, ws);
    NotYetWalked(fs, attrs, c, ws);
    RecordsMoved(fs, attrs, ws[|ws| - 1].out, rs);
    NewShareIsClean(fs.root);
    RecordsSay(fs, attrs, NewShare(fs.root), rs);
    RefinedSays(fs, attrs, ApplySnapDirs(NewShare(fs.root), rs), k);
  }

  lemma NotYetWalked(fs: Fs, attrs: Attrs, c: Setup, ws: seq<Walker>)
    requires AtRest(fs, c, ws)
    ensures ws != [] && SaysRight(fs, attrs, NewShare(fs.root))
  {}

  lemma GoodAreDirs(fs: Fs, rs: seq<SnapDir>)
    requires Guest(Still(fs)) && GoodRecords(Still(fs), rs)
    ensures forall i :: 0 <= i < |rs| ==> rs[i].dirAttr.kind == Dir
  {}

  lemma RefinedSays(fs: Fs, attrs: Attrs, s: Share, k: NodeKey)
    requires WellShaped(fs) && Refines(fs, s) && SaysRight(fs, attrs, s) && k in fs.kinds
    ensures k in s.nodes && Tells(attrs, k, s.nodes[k].attr)
    ensures k in fs.dirs && k != fs.root ==>
              exists n :: n in Table(s, s.nodes[k].parent) && Table(s, s.nodes[k].parent)[n].node == k
  {
    KnownNode(fs, s, k);
    if k in fs.dirs && k != fs.root {
      assert ParentsRight(fs, s);
      ListedInParent(fs, s, k);
      assert HasDir(s, k) && s.root == fs.root;
    }
  }
}
