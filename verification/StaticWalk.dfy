/** The walk of a tree nobody changes: it ends after two steps per directory, sends exactly one
    final record for each, and its records assemble to exactly that tree. */
module StaticWalks {
  import opened Types
  import opened Replicas
  import opened Collection
  import opened ReplicaInvariants
  import opened ReplicaRuns
  import opened FileTrees
  import opened Refinement
  import opened GuestHistories
  import opened GuestPaths
  import opened ConsistentCuts
  import opened Seeding
  import opened Walkers
  import opened WalkRuns

  /** The history of a tree at rest. */
  function Still(fs: Fs): History {
    History([fs], [])
  }

  lemma StillGuest(fs: Fs)
    requires WellShaped(fs)
    ensures Guest(Still(fs)) && Last(Still(fs)) == fs
  {}

  // ---- how often each directory is due --------------------------------------------------------------

  function JobNodes(js: seq<Job>): seq<NodeKey> { seq(|js|, i requires 0 <= i < |js| => js[i].node) }

  function FlightNodes(fs: seq<Flight>): seq<NodeKey> { seq(|fs|, i requires 0 <= i < |fs| => fs[i].job.node) }

  function ScanNodes(ss: seq<Scan>): seq<NodeKey> { seq(|ss|, i requires 0 <= i < |ss| => ss[i].job.node) }

  /** Every directory the walk has met: waiting, in flight, or scanned. */
  ghost function Met(w: Walker): multiset<NodeKey> {
    multiset(JobNodes(w.queue)) + multiset(FlightNodes(w.flying)) + multiset(ScanNodes(w.scans))
  }

  /** A directory is met once for every scan of its parent; the root once; nothing else ever. */
  ghost predicate MetRight(fs: Fs, w: Walker) {
    && Met(w)[fs.root] == 1
    && (forall p, x :: IsSub(fs, p, x) ==> Met(w)[fs.dirs[p][x]] == multiset(ScanNodes(w.scans))[p])
    && (forall k :: k in Met(w) ==> k in fs.dirs)
  }

  ghost predicate IsSub(fs: Fs, p: NodeKey, x: Name) {
    p in fs.dirs && x in fs.dirs[p] && fs.dirs[p][x] in fs.dirs
  }

  lemma StartMet(w: Walker, w': Walker)
    requires Start(w, w')
    ensures Met(w') == Met(w)
  {
    var n := |w.queue| - 1;
    assert JobNodes(w.queue) == JobNodes(w'.queue) + [w.queue[n].node];
    assert FlightNodes(w'.flying) == FlightNodes(w.flying) + [w.queue[n].node];
  }

  lemma LandMet(h: History, c: Setup, w: Walker, w': Walker, i: nat, scan: Scan)
    requires Guest(h) && Land(h, c, w, w', i, scan)
    ensures Met(w') == Met(w) + multiset(JobNodes(Subdirs(scan.job, EntriesSeen(scan.seen))))
    ensures multiset(ScanNodes(w'.scans)) == multiset(ScanNodes(w.scans)) + multiset{scan.job.node}
  {
    hide Guest, Honest, RecordsFrom, Subdirs, EntriesSeen;
    var subs := Subdirs(scan.job, EntriesSeen(scan.seen));
    assert JobNodes(w'.queue) == JobNodes(w.queue) + JobNodes(subs);
    var a, b := FlightNodes(w.flying[..i]), FlightNodes(w.flying[i + 1..]);
    assert FlightNodes(w.flying) == a + [w.flying[i].job.node] + b;
    assert FlightNodes(w'.flying) == a + b;
    assert ScanNodes(w'.scans) == ScanNodes(w.scans) + [scan.job.node];
  }

  /** With every directory listed once, a subdirectory makes one job. */
  ghost predicate HasDirEntry(es: seq<SnapEntry>, k: NodeKey) {
    exists i :: 0 <= i < |es| && es[i].node == k && es[i].attr.kind == Dir
  }

  ghost predicate OnceEach(es: seq<SnapEntry>) {
    forall i, j :: 0 <= i < j < |es| && es[i].attr.kind == Dir && es[j].attr.kind == Dir ==> es[i].node != es[j].node
  }

  lemma {:induction false} SubdirNodes(job: Job, es: seq<SnapEntry>, k: NodeKey)
    requires OnceEach(es)
    ensures multiset(JobNodes(Subdirs(job, es)))[k]
         == if HasDirEntry(es, k) then 1 else 0
    decreases |es|
  {
    if es != [] {
      SubdirNodes(job, es[1..], k);
      var rest := Subdirs(job, es[1..]);
      if es[0].attr.kind == Dir {
        assert JobNodes(Subdirs(job, es)) == [es[0].node] + JobNodes(rest);
      }
      assert forall i :: 0 < i < |es| ==> es[i] == es[1..][i - 1];
      assert forall i :: 0 <= i < |es[1..]| ==> es[1..][i] == es[i + 1];
      assert HasDirEntry(es, k) <==> (es[0].node == k && es[0].attr.kind == Dir) || HasDirEntry(es[1..], k);
    }
  }

  /** A file system as POSIX has it: files may have any number of names, a directory has one. */
  ghost predicate Tree(fs: Fs) {
    WellShaped(fs) && DirsNamedOnce(fs)
  }

  lemma OneParent(fs: Fs, d: NodeKey, y: Name, p: NodeKey, x: Name)
    requires Tree(fs) && Entry(fs.dirs, d, y) == Entry(fs.dirs, p, x) && IsSub(fs, p, x)
    ensures d == p && y == x
  {
    assert NamesDir(fs, p, x);
  }

  lemma RootUnnamed(fs: Fs, d: NodeKey, x: Name)
    requires WellShaped(fs)
    ensures Entry(fs.dirs, d, x) != Some(fs.root)
  {
    if Entry(fs.dirs, d, x) == Some(fs.root) {
      assert Reachable(fs, d);
      var p :| Walk(fs.dirs, fs.root, p) == Some(d);
      WalkSnoc(fs.dirs, fs.root, p, x);
      OnlyEmptyPath(fs, p + [x]);
    }
  }

  /** A scan of a tree at rest reads its directory's names, each once and nothing else. */
  lemma StillScan(fs: Fs, scan: Scan)
    requires Tree(fs) && Guest(Still(fs)) && Honest(Still(fs), scan) && JobOk(Still(fs), scan.job, 0)
    ensures scan.job.node in fs.dirs
    ensures forall i :: 0 <= i < |scan.seen| ==>
              var e := scan.seen[i].entry;
              Entry(fs.dirs, scan.job.node, e.name) == Some(e.node) && fs.kinds[e.node] == e.attr.kind
    ensures forall i, j :: 0 <= i < j < |scan.seen| ==> scan.seen[i].entry.name != scan.seen[j].entry.name
    ensures forall x :: x in fs.dirs[scan.job.node] ==> Reads(scan, x)
  {
    var h, d := Still(fs), scan.job.node;
    assert Last(h) == fs && d in fs.kinds;
    LastingOpens(h, scan);
    assert d in fs.dirs;
    forall x ensures Stays(h, d, x, 0, 0) <==> Entry(fs.dirs, d, x).Some? {}
    forall i | 0 <= i < |scan.seen|
      ensures var e := scan.seen[i].entry;
              Entry(fs.dirs, d, e.name) == Some(e.node) && fs.kinds[e.node] == e.attr.kind
    {
      assert SeenRight(h, d, scan.seen[i]);
    }
  }

  /** The directories a scan brings in. */
  ghost function Found(scan: Scan): multiset<NodeKey> {
    multiset(JobNodes(Subdirs(scan.job, EntriesSeen(scan.seen))))
  }

  /** They are its own subdirectories, each once. */
  lemma FoundIs(fs: Fs, scan: Scan, k: NodeKey)
    requires Tree(fs) && Guest(Still(fs)) && Honest(Still(fs), scan) && JobOk(Still(fs), scan.job, 0)
    ensures Found(scan)[k] == if HasDirEntry(EntriesSeen(scan.seen), k) then 1 else 0
    ensures k in Found(scan) ==> k in fs.dirs && exists x :: Entry(fs.dirs, scan.job.node, x) == Some(k)
  {
    hide Honest, JobOk, Guest, Tree, Subdirs, JobNodes;
    var es := EntriesSeen(scan.seen);
    StillEntries(fs, scan, es);
    SubdirNodes(scan.job, es, k);
    if HasDirEntry(es, k) {
      var i :| 0 <= i < |es| && es[i].node == k && es[i].attr.kind == Dir;
      assert Entry(fs.dirs, scan.job.node, es[i].name) == Some(k);
    }
  }

  lemma StillEntries(fs: Fs, scan: Scan, es: seq<SnapEntry>)
    requires Tree(fs) && Guest(Still(fs)) && Honest(Still(fs), scan) && JobOk(Still(fs), scan.job, 0)
    requires es == EntriesSeen(scan.seen)
    ensures forall i :: 0 <= i < |es| ==> Entry(fs.dirs, scan.job.node, es[i].name) == Some(es[i].node)
    ensures forall i :: 0 <= i < |es| && es[i].attr.kind == Dir ==> es[i].node in fs.dirs
    ensures OnceEach(es)
  {
    hide Honest, JobOk, Guest, DirsNamedOnce, Connected, Ranked;
    StillScan(fs, scan);
    EntriesSeenAt(scan.seen);
    forall i, j | 0 <= i < j < |es| && es[i].attr.kind == Dir && es[j].attr.kind == Dir
      ensures es[i].node != es[j].node
    {
      if es[i].node == es[j].node { OneParent(fs, scan.job.node, es[i].name, scan.job.node, es[j].name); }
    }
  }

  /** A subdirectory is found by the scan of its parent and no other. */
  lemma FoundOnce(fs: Fs, scan: Scan, p: NodeKey, x: Name)
    requires Tree(fs) && Guest(Still(fs)) && Honest(Still(fs), scan) && JobOk(Still(fs), scan.job, 0) && IsSub(fs, p, x)
    ensures Found(scan)[fs.dirs[p][x]] == if p == scan.job.node then 1 else 0
  {
    hide Honest, JobOk, Guest, Found, Tree;
    var es, k := EntriesSeen(scan.seen), fs.dirs[p][x];
    FoundIs(fs, scan, k);
    if p == scan.job.node {
      StillScan(fs, scan);
      EntriesSeenAt(scan.seen);
      TreeShaped(fs);
      assert Reads(scan, x);
      var i :| 0 <= i < |scan.seen| && scan.seen[i].entry.name == x;
      assert es[i].node == k && es[i].attr.kind == Dir;
    } else if HasDirEntry(es, k) {
      var y :| Entry(fs.dirs, scan.job.node, y) == Some(k);
      OneParent(fs, scan.job.node, y, p, x);
    }
  }

  lemma LandMetRight(fs: Fs, c: Setup, w: Walker, w': Walker, i: nat, scan: Scan)
    requires Tree(fs) && Guest(Still(fs)) && MetRight(fs, w) && Land(Still(fs), c, w, w', i, scan)
    requires JobOk(Still(fs), scan.job, 0)
    ensures MetRight(fs, w')
  {
    LandMet(Still(fs), c, w, w', i, scan);
    hide Honest, JobOk, Subdirs, EntriesSeen, JobNodes, Met, ScanNodes, Guest, Tree, Entry, RecordsFrom;
    assert Met(w') == Met(w) + Found(scan);
    hide Found;
    FoundIs(fs, scan, fs.root);
    if fs.root in Found(scan) {
      var x :| Entry(fs.dirs, scan.job.node, x) == Some(fs.root);
      TreeShaped(fs);
      RootUnnamed(fs, scan.job.node, x);
    }
    forall p, x | IsSub(fs, p, x) ensures Met(w')[fs.dirs[p][x]] == multiset(ScanNodes(w'.scans))[p] {
      FoundOnce(fs, scan, p, x);
      assert Met(w)[fs.dirs[p][x]] == multiset(ScanNodes(w.scans))[p];
    }
    forall k | k in Met(w') ensures k in fs.dirs {
      if k !in Met(w) { FoundIs(fs, scan, k); }
    }
  }

  lemma {:induction false} StillWalk(fs: Fs, c: Setup, ws: seq<Walker>)
    requires Tree(fs) && Guest(Still(fs)) && WalkRun(Still(fs), c, ws)
    ensures var w := ws[|ws| - 1];
            && MetRight(fs, w)
            && |ws| - 1 == 2 * |w.scans| + |w.flying|
            && LastRecords(w.out) == multiset(ScanNodes(w.scans))
    decreases |ws|
  {
    var h := Still(fs);
    hide Land, Honest, JobOk, WalkInv, ScanNodes, MetRight, Tree;
    if |ws| == 1 {
      StillBegins(fs, ws[0]);
    } else {
      var w, w' := ws[|ws| - 2], ws[|ws| - 1];
      var ws0 := ws[..|ws| - 1];
      assert WalkRun(h, c, ws0);
      StillWalk(fs, c, ws0);
      assert WalkRuns.Step(h, c, ws[|ws| - 2], ws[|ws| - 2 + 1]);
      if Start(w, w') {
        StillStart(fs, w, w');
      } else {
        var i, scan :| Land(h, c, w, w', i, scan);
        assert DirsNamedOnce(h.states[0]) by { TreeShaped(fs); }
        WalkKeepsInv(h, c, ws0);
        StillLand(fs, c, w, w', i, scan);
      }
    }
  }

  lemma TreeShaped(fs: Fs)
    requires Tree(fs)
    ensures DirsNamedOnce(fs) && WellShaped(fs)
  {}

  lemma StillBegins(fs: Fs, w: Walker)
    requires Tree(fs) && Guest(Still(fs)) && Begins(Still(fs), w)
    ensures MetRight(fs, w) && LastRecords(w.out) == multiset(ScanNodes(w.scans)) && w.scans == [] && w.flying == []
  {
    assert JobNodes(w.queue) == [fs.root];
    assert FlightNodes(w.flying) == [] && ScanNodes(w.scans) == [];
    forall p, x | IsSub(fs, p, x) ensures Met(w)[fs.dirs[p][x]] == multiset(ScanNodes(w.scans))[p] {
      RootUnnamed(fs, p, x);
    }
  }

  lemma StillStart(fs: Fs, w: Walker, w': Walker)
    requires MetRight(fs, w) && Start(w, w')
    ensures MetRight(fs, w') && w'.scans == w.scans && w'.out == w.out && |w'.flying| == |w.flying| + 1
  {
    StartMet(w, w');
    hide Met;
  }

  lemma StillLand(fs: Fs, c: Setup, w: Walker, w': Walker, i: nat, scan: Scan)
    requires Tree(fs) && Guest(Still(fs)) && MetRight(fs, w) && Land(Still(fs), c, w, w', i, scan)
    requires WalkInv(Still(fs), c, w) && LastRecords(w.out) == multiset(ScanNodes(w.scans))
    ensures MetRight(fs, w') && LastRecords(w'.out) == multiset(ScanNodes(w'.scans))
    ensures |w'.scans| == |w.scans| + 1 && |w'.flying| == |w.flying| - 1
  {
    hide Honest, JobOk, Guest, MetRight, ScanNodes, Pieces, HasJob, Sent, GoodRecords, EntriesSeen, Subdirs;
    assert JobOk(Still(fs), w.flying[i].job, w.flying[i].since);
    LandMetRight(fs, c, w, w', i, scan);
    LandMet(Still(fs), c, w, w', i, scan);
    LastConcat(w.out, RecordsFrom(c, scan));
    LastOfPieces(c.snapId, scan.job, EntriesSeen(scan.seen), c.perRecord);
  }

  // ---- final records ---------------------------------------------------------------------------------

  /** The directories that some record ends, counted. */
  function LastRecords(rs: seq<SnapDir>): multiset<NodeKey>
    decreases |rs|
  {
    if rs == [] then multiset{}
    else (if rs[0].last then multiset{rs[0].dir} else multiset{}) + LastRecords(rs[1..])
  }

  lemma {:induction false} LastConcat(a: seq<SnapDir>, b: seq<SnapDir>)
    ensures LastRecords(a + b) == LastRecords(a) + LastRecords(b)
    decreases |a|
  {
    if a == [] {
      assert a + b == b;
    } else {
      assert (a + b)[1..] == a[1..] + b;
      LastConcat(a[1..], b);
    }
  }

  lemma {:induction false} LastOfPieces(snapId: nat, job: Job, es: seq<SnapEntry>, perRecord: nat)
    ensures LastRecords(Pieces(snapId, job, es, perRecord)) == multiset{job.node}
    decreases |es|
  {
    var n := Quota(perRecord);
    if |es| < n {
      var p := PieceOf(snapId, job, es, true);
      assert [p][1..] == [];
    } else {
      LastOfPieces(snapId, job, es[n..], perRecord);
      var rest := Pieces(snapId, job, es[n..], perRecord);
      assert Pieces(snapId, job, es, perRecord) == [PieceOf(snapId, job, es[..n], false)] + rest;
      assert ([PieceOf(snapId, job, es[..n], false)] + rest)[1..] == rest;
    }
  }

  // ---- once each, and then done ------------------------------------------------------------------------

  lemma {:induction false} MetOnce(fs: Fs, w: Walker, path: seq<Name>, k: NodeKey)
    requires Tree(fs) && MetRight(fs, w) && k in fs.dirs && Walk(fs.dirs, fs.root, path) == Some(k)
    ensures Met(w)[k] <= 1
    ensures Done(w) ==> multiset(ScanNodes(w.scans))[k] == 1
    decreases |path|
  {
    hide Tree, JobNodes, FlightNodes, ScanNodes;
    if Done(w) { DoneMet(w); }
    if path != [] {
      var q, x := path[..|path| - 1], path[|path| - 1];
      var p := LastStep(fs.dirs, fs.root, path, k);
      assert IsSub(fs, p, x);
      MetOnce(fs, w, q, p);
    }
  }

  lemma DoneMet(w: Walker)
    requires Done(w)
    ensures Met(w) == multiset(ScanNodes(w.scans))
  {
    assert JobNodes(w.queue) == [] && FlightNodes(w.flying) == [];
  }

  lemma {:induction false} MultisetSize(m: multiset<NodeKey>, ks: set<NodeKey>)
    requires forall k :: k in m ==> k in ks && m[k] <= 1
    ensures |m| <= |ks|
    decreases |ks|
  {
    if k :| k in ks {
      MultisetSize(m[k := 0], ks - {k});
      assert m == m[k := 0] + multiset{k} || m == m[k := 0];
    } else {
      assert m == multiset{};
    }
  }

  lemma {:induction false} MultisetAll(m: multiset<NodeKey>, ks: set<NodeKey>)
    requires m == multiset(ks)
    ensures |m| == |ks|
    decreases |ks|
  {
    if k :| k in ks {
      assert m[k := 0] == multiset(ks - {k});
      MultisetAll(m[k := 0], ks - {k});
      assert m == m[k := 0] + multiset{k};
    } else {
      assert m == multiset{};
    }
  }

  lemma MetBounded(fs: Fs, w: Walker)
    requires Tree(fs) && MetRight(fs, w)
    ensures |w.queue| + |w.flying| + |w.scans| <= |fs.dirs.Keys|
    ensures Done(w) ==> multiset(ScanNodes(w.scans)) == multiset(fs.dirs.Keys) && |w.scans| == |fs.dirs.Keys|
  {
    TreeShaped(fs);
    hide Tree, Ranked, DirsNamedOnce;
    forall k | k in fs.dirs ensures Met(w)[k] <= 1 && (Done(w) ==> multiset(ScanNodes(w.scans))[k] == 1) {
      assert Reachable(fs, k);
      var path :| Walk(fs.dirs, fs.root, path) == Some(k);
      MetOnce(fs, w, path, k);
    }
    MultisetSize(Met(w), fs.dirs.Keys);
    if Done(w) {
      DoneMet(w);
      assert multiset(ScanNodes(w.scans)) == multiset(fs.dirs.Keys);
      MultisetAll(multiset(ScanNodes(w.scans)), fs.dirs.Keys);
    }
  }

  /** A schedule of the walk, while nobody changes the tree. */
  ghost predicate AtRest(fs: Fs, c: Setup, ws: seq<Walker>) {
    && Tree(fs)
    && (StillGuest(fs);
        WalkRun(Still(fs), c, ws))
  }

  /** Every schedule ends: two steps for each directory at most, two for each when it is done; then
      each directory has exactly one final record. */
  lemma StillWalkEnds(fs: Fs, c: Setup, ws: seq<Walker>)
    requires AtRest(fs, c, ws)
    ensures |ws| - 1 <= 2 * |fs.dirs.Keys|
    ensures Done(ws[|ws| - 1]) ==>
              |ws| - 1 == 2 * |fs.dirs.Keys| && LastRecords(ws[|ws| - 1].out) == multiset(fs.dirs.Keys)
  {
    StillGuest(fs) by { TreeShaped(fs); }
    hide Tree, WalkRun, MetRight, ScanNodes, LastRecords;
    StillWalk(fs, c, ws);
    MetBounded(fs, ws[|ws| - 1]);
  }

  // ---- a walk that is not done can go on ----------------------------------------------------------------

  ghost predicate Names(seen: seq<Seen>, x: Name) {
    exists i :: 0 <= i < |seen| && seen[i].entry.name == x
  }

  ghost predicate RightAt(h: History, d: NodeKey, t: nat, seen: seq<Seen>)
    requires Guest(h)
  {
    forall i :: 0 <= i < |seen| ==> seen[i].at == t && SeenRight(h, d, seen[i])
  }

  /** Some listing of a directory. */
  lemma {:induction false} SomeListing(h: History, d: NodeKey, t: nat, names: set<Name>) returns (seen: seq<Seen>)
    requires Guest(h) && t <= |h.ops| && d in h.states[t].dirs && names <= h.states[t].dirs[d].Keys
    ensures RightAt(h, d, t, seen)
    ensures forall x :: Names(seen, x) <==> x in names
    ensures forall i, j :: 0 <= i < j < |seen| ==> seen[i].entry.name != seen[j].entry.name
    decreases |names|
  {
    if names == {} {
      seen := [];
    } else {
      var x :| x in names;
      var rest := SomeListing(h, d, t, names - {x});
      var slot := FsSlot(h.states[t], d, x).value;
      var first := Seen(SnapEntry(x, slot.0, PlaceholderAttr(slot.1)), t);
      assert SeenRight(h, d, first);
      seen := [first] + rest;
      hide Guest, SeenRight;
      forall y ensures Names(seen, y) <==> y == x || Names(rest, y) { NamesCons(first, rest, y); }
      forall j | 0 <= j < |rest| ensures rest[j].entry.name != x { assert Names(rest, rest[j].entry.name); }
    }
  }

  lemma NamesCons(first: Seen, rest: seq<Seen>, y: Name)
    ensures Names([first] + rest, y) <==> y == first.entry.name || Names(rest, y)
  {
    var seen := [first] + rest;
    if y == first.entry.name { assert seen[0].entry.name == y; }
    if i :| 0 <= i < |rest| && rest[i].entry.name == y { assert seen[i + 1].entry.name == y; }
    if i :| 0 < i < |seen| && seen[i].entry.name == y { assert rest[i - 1].entry.name == y; }
  }

  lemma SomeScan(h: History, job: Job, t: nat) returns (scan: Scan)
    requires Guest(h) && t <= |h.ops|
    ensures Honest(h, scan) && scan.job == job && scan.openAt == scan.closeAt == t
  {
    var d := Opens(h.states[t], Last(h).root, job.path);
    if d.None? {
      scan := Scan(job, None, t, t, []);
    } else {
      var seen := SomeListing(h, d.value, t, h.states[t].dirs[d.value].Keys);
      scan := Scan(job, d, t, t, seen);
      forall x | Stays(h, d.value, x, t, t) ensures Reads(scan, x) {
        assert FsSlot(h.states[t], d.value, x).Some?;
        assert Names(seen, x);
      }
    }
  }

  /** At every moment a walk that is not done has a step to take, whatever the guest does. */
  lemma NeverStuck(h: History, c: Setup, w: Walker) returns (w': Walker)
    requires Guest(h) && WalkInv(h, c, w) && !Done(w)
    ensures Start(w, w') || exists i, scan :: Land(h, c, w, w', i, scan)
  {
    hide Guest, Honest, JobOk, GoodRecords, RecordsFrom, HasJob, Sent;
    if w.queue != [] {
      w' := w.(queue := w.queue[..|w.queue| - 1], flying := w.flying + [Flight(w.queue[|w.queue| - 1], w.now)]);
      assert Start(w, w');
    } else {
      var scan := SomeScan(h, w.flying[0].job, w.now);
      w' := Walker(w.now, w.queue + Subdirs(scan.job, EntriesSeen(scan.seen)), w.flying[..0] + w.flying[0 + 1..],
                   w.out + RecordsFrom(c, scan), w.scans + [scan]);
      assert Land(h, c, w, w', 0, scan);
    }
  }

  // ---- the assembled replica --------------------------------------------------------------------------

  /** Records only bring in what they name, and hold nothing back. */
  lemma SnapBrings(s: Share, r: SnapDir, ks: set<NodeKey>)
    requires TablesWellFormed(s) && r.dirAttr.kind == Dir && s.nodes.Keys <= ks && r.dir in ks && s.pending == map[]
    requires forall i :: 0 <= i < |r.entries| ==> r.entries[i].node in ks
    ensures ApplySnapDir(s, r).nodes.Keys <= ks && ApplySnapDir(s, r).pending == map[]
  {
    SnapParts(s, r);
    var s0, s1 := UpsertNode(s, r.dir, r.dirAttr, r.parent), SnapNodes(s, r);
    EntryNodesBring(s0, r.dir, r.entries, ks);
    FilledIs(s1, r);
    SnapNodesQuiet(s, r);
    QuietBalanced(s, s1);
    BalancedTables(s, s1);
    FilledTables(s1, r);
    hide Filled, SnapListed, UpsertNode, UpsertEntryNodes, Quiet, Balanced, ApplySnapDir, TablesWellFormed;
    DecAllCollects(Filled(s1, r), SnapListed(s1, r).unlink);
  }

  lemma {:induction false} EntryNodesBring(s: Share, parent: NodeKey, es: seq<SnapEntry>, ks: set<NodeKey>)
    requires s.nodes.Keys <= ks && s.pending == map[] && (forall i :: 0 <= i < |es| ==> es[i].node in ks)
    ensures UpsertEntryNodes(s, parent, es).nodes.Keys <= ks && UpsertEntryNodes(s, parent, es).pending == map[]
    decreases |es|
  {
    if es != [] { EntryNodesBring(UpsertNode(s, es[0].node, es[0].attr, parent), parent, es[1..], ks); }
  }

  lemma {:induction false} DecAllCollects(s: Share, ks: seq<NodeKey>)
    requires TablesWellFormed(s)
    ensures LinkDecAll(s, ks).nodes.Keys <= s.nodes.Keys && LinkDecAll(s, ks).pending == s.pending
    decreases |ks|
  {
    if ks != [] {
      hide TablesWellFormed, Collected, LinkDec;
      LinkDecCollects(s, ks[0]);
      CollectedKeepsTables(s, LinkDec(s, ks[0]), 0);
      DecAllCollects(LinkDec(s, ks[0]), ks[1..]);
    }
  }

  lemma {:induction false} SnapsBring(s: Share, rs: seq<SnapDir>, ks: set<NodeKey>)
    requires TablesWellFormed(s) && Exact(s) && s.nodes.Keys <= ks && s.pending == map[]
    requires (forall i :: 0 <= i < |rs| ==> rs[i].dirAttr.kind == Dir) && AllWithin(rs, ks)
    ensures var s' := ApplySnapDirs(s, rs);
            TablesWellFormed(s') && Exact(s') && s'.nodes.Keys <= ks && s'.pending == map[]
    decreases |rs|
  {
    if rs != [] {
      hide TablesWellFormed, Surplus, ApplySnapDir;
      var s1 := ApplySnapDir(s, rs[0]);
      SnapBrings(s, rs[0], ks);
      SnapBalanced(s, rs[0]);
      BalancedTables(s, s1);
      hide Balanced;
      forall k ensures Surplus(s1, k) == 0 {
        assert Surplus(s, k) == 0;
        SnapAccount(s, rs[0], k);
      }
      SnapsBring(s1, rs[1..], ks);
    }
  }

  ghost predicate Within(r: SnapDir, ks: set<NodeKey>) {
    r.dir in ks && forall i :: 0 <= i < |r.entries| ==> r.entries[i].node in ks
  }

  lemma ScanWithin(fs: Fs, c: Setup, scan: Scan, i: nat)
    requires Tree(fs) && Guest(Still(fs)) && Honest(Still(fs), scan) && JobOk(Still(fs), scan.job, 0)
    requires i < |RecordsFrom(c, scan)|
    ensures Within(RecordsFrom(c, scan)[i], fs.kinds.Keys)
  {
    hide Guest, Honest, JobOk;
    var rs, ks := RecordsFrom(c, scan), fs.kinds.Keys;
    StillScan(fs, scan);
    TreeShaped(fs);
    EntriesSeenAt(scan.seen);
    PiecesWhole(c.snapId, scan.job, EntriesSeen(scan.seen), c.perRecord);
    assert rs[i] == PieceOf(c.snapId, scan.job, rs[i].entries, i == |rs| - 1);
    forall j | 0 <= j < |rs[i].entries| ensures rs[i].entries[j].node in ks {
      var k := FlatFrom(rs, i, j);
      assert rs[i].entries[j] == scan.seen[k].entry;
    }
  }

  ghost predicate AllWithin(rs: seq<SnapDir>, ks: set<NodeKey>) {
    forall i :: 0 <= i < |rs| ==> Within(rs[i], ks)
  }

  lemma LandWithin(fs: Fs, c: Setup, w: Walker, w': Walker, i: nat, scan: Scan)
    requires Tree(fs) && Guest(Still(fs)) && WalkInv(Still(fs), c, w) && Land(Still(fs), c, w, w', i, scan)
    requires AllWithin(w.out, fs.kinds.Keys)
    ensures AllWithin(w'.out, fs.kinds.Keys)
  {
    hide Honest, JobOk, Guest, Tree, RecordsFrom, HasJob, Sent, GoodRecords, EntriesSeen, Subdirs, Within;
    assert JobOk(Still(fs), w.flying[i].job, w.flying[i].since);
    forall j | 0 <= j < |RecordsFrom(c, scan)| ensures Within(RecordsFrom(c, scan)[j], fs.kinds.Keys) {
      ScanWithin(fs, c, scan, j);
    }
  }

  lemma {:induction false} OutWithin(fs: Fs, c: Setup, ws: seq<Walker>)
    requires Tree(fs) && Guest(Still(fs)) && WalkRun(Still(fs), c, ws)
    ensures AllWithin(ws[|ws| - 1].out, fs.kinds.Keys)
    decreases |ws|
  {
    var h := Still(fs);
    hide Land, Honest, JobOk, WalkInv, Tree, Within;
    if |ws| > 1 {
      var w, w' := ws[|ws| - 2], ws[|ws| - 1];
      var ws0 := ws[..|ws| - 1];
      assert WalkRun(h, c, ws0);
      OutWithin(fs, c, ws0);
      assert WalkRuns.Step(h, c, ws[|ws| - 2], ws[|ws| - 2 + 1]);
      if !Start(w, w') {
        var i, scan :| Land(h, c, w, w', i, scan);
        assert DirsNamedOnce(h.states[0]) by { TreeShaped(fs); }
        WalkKeepsInv(h, c, ws0);
        LandWithin(fs, c, w, w', i, scan);
      }
    }
  }

  /** The snapshot round trip: every schedule, every record size, every arrival order of the records.
      The assembled replica is the tree itself, with exact link counts and every directory complete. */
  lemma SnapshotRoundTrip(fs: Fs, c: Setup, ws: seq<Walker>, rs: seq<SnapDir>)
    requires AtRest(fs, c, ws) && Done(ws[|ws| - 1]) && multiset(rs) == multiset(ws[|ws| - 1].out)
    ensures Guest(Still(fs)) && GoodRecords(Still(fs), rs)
    ensures var s := ApplySnapDirs(NewShare(fs.root), rs);
            Refines(fs, s) && forall d :: d in fs.dirs ==> HasDir(s, d) && s.nodes[d].dir.value.complete
  {
    var h, w := Still(fs), ws[|ws| - 1];
    assert DirsNamedOnce(h.states[0]) && WellShaped(fs) by { TreeShaped(fs); }
    StillGuest(fs);
    hide WalkInv, Guest, Tree, DirsNamedOnce, Done, Covers, Cut, WalkRun, ApplySnapDirs, Surplus, TablesWellFormed,
         Mirrors;
    WalkKeepsInv(h, c, ws);
    WalkGood(h, c, w, rs);
    WalkCovers(h, c, w, rs);
    SeedCut(h, rs);
    OutWithin(fs, c, ws);
    AllWithinMoved(w.out, rs, fs.kinds.Keys);
    NewShareIsClean(fs.root);
    SnapsBring(NewShare(fs.root), rs, fs.kinds.Keys);
    CutIsMirror(fs, ApplySnapDirs(NewShare(fs.root), rs));
  }

  lemma AllWithinMoved(a: seq<SnapDir>, b: seq<SnapDir>, ks: set<NodeKey>)
    requires AllWithin(a, ks) && multiset(a) == multiset(b)
    ensures AllWithin(b, ks)
  {
    forall i | 0 <= i < |b| ensures Within(b[i], ks) {
      assert b[i] in multiset(a);
      var j :| 0 <= j < |a| && a[j] == b[i];
    }
  }

  lemma CutIsMirror(fs: Fs, s: Share)
    requires WellShaped(fs) && Guest(Still(fs)) && Cut(Still(fs), 0, s) && s.nodes.Keys <= fs.kinds.Keys
    ensures Mirrors(fs, s) && forall d :: d in fs.dirs ==> HasDir(s, d) && s.nodes[d].dir.value.complete
  {
    var h := Still(fs);
    assert Last(h) == fs && h.states[0] == fs;
    forall k | k in fs.kinds ensures k in s.nodes { CutPresent(h, s, k); }
    forall d, n ensures Slot(s, d, n) == FsSlot(fs, d, n) {
      if d in fs.dirs { assert !TouchedFrom(h, 0, d, n); } else { assert !HasDir(s, d); }
    }
  }
}
