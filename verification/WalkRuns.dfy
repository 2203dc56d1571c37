/** Every schedule of the walk, against every history of the guest. */
module WalkRuns {
  import opened Types
  import opened Replicas
  import opened FileTrees
  import opened Refinement
  import opened GuestHistories
  import opened GuestPaths
  import opened ConsistentCuts
  import opened Seeding
  import opened Walkers

  // ---- what the guest kernel answers ---------------------------------------------------------------

  /** An entry as read, with the moment it was read at. */
  datatype Seen = Seen(entry: SnapEntry, at: nat)

  /** A scan: the directory its path opened, if any, and what was read between opening and closing. */
  datatype Scan = Scan(job: Job, dir: Option<NodeKey>, openAt: nat, closeAt: nat, seen: seq<Seen>)

  /** Slot (d, x) holds one and the same entry from `a` to `b`. */
  ghost predicate Stays(h: History, d: NodeKey, x: Name, a: nat, b: nat)
    requires Guest(h) && b <= |h.ops|
  {
    forall t :: a <= t <= b ==>
      FsSlot(h.states[t], d, x).Some? && FsSlot(h.states[t], d, x) == FsSlot(h.states[a], d, x)
  }

  ghost predicate Reads(scan: Scan, x: Name) {
    exists i :: 0 <= i < |scan.seen| && scan.seen[i].entry.name == x
  }

  /** A path that no longer leads to a directory opens nothing.  Each entry read was there when it was
      read; an entry there from opening to closing is read, and read once. */
  ghost predicate Honest(h: History, scan: Scan)
    requires Guest(h)
  {
    && scan.openAt <= scan.closeAt <= |h.ops|
    && scan.dir == Opens(h.states[scan.openAt], Last(h).root, scan.job.path)
    && (scan.dir.None? ==> scan.seen == [])
    && (forall i :: 0 <= i < |scan.seen| ==>
          scan.openAt <= scan.seen[i].at <= scan.closeAt && SeenRight(h, scan.dir.value, scan.seen[i]))
    && (scan.dir.Some? ==> forall x :: Stays(h, scan.dir.value, x, scan.openAt, scan.closeAt) ==> Reads(scan, x))
    && (forall i, j :: 0 <= i < j < |scan.seen| && scan.seen[i].entry.name == scan.seen[j].entry.name ==>
          !Stays(h, scan.dir.value, scan.seen[i].entry.name, scan.openAt, scan.closeAt))
  }

  ghost predicate SeenRight(h: History, d: NodeKey, seen: Seen)
    requires Guest(h)
  {
    seen.at <= |h.ops| && FsSlot(h.states[seen.at], d, seen.entry.name) == Some((seen.entry.node, seen.entry.attr.kind))
  }

  function Opens(fs: Fs, root: NodeKey, path: seq<Name>): Option<NodeKey> {
    match Walk(fs.dirs, root, path)
    case None => None
    case Some(k) => if k in fs.dirs then Some(k) else None
  }

  function EntriesSeen(seen: seq<Seen>): seq<SnapEntry>
    decreases |seen|
  {
    if seen == [] then [] else [seen[0].entry] + EntriesSeen(seen[1..])
  }

  lemma {:induction false} EntriesSeenAt(seen: seq<Seen>)
    ensures |EntriesSeen(seen)| == |seen| && forall i :: 0 <= i < |seen| ==> EntriesSeen(seen)[i] == seen[i].entry
    decreases |seen|
  {
    if seen != [] { EntriesSeenAt(seen[1..]); }
  }

  // ---- the walk as a machine ---------------------------------------------------------------------------

  datatype Flight = Flight(job: Job, since: nat)

  /** `now` counts guest events; `scans` remembers every finished scan. */
  datatype Walker = Walker(now: nat, queue: seq<Job>, flying: seq<Flight>, out: seq<SnapDir>, scans: seq<Scan>)

  datatype Setup = Setup(snapId: nat, perRecord: nat)

  function RecordsFrom(c: Setup, scan: Scan): seq<SnapDir> {
    Pieces(c.snapId, scan.job, EntriesSeen(scan.seen), c.perRecord)
  }

  /** A guest event. */
  ghost predicate Tick(h: History, w: Walker, w': Walker) {
    w.now < |h.ops| && w' == w.(now := w.now + 1)
  }

  /** The last job of the queue is handed to the pool. */
  ghost predicate Start(w: Walker, w': Walker) {
    && w.queue != []
    && w' == w.(queue := w.queue[..|w.queue| - 1], flying := w.flying + [Flight(w.queue[|w.queue| - 1], w.now)])
  }

  /** Any finished scan is taken up: its records go out, its subdirectories join the queue. */
  ghost predicate Land(h: History, c: Setup, w: Walker, w': Walker, i: nat, scan: Scan)
    requires Guest(h)
  {
    && i < |w.flying| && scan.job == w.flying[i].job && w.flying[i].since <= scan.openAt && scan.closeAt <= w.now
    && Honest(h, scan)
    && w' == Walker(w.now, w.queue + Subdirs(scan.job, EntriesSeen(scan.seen)), w.flying[..i] + w.flying[i + 1..],
                    w.out + RecordsFrom(c, scan), w.scans + [scan])
  }

  ghost predicate Step(h: History, c: Setup, w: Walker, w': Walker)
    requires Guest(h)
  {
    Tick(h, w, w') || Start(w, w') || exists i, scan :: Land(h, c, w, w', i, scan)
  }

  function RootJob(root: NodeKey, attr: Attr): Job {
    Job([], root, attr, root)
  }

  ghost predicate Begins(h: History, w: Walker)
    requires Guest(h)
  {
    && w.now <= |h.ops| && w.flying == [] && w.out == [] && w.scans == []
    && |w.queue| == 1 && w.queue[0] == RootJob(Last(h).root, w.queue[0].attr) && w.queue[0].attr.kind == Dir
  }

  ghost predicate WalkRun(h: History, c: Setup, ws: seq<Walker>)
    requires Guest(h)
  {
    && ws != [] && Begins(h, ws[0])
    && forall i :: 0 <= i < |ws| - 1 ==> Step(h, c, ws[i], ws[i + 1])
  }

  /** No job waiting and none in flight: the loop ends. */
  predicate Done(w: Walker) {
    w.queue == [] && w.flying == []
  }

  // ---- what is known of a job --------------------------------------------------------------------------

  ghost predicate WasThere(h: History, k: NodeKey, t: nat)
    requires Guest(h) && t <= |h.ops|
  {
    exists t' :: 0 <= t' <= t && k in h.states[t'].kinds
  }

  /** A job found at or before `t`.  If its directory lasts, it is there and its path is its own for good;
      and a path that is a steady directory's from start to end has led to that directory. */
  ghost predicate JobOk(h: History, job: Job, t: nat)
    requires Guest(h) && t <= |h.ops|
  {
    && job.attr.kind == Dir && KindOk(h, job.node, Some(job.attr)) && WasThere(h, job.node, t)
    && (job.node in Last(h).kinds ==>
          job.node in h.states[t].kinds && Walk(Last(h).dirs, Last(h).root, job.path) == Some(job.node))
    && (forall k :: k in Steady(h) && Walk(Last(h).dirs, Last(h).root, job.path) == Some(k) ==> job.node == k)
  }

  lemma JobLater(h: History, job: Job, t: nat, t': nat)
    requires Guest(h) && t <= t' <= |h.ops| && JobOk(h, job, t)
    ensures JobOk(h, job, t')
  {
    if job.node in Last(h).kinds { Lasts(h, t, t', job.node); }
  }

  lemma RootJobOk(h: History, job: Job, t: nat)
    requires Guest(h) && t <= |h.ops| && job == RootJob(Last(h).root, job.attr) && job.attr.kind == Dir
    ensures JobOk(h, job, t)
  {
    StatesWellShaped(h, t);
    StatesWellShaped(h, |h.ops|);
    SameRoot(h, t);
    SameRoot(h, |h.ops|);
  }

  /** A job whose object lasts opens that object. */
  lemma LastingOpens(h: History, scan: Scan)
    requires Guest(h) && Honest(h, scan) && JobOk(h, scan.job, scan.openAt) && scan.job.node in Last(h).kinds
    ensures scan.dir == Some(scan.job.node)
  {
    var k := scan.job.node;
    StatesWellShaped(h, |h.ops|);
    PathLasts(h, scan.openAt, scan.openAt, scan.job.path, k);
    StatesWellShaped(h, scan.openAt);
    KindSettled(h, scan.openAt, k);
  }

  /** Opening a steady directory means the job is for it. */
  lemma SteadyOpened(h: History, scan: Scan)
    requires Guest(h) && DirsNamedOnce(h.states[0]) && Honest(h, scan) && JobOk(h, scan.job, scan.openAt)
    requires scan.dir.Some? && scan.dir.value in Steady(h)
    ensures scan.job.node == scan.dir.value
  {
    var d := scan.dir.value;
    DirsAreKinds(h, scan.openAt, d);
    FoundAtFinalPath(h, scan.openAt, scan.job.path, d);
  }

  /** What is read tells the kind of an object that lasts. */
  lemma SeenKind(h: History, scan: Scan, i: nat)
    requires Guest(h) && Honest(h, scan) && i < |scan.seen| && scan.seen[i].entry.node in Last(h).kinds
    ensures var e := scan.seen[i].entry;
            e.node in h.states[scan.seen[i].at].kinds && e.attr.kind == Last(h).kinds[e.node]
  {
    var d, e, t := scan.dir.value, scan.seen[i].entry, scan.seen[i].at;
    assert SeenRight(h, d, scan.seen[i]);
    NamedIsThere(h, t, d, e.name);
    KindSettled(h, t, e.node);
  }

  /** What is read of a lasting directory is its final place. */
  lemma SeenLasts(h: History, scan: Scan, i: nat)
    requires Guest(h) && DirsNamedOnce(h.states[0]) && Honest(h, scan) && i < |scan.seen|
    requires scan.seen[i].entry.node in Last(h).dirs
    ensures var e := scan.seen[i].entry;
            && Entry(Last(h).dirs, scan.dir.value, e.name) == Some(e.node)
            && Walk(Last(h).dirs, Last(h).root, scan.job.path) == Some(scan.dir.value)
  {
    var d, e, t := scan.dir.value, scan.seen[i].entry, scan.seen[i].at;
    assert SeenRight(h, d, scan.seen[i]);
    FoundUnderFinalName(h, t, d, e.name, e.node);
    DirsAreKinds(h, scan.openAt, d);
    FoundAtFinalPath(h, scan.openAt, scan.job.path, d);
  }

  /** A subdirectory found makes a sound job. */
  lemma ChildOk(h: History, scan: Scan, i: nat)
    requires Guest(h) && DirsNamedOnce(h.states[0]) && Honest(h, scan) && i < |scan.seen|
    requires scan.seen[i].entry.attr.kind == Dir
    ensures JobOk(h, ChildJob(scan.job, scan.seen[i].entry), scan.closeAt)
  {
    var d, e, t := scan.dir.value, scan.seen[i].entry, scan.seen[i].at;
    var job := ChildJob(scan.job, e);
    assert SeenRight(h, d, scan.seen[i]);
    NamedIsThere(h, t, d, e.name);
    var root := Last(h).root;
    WalkSnoc(Last(h).dirs, root, scan.job.path, e.name);
    if e.node in Last(h).kinds {
      SeenKind(h, scan, i);
      assert e.node in Last(h).dirs by { StatesWellShaped(h, |h.ops|); }
      SeenLasts(h, scan, i);
      Lasts(h, t, scan.closeAt, e.node);
    }
    if Walk(Last(h).dirs, root, job.path).Some? && Walk(Last(h).dirs, root, job.path).value in Steady(h) {
      SteadyChild(h, scan, i, Walk(Last(h).dirs, root, job.path).value);
    }
  }

  lemma SteadyChild(h: History, scan: Scan, i: nat, k: NodeKey)
    requires Guest(h) && Honest(h, scan) && i < |scan.seen| && k in Steady(h)
    requires Walk(Last(h).dirs, Last(h).root, scan.job.path + [scan.seen[i].entry.name]) == Some(k)
    ensures scan.seen[i].entry.node == k
  {
    var x, t := scan.seen[i].entry.name, scan.seen[i].at;
    WalkSnoc(Last(h).dirs, Last(h).root, scan.job.path, x);
    var p := Walk(Last(h).dirs, Last(h).root, scan.job.path).value;
    SteadyName(h, p, x, k);
    PathLasts(h, 0, scan.openAt, scan.job.path, p);
    assert scan.dir == Some(p);
    assert SeenRight(h, p, scan.seen[i]);
    UntouchedLater(h, 0, t, p, x);
    UntouchedSlot(h, t, p, x);
  }

  lemma UntouchedLater(h: History, i: nat, j: nat, d: NodeKey, x: Name)
    requires i <= j && !TouchedFrom(h, i, d, x)
    ensures !TouchedFrom(h, j, d, x)
  {}

  // ---- the records of a sound scan -----------------------------------------------------------------------

  lemma SeenAdmissible(h: History, scan: Scan, i: nat)
    requires Guest(h) && DirsNamedOnce(h.states[0]) && Honest(h, scan) && JobOk(h, scan.job, scan.openAt)
    requires i < |scan.seen|
    ensures var e := scan.seen[i].entry;
            KindOk(h, e.node, Some(e.attr)) && Admissible(h, scan.job.node, e.name, (e.node, e.attr.kind))
  {
    var d, e, t, node := scan.dir.value, scan.seen[i].entry, scan.seen[i].at, scan.job.node;
    assert SeenRight(h, d, scan.seen[i]);
    if e.node in Last(h).kinds { SeenKind(h, scan, i); }
    if node in Last(h).dirs && !TouchedFrom(h, 0, node, e.name) {
      DirsAreKinds(h, |h.ops|, node);
      LastingOpens(h, scan);
      UntouchedLater(h, 0, t, node, e.name);
      UntouchedSlot(h, t, node, e.name);
      UntouchedSlot(h, 0, node, e.name);
    }
    if e.node in Steady(h) {
      SeenLasts(h, scan, i);
      SteadyName(h, d, e.name, e.node);
      SteadyOpened(h, scan);
    }
  }

  lemma ScanGood(h: History, c: Setup, scan: Scan)
    requires Guest(h) && DirsNamedOnce(h.states[0]) && Honest(h, scan) && JobOk(h, scan.job, scan.openAt)
    ensures GoodRecords(h, RecordsFrom(c, scan))
  {
    var rs := RecordsFrom(c, scan);
    EntriesSeenAt(scan.seen);
    PiecesWhole(c.snapId, scan.job, EntriesSeen(scan.seen), c.perRecord);
    hide Guest, Honest, DirsNamedOnce, Admissible, KindOk, Pieces, EntriesSeen;
    forall i | 0 <= i < |rs| ensures rs[i].dirAttr.kind == Dir && GoodRecord(h, rs[i]) {
      assert rs[i] == PieceOf(c.snapId, scan.job, rs[i].entries, i == |rs| - 1);
      forall j | 0 <= j < |rs[i].entries|
        ensures var e := rs[i].entries[j];
                KindOk(h, e.node, Some(e.attr)) && Admissible(h, rs[i].dir, e.name, (e.node, e.attr.kind))
      {
        var k := FlatFrom(rs, i, j);
        SeenAdmissible(h, scan, k);
      }
    }
  }

  // ---- what every schedule keeps ---------------------------------------------------------------------------

  ghost predicate HasJob(w: Walker, job: Job) {
    || (exists i :: 0 <= i < |w.queue| && w.queue[i] == job)
    || (exists i :: 0 <= i < |w.flying| && w.flying[i].job == job)
    || (exists i :: 0 <= i < |w.scans| && w.scans[i].job == job)
  }

  ghost predicate Sent(w: Walker, r: SnapDir) {
    exists i :: 0 <= i < |w.out| && w.out[i] == r
  }

  /** All a walk keeps true: its jobs and scans are sound, what it sent is sound, every finished scan is
      sent, and every directory found has a job. */
  ghost predicate WalkInv(h: History, c: Setup, w: Walker)
    requires Guest(h)
  {
    && w.now <= |h.ops|
    && (forall i :: 0 <= i < |w.queue| ==> JobOk(h, w.queue[i], w.now))
    && (forall i :: 0 <= i < |w.flying| ==> w.flying[i].since <= w.now && JobOk(h, w.flying[i].job, w.flying[i].since))
    && (forall i :: 0 <= i < |w.scans| ==> Honest(h, w.scans[i]) && JobOk(h, w.scans[i].job, w.scans[i].openAt))
    && GoodRecords(h, w.out)
    && (forall i, j :: 0 <= i < |w.scans| && 0 <= j < |RecordsFrom(c, w.scans[i])| ==>
          Sent(w, RecordsFrom(c, w.scans[i])[j]))
    && (forall i, j :: 0 <= i < |w.scans| && 0 <= j < |w.scans[i].seen| && w.scans[i].seen[j].entry.attr.kind == Dir ==>
          HasJob(w, ChildJob(w.scans[i].job, w.scans[i].seen[j].entry)))
    && (exists attr :: HasJob(w, RootJob(Last(h).root, attr)))
  }

  lemma BeginsInv(h: History, c: Setup, w: Walker)
    requires Guest(h) && Begins(h, w)
    ensures WalkInv(h, c, w)
  {
    hide Guest, JobOk, Honest, RecordsFrom, Sent;
    RootJobOk(h, w.queue[0], w.now);
    assert HasJob(w, RootJob(Last(h).root, w.queue[0].attr));
  }

  lemma TickInv(h: History, c: Setup, w: Walker, w': Walker)
    requires Guest(h) && WalkInv(h, c, w) && Tick(h, w, w')
    ensures WalkInv(h, c, w')
  {
    hide Guest, JobOk, Honest;
    forall i | 0 <= i < |w'.queue| ensures JobOk(h, w'.queue[i], w'.now) { JobLater(h, w.queue[i], w.now, w'.now); }
    assert forall r :: Sent(w', r) <==> Sent(w, r);
    assert forall job :: HasJob(w', job) <==> HasJob(w, job);
    hide HasJob, Sent, RecordsFrom, GoodRecords;
  }

  lemma StartJobs(w: Walker, w': Walker, job: Job)
    requires Start(w, w') && HasJob(w, job)
    ensures HasJob(w', job)
  {
    var n := |w.queue| - 1;
    assert w'.flying[|w.flying|].job == w.queue[n];
    if i :| 0 <= i < |w.queue| && w.queue[i] == job {
      if i < n { assert w'.queue[i] == job; }
    } else if i :| 0 <= i < |w.flying| && w.flying[i].job == job {
      assert w'.flying[i].job == job;
    }
  }

  lemma StartInv(h: History, c: Setup, w: Walker, w': Walker)
    requires Guest(h) && WalkInv(h, c, w) && Start(w, w')
    ensures WalkInv(h, c, w')
  {
    hide Guest, JobOk, Honest, GoodRecords, RecordsFrom, HasJob;
    forall job | HasJob(w, job) ensures HasJob(w', job) { StartJobs(w, w', job); }
    assert forall r :: Sent(w', r) <==> Sent(w, r);
    hide Sent;
    var attr :| HasJob(w, RootJob(Last(h).root, attr));
    assert HasJob(w', RootJob(Last(h).root, attr));
  }

  lemma LandJobs(h: History, c: Setup, w: Walker, w': Walker, i: nat, scan: Scan, job: Job)
    requires Guest(h) && Land(h, c, w, w', i, scan) && HasJob(w, job)
    ensures HasJob(w', job)
  {
    hide Guest, Honest, Subdirs, RecordsFrom;
    assert w'.scans[|w.scans|].job == w.flying[i].job;
    if j :| 0 <= j < |w.queue| && w.queue[j] == job {
      assert w'.queue[j] == job;
    } else if j :| 0 <= j < |w.flying| && w.flying[j].job == job {
      if j < i { assert w'.flying[j].job == job; }
      if i < j { assert w'.flying[j - 1].job == job; }
    } else {
      var j :| 0 <= j < |w.scans| && w.scans[j].job == job;
      assert w'.scans[j].job == job;
    }
  }

  lemma LandSent(h: History, c: Setup, w: Walker, w': Walker, i: nat, scan: Scan)
    requires Guest(h) && Land(h, c, w, w', i, scan)
    ensures forall r :: Sent(w, r) ==> Sent(w', r)
    ensures forall j :: 0 <= j < |RecordsFrom(c, scan)| ==> Sent(w', RecordsFrom(c, scan)[j])
  {
    hide Guest, Honest, Subdirs, RecordsFrom;
    forall r | Sent(w, r) ensures Sent(w', r) {
      var j :| 0 <= j < |w.out| && w.out[j] == r;
      assert w'.out[j] == r;
    }
    forall j | 0 <= j < |RecordsFrom(c, scan)| ensures Sent(w', RecordsFrom(c, scan)[j]) {
      assert w'.out[|w.out| + j] == RecordsFrom(c, scan)[j];
    }
  }

  lemma LandQueue(h: History, c: Setup, w: Walker, w': Walker, i: nat, scan: Scan, j: nat)
    requires Guest(h) && DirsNamedOnce(h.states[0]) && Land(h, c, w, w', i, scan) && w.now <= |h.ops|
    requires |w.queue| <= j < |w'.queue|
    ensures JobOk(h, w'.queue[j], w.now)
  {
    var es := EntriesSeen(scan.seen);
    EntriesSeenAt(scan.seen);
    hide Guest, Honest, Subdirs, RecordsFrom, JobOk, EntriesSeen, ChildJob, DirsNamedOnce;
    var m := SubdirFrom(scan.job, es, j - |w.queue|);
    ChildOk(h, scan, m);
    JobLater(h, ChildJob(scan.job, es[m]), scan.closeAt, w.now);
  }

  lemma LandChild(h: History, c: Setup, w: Walker, w': Walker, i: nat, scan: Scan, j: nat)
    requires Guest(h) && Land(h, c, w, w', i, scan)
    requires j < |scan.seen| && scan.seen[j].entry.attr.kind == Dir
    ensures HasJob(w', ChildJob(scan.job, scan.seen[j].entry))
  {
    var es := EntriesSeen(scan.seen);
    EntriesSeenAt(scan.seen);
    hide Guest, Honest, Subdirs, RecordsFrom, EntriesSeen, ChildJob;
    var m := SubdirOf(scan.job, es, j);
    assert w'.queue[|w.queue| + m] == ChildJob(scan.job, es[j]);
  }

  lemma GoodConcat(h: History, a: seq<SnapDir>, b: seq<SnapDir>)
    requires Guest(h) && GoodRecords(h, a) && GoodRecords(h, b)
    ensures GoodRecords(h, a + b)
  {
    hide Guest, GoodRecord;
  }

  lemma LandInv(h: History, c: Setup, w: Walker, w': Walker, i: nat, scan: Scan)
    requires Guest(h) && DirsNamedOnce(h.states[0]) && WalkInv(h, c, w) && Land(h, c, w, w', i, scan)
    ensures WalkInv(h, c, w')
  {
    hide Guest, DirsNamedOnce, Honest, JobOk, GoodRecords, RecordsFrom, HasJob, Sent, Subdirs, EntriesSeen, ChildJob;
    assert scan.openAt <= scan.closeAt <= |h.ops| by { HonestTimes(h, scan); }
    JobLater(h, scan.job, w.flying[i].since, scan.openAt);
    ScanGood(h, c, scan);
    GoodConcat(h, w.out, RecordsFrom(c, scan));
    forall j | |w.queue| <= j < |w'.queue| ensures JobOk(h, w'.queue[j], w.now) { LandQueue(h, c, w, w', i, scan, j); }
    forall j | 0 <= j < |scan.seen| && scan.seen[j].entry.attr.kind == Dir
      ensures HasJob(w', ChildJob(scan.job, scan.seen[j].entry)) { LandChild(h, c, w, w', i, scan, j); }
    LandSent(h, c, w, w', i, scan);
    forall job | HasJob(w, job) ensures HasJob(w', job) { LandJobs(h, c, w, w', i, scan, job); }
    var attr :| HasJob(w, RootJob(Last(h).root, attr));
    assert HasJob(w', RootJob(Last(h).root, attr));
  }

  lemma HonestTimes(h: History, scan: Scan)
    requires Guest(h) && Honest(h, scan)
    ensures scan.openAt <= scan.closeAt <= |h.ops|
  {}

  lemma {:induction false} WalkKeepsInv(h: History, c: Setup, ws: seq<Walker>)
    requires Guest(h) && DirsNamedOnce(h.states[0]) && WalkRun(h, c, ws)
    ensures WalkInv(h, c, ws[|ws| - 1])
    decreases |ws|
  {
    hide Guest, DirsNamedOnce, WalkInv, Land, Tick, Start, Begins;
    if |ws| == 1 {
      BeginsInv(h, c, ws[0]);
    } else {
      var w, w' := ws[|ws| - 2], ws[|ws| - 1];
      assert WalkRun(h, c, ws[..|ws| - 1]);
      WalkKeepsInv(h, c, ws[..|ws| - 1]);
      assert Step(h, c, ws[|ws| - 2], ws[|ws| - 2 + 1]);
      if Tick(h, w, w') {
        TickInv(h, c, w, w');
      } else if Start(w, w') {
        StartInv(h, c, w, w');
      } else {
        var i, scan :| Land(h, c, w, w', i, scan);
        LandInv(h, c, w, w', i, scan);
      }
    }
  }

  // ---- when the walk is done -------------------------------------------------------------------------------

  /** An entry never touched is in the listing of its steady directory throughout. */
  lemma SteadyRead(h: History, scan: Scan, x: Name)
    requires Guest(h) && Honest(h, scan) && scan.dir.Some? && scan.dir.value in Steady(h)
    requires scan.dir.value in Last(h).dirs && Entry(h.states[0].dirs, scan.dir.value, x).Some?
    requires !TouchedFrom(h, 0, scan.dir.value, x)
    ensures exists i :: 0 <= i < |scan.seen| && scan.seen[i].entry.name == x
              && Some(scan.seen[i].entry.node) == Entry(h.states[0].dirs, scan.dir.value, x)
  {
    var d := scan.dir.value;
    forall t | 0 <= t <= |h.ops| ensures FsSlot(h.states[t], d, x) == FsSlot(h.states[0], d, x) {
      UntouchedLater(h, 0, t, d, x);
      UntouchedSlot(h, t, d, x);
      UntouchedSlot(h, 0, d, x);
    }
    assert Stays(h, d, x, scan.openAt, scan.closeAt);
    assert Reads(scan, x);
    var i :| 0 <= i < |scan.seen| && scan.seen[i].entry.name == x;
    assert SeenRight(h, d, scan.seen[i]);
  }

  lemma ChildScanned(h: History, c: Setup, w: Walker, j: nat, m: nat) returns (i: nat)
    requires Guest(h) && WalkInv(h, c, w) && Done(w)
    requires j < |w.scans| && m < |w.scans[j].seen| && w.scans[j].seen[m].entry.attr.kind == Dir
    ensures i < |w.scans| && w.scans[i].job == ChildJob(w.scans[j].job, w.scans[j].seen[m].entry)
  {
    hide Guest, GoodRecords, RecordsFrom, Sent, Honest, JobOk;
    assert HasJob(w, ChildJob(w.scans[j].job, w.scans[j].seen[m].entry));
    i :| 0 <= i < |w.scans| && w.scans[i].job == ChildJob(w.scans[j].job, w.scans[j].seen[m].entry);
  }

  lemma RootScanned(h: History, c: Setup, w: Walker) returns (i: nat)
    requires Guest(h) && WalkInv(h, c, w) && Done(w)
    ensures i < |w.scans| && w.scans[i].job.path == [] && w.scans[i].job.node == Last(h).root
  {
    hide Guest, GoodRecords, RecordsFrom, Sent, Honest, JobOk;
    var attr :| HasJob(w, RootJob(Last(h).root, attr));
    i :| 0 <= i < |w.scans| && w.scans[i].job == RootJob(Last(h).root, attr);
  }

  lemma ScansHonest(h: History, c: Setup, w: Walker, i: nat)
    requires Guest(h) && WalkInv(h, c, w) && i < |w.scans|
    ensures w.scans[i].openAt <= |h.ops| && Honest(h, w.scans[i]) && JobOk(h, w.scans[i].job, w.scans[i].openAt)
  {
    hide Guest, JobOk, GoodRecords, RecordsFrom, Sent, HasJob;
  }

  /** Every steady directory has been scanned, and as itself. */
  lemma {:induction false} SteadyScanned(h: History, c: Setup, w: Walker, path: seq<Name>, d: NodeKey) returns (i: nat)
    requires Guest(h) && DirsNamedOnce(h.states[0]) && WalkInv(h, c, w) && Done(w)
    requires d in Steady(h) && d in Last(h).dirs && Walk(Last(h).dirs, Last(h).root, path) == Some(d)
    ensures i < |w.scans| && w.scans[i].job.node == d && w.scans[i].dir == Some(d) && w.scans[i].job.path == path
    decreases |path|
  {
    hide Guest, DirsNamedOnce, WalkInv, Done, Honest, JobOk, TouchedFrom;
    if path == [] {
      i := RootScanned(h, c, w);
    } else {
      var q, x := path[..|path| - 1], path[|path| - 1];
      var p := FinalParent(h, path, d);
      SteadyName(h, p, x, d);
      var j := SteadyScanned(h, c, w, q, p);
      ScansHonest(h, c, w, j);
      SteadyRead(h, w.scans[j], x);
      var m :| 0 <= m < |w.scans[j].seen| && w.scans[j].seen[m].entry.name == x && w.scans[j].seen[m].entry.node == d;
      SteadyDirKind(h, w.scans[j], m);
      i := ChildScanned(h, c, w, j, m);
      assert path == q + [x];
    }
    ScansHonest(h, c, w, i);
    DirsAreKinds(h, |h.ops|, d);
    LastingOpens(h, w.scans[i]);
  }

  lemma SteadyDirKind(h: History, scan: Scan, i: nat)
    requires Guest(h) && Honest(h, scan) && i < |scan.seen| && scan.seen[i].entry.node in Last(h).dirs
    ensures scan.seen[i].entry.attr.kind == Dir
  {
    DirsAreKinds(h, |h.ops|, scan.seen[i].entry.node);
    SeenKind(h, scan, i);
  }

  lemma SentFrom(h: History, c: Setup, w: Walker, rs: seq<SnapDir>, i: nat, j: nat) returns (m: nat)
    requires Guest(h) && WalkInv(h, c, w) && multiset(rs) == multiset(w.out)
    requires i < |w.scans| && j < |RecordsFrom(c, w.scans[i])|
    ensures m < |rs| && rs[m] == RecordsFrom(c, w.scans[i])[j]
  {
    hide Guest, JobOk, Honest, GoodRecords, HasJob, RecordsFrom;
    assert Sent(w, RecordsFrom(c, w.scans[i])[j]);
    assert RecordsFrom(c, w.scans[i])[j] in multiset(rs);
    m :| 0 <= m < |rs| && rs[m] == RecordsFrom(c, w.scans[i])[j];
  }

  lemma WalkGood(h: History, c: Setup, w: Walker, rs: seq<SnapDir>)
    requires Guest(h) && WalkInv(h, c, w) && multiset(rs) == multiset(w.out)
    ensures GoodRecords(h, rs)
  {
    hide Guest, JobOk, Honest, HasJob, RecordsFrom, Sent, GoodRecord;
    forall i | 0 <= i < |rs| ensures rs[i].dirAttr.kind == Dir && GoodRecord(h, rs[i]) {
      assert rs[i] in multiset(w.out);
      var j :| 0 <= j < |w.out| && w.out[j] == rs[i];
    }
  }

  lemma PathTo(h: History, d: NodeKey) returns (path: seq<Name>)
    requires Guest(h) && d in Last(h).dirs
    ensures Walk(Last(h).dirs, Last(h).root, path) == Some(d)
  {
    StatesWellShaped(h, |h.ops|);
    assert Reachable(Last(h), d);
    path :| Walk(Last(h).dirs, Last(h).root, path) == Some(d);
  }

  lemma WalkEnds(h: History, c: Setup, w: Walker, rs: seq<SnapDir>, d: NodeKey)
    requires Guest(h) && DirsNamedOnce(h.states[0]) && WalkInv(h, c, w) && Done(w) && multiset(rs) == multiset(w.out)
    requires d in Steady(h) && d in Last(h).dirs
    ensures Ends(rs, d)
  {
    hide Guest, DirsNamedOnce, WalkInv, Done, Pieces, EntriesSeen;
    var path := PathTo(h, d);
    var i := SteadyScanned(h, c, w, path, d);
    var ps := RecordsFrom(c, w.scans[i]);
    PiecesWhole(c.snapId, w.scans[i].job, EntriesSeen(w.scans[i].seen), c.perRecord);
    var m := SentFrom(h, c, w, rs, i, |ps| - 1);
    assert rs[m].dir == d && rs[m].last;
  }

  lemma SeenSent(h: History, c: Setup, w: Walker, rs: seq<SnapDir>, i: nat, k: nat)
    requires Guest(h) && WalkInv(h, c, w) && multiset(rs) == multiset(w.out)
    requires i < |w.scans| && k < |w.scans[i].seen|
    ensures var e := w.scans[i].seen[k].entry; Lists(rs, w.scans[i].job.node, e.name, e.node)
  {
    hide Guest, WalkInv, Pieces, EntriesSeen;
    var scan := w.scans[i];
    EntriesSeenAt(scan.seen);
    PiecesWhole(c.snapId, scan.job, EntriesSeen(scan.seen), c.perRecord);
    var a, b := FlatHas(RecordsFrom(c, scan), k);
    var m := SentFrom(h, c, w, rs, i, a);
    assert Entered(rs[m], b, scan.job.node, scan.seen[k].entry.name, scan.seen[k].entry.node);
  }

  lemma WalkLists(h: History, c: Setup, w: Walker, rs: seq<SnapDir>, d: NodeKey, x: Name)
    requires Guest(h) && DirsNamedOnce(h.states[0]) && WalkInv(h, c, w) && Done(w) && multiset(rs) == multiset(w.out)
    requires d in Steady(h) && d in Last(h).dirs && !TouchedFrom(h, 0, d, x) && Entry(h.states[0].dirs, d, x).Some?
    ensures Lists(rs, d, x, Entry(h.states[0].dirs, d, x).value)
  {
    var held := Entry(h.states[0].dirs, d, x);
    hide Guest, DirsNamedOnce, WalkInv, Done, Honest, TouchedFrom, Walk, Lists;
    var path := PathTo(h, d);
    var i := SteadyScanned(h, c, w, path, d);
    var scan := w.scans[i];
    ScansHonest(h, c, w, i);
    SteadyRead(h, scan, x);
    var k :| 0 <= k < |scan.seen| && scan.seen[k].entry.name == x
               && Some(scan.seen[k].entry.node) == held;
    SeenSent(h, c, w, rs, i, k);
  }

  /** A finished walk has covered what it must, in whatever order its records arrive. */
  lemma WalkCovers(h: History, c: Setup, w: Walker, rs: seq<SnapDir>)
    requires Guest(h) && DirsNamedOnce(h.states[0]) && WalkInv(h, c, w) && Done(w) && multiset(rs) == multiset(w.out)
    ensures Covers(h, rs)
  {
    hide DirsNamedOnce, WalkInv, Done, TouchedFrom, Ends, Lists;
    forall d | d in Steady(h) && d in h.states[0].dirs ensures Ends(rs, d) {
      SteadyIsDir(h, d);
      WalkEnds(h, c, w, rs, d);
    }
    forall d, x | d in Steady(h) && d in h.states[0].dirs && x in h.states[0].dirs[d] && !TouchedFrom(h, 0, d, x)
      ensures Lists(rs, d, x, h.states[0].dirs[d][x])
    {
      SteadyIsDir(h, d);
      WalkLists(h, c, w, rs, d, x);
    }
  }

  lemma SteadyIsDir(h: History, d: NodeKey)
    requires Guest(h) && d in Steady(h) && d in h.states[0].dirs
    ensures d in Last(h).dirs
  {
    StatesWellShaped(h, 0);
    StatesWellShaped(h, |h.ops|);
    KindSettled(h, 0, d);
  }

  /** The consistent cut: any schedule of the walk, racing any history of creates, hard links and removes; any
      arrival order of its records; then the journal buffered since before the walk began.  Every path
      answers as at the guest's end: same names, same objects, same kinds, every directory complete. */
  lemma RacingWalk(h: History, c: Setup, ws: seq<Walker>, rs: seq<SnapDir>, items: seq<Item>, path: seq<Name>)
    requires Guest(h) && DirsNamedOnce(h.states[0]) && WalkRun(h, c, ws) && Done(ws[|ws| - 1])
    requires multiset(rs) == multiset(ws[|ws| - 1].out)
    requires Tells(h, 0, |h.ops|, items)
    ensures GoodRecords(h, rs)
    ensures var s := ApplyRecs(ApplySnapDirs(NewShare(Last(h).root), rs), RecordsOf(items));
            && Resolve(s, s.root, path) == Walk(Last(h).dirs, Last(h).root, path)
            && (Resolve(s, s.root, path).Some? ==>
                  var k := Resolve(s, s.root, path).value;
                  && k in Last(h).kinds && k in s.nodes && s.nodes[k].attr.kind == Last(h).kinds[k]
                  && (k in Last(h).dirs ==> HasDir(s, k) && s.nodes[k].dir.value.complete))
  {
    var w := ws[|ws| - 1];
    hide Guest, DirsNamedOnce, WalkInv, Done, Covers, Tells;
    WalkKeepsInv(h, c, ws);
    WalkGood(h, c, w, rs);
    WalkCovers(h, c, w, rs);
    ConsistentCut(h, rs, items, path);
  }
}
