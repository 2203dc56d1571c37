/** The replica of a file system that only it describes: every legal history, applied record by
    record, leaves the replica with exactly the file system's tree and nothing else. */
module Refinement {
  import opened Types
  import opened DirViews
  import opened Replicas
  import opened Collection
  import opened ReplicaInvariants
  import opened ReplicaRuns
  import opened FileTrees

  function Slot(s: Share, d: NodeKey, n: Name): Option<(NodeKey, Kind)> {
    if n in Table(s, d) then Some((Table(s, d)[n].node, Table(s, d)[n].kind)) else None
  }

  function FsSlot(fs: Fs, d: NodeKey, n: Name): Option<(NodeKey, Kind)> {
    match Entry(fs.dirs, d, n)
    case None => None
    case Some(k) => Some((k, if k in fs.kinds then fs.kinds[k] else Reg))
  }

  /** Same objects, same kinds, same listings. */
  ghost predicate Mirrors(fs: Fs, s: Share) {
    && s.root == fs.root
    && s.nodes.Keys == fs.kinds.Keys
    && (forall k :: k in s.nodes ==> s.nodes[k].attr.kind == fs.kinds[k])
    && (forall k :: k in s.nodes ==> (s.nodes[k].dir.Some? <==> k in fs.dirs))
    && (forall d, n :: Slot(s, d, n) == FsSlot(fs, d, n))
  }

  /** A mirror with sound books. */
  ghost predicate Refines(fs: Fs, s: Share) {
    && Mirrors(fs, s)
    && TablesWellFormed(s)
    && Exact(s)
    && s.pending == map[]
  }

  // ---- what the primitive steps do to listings ------------------------------------------------

  /** Links, parents and tables aside, the nodes are the same. */
  ghost predicate SameObjects(s: Share, s': Share) {
    && s'.root == s.root
    && s'.pending == s.pending
    && s'.nodes.Keys == s.nodes.Keys
    && (forall k :: k in s.nodes ==> s'.nodes[k].attr == s.nodes[k].attr)
    && (forall k :: k in s.nodes ==> s'.nodes[k].dir.Some? == s.nodes[k].dir.Some?)
  }

  /** The parents too. */
  ghost predicate SameNodes(s: Share, s': Share) {
    && SameObjects(s, s')
    && forall k :: k in s.nodes ==> s'.nodes[k].parent == s.nodes[k].parent
  }

  lemma PlacedSlots(s: Share, p: NodeKey, name: Name, node: NodeKey, kind: Kind)
    requires HasDir(s, p)
    ensures var s' := Placed(s, p, name, node, kind);
            && SameNodes(s, s')
            && (forall k :: k in s.nodes ==> s'.nodes[k].links == s.nodes[k].links)
            && (forall d, n :: Slot(s', d, n) == if d == p && n == name then Some((node, kind)) else Slot(s, d, n))
  {}

  lemma ClearedSlots(s: Share, p: NodeKey, name: Name)
    requires name in Table(s, p)
    ensures var s' := Cleared(s, p, name);
            && SameNodes(s, s')
            && (forall k :: k in s.nodes ==> s'.nodes[k].links == s.nodes[k].links)
            && (forall d, n :: Slot(s', d, n) == if d == p && n == name then None else Slot(s, d, n))
  {}

  lemma LinkIncSlots(s: Share, key: NodeKey)
    ensures SameNodes(s, LinkInc(s, key))
    ensures forall d, n :: Slot(LinkInc(s, key), d, n) == Slot(s, d, n)
  {}

  lemma SetParentSlots(s: Share, key: NodeKey, parent: NodeKey)
    ensures SameObjects(s, SetParent(s, key, parent))
    ensures forall k :: k in s.nodes ==> SetParent(s, key, parent).nodes[k].links == s.nodes[k].links
    ensures forall d, n :: Slot(SetParent(s, key, parent), d, n) == Slot(s, d, n)
  {}

  lemma MirrorsCarry(fs: Fs, s: Share, s': Share)
    requires Mirrors(fs, s) && SameObjects(s, s')
    requires forall d, n :: Slot(s', d, n) == Slot(s, d, n)
    ensures Mirrors(fs, s')
  {}

  // ---- collection removes exactly the unreachable ---------------------------------------------

  lemma EdgesMatch(fs: Fs, s: Share, e: Edge)
    requires Mirrors(fs, s)
    ensures HasEdge(s, e) <==> Entry(fs.dirs, e.dir, e.name) == Some(e.to)
  {
    assert Slot(s, e.dir, e.name) == FsSlot(fs, e.dir, e.name);
  }

  lemma ReachableSurvives(fs: Fs, s: Share, s': Share, k: NodeKey)
    requires Mirrors(fs, s) && Collected(s, s', 0) && Linked(s')
    requires fs.root in s.nodes && Reachable(fs, k)
    ensures k in s'.nodes
  {
    CollectedKeepsTables(s, s', 0);
    LinkedMeans(s');
    var path :| Walk(fs.dirs, fs.root, path) == Some(k);
    var good := s'.nodes.Keys;
    forall d, n | d in good && d in fs.dirs && n in fs.dirs[d] ensures fs.dirs[d][n] in good {
      EdgesMatch(fs, s, Edge(d, n, fs.dirs[d][n]));
      assert Table(s', d) == Table(s, d);
    }
    WalkKeeps(fs.dirs, fs.root, path, good);
  }

  lemma {:induction false} SurvivorReachable(fs: Fs, rank: map<NodeKey, nat>, s: Share, s': Share, k: NodeKey)
    requires Ranked(fs, rank) && Mirrors(fs, s) && Collected(s, s', 0) && Exact(s')
    requires forall j :: j in s'.nodes && j != s'.root ==> s'.nodes[j].links > 0
    requires k in s'.nodes
    ensures Reachable(fs, k)
    decreases if k in rank then rank[k] else 0
  {
    if k == fs.root {
      BelowSelf(fs.dirs, fs.root);
    } else {
      var e := NamedBy(s', k);
      CollectedKeepsTables(s, s', 0);
      EdgesMatch(fs, s, e);
      SurvivorReachable(fs, rank, s, s', e.dir);
      BelowStep(fs.dirs, fs.root, e.dir, e.name);
    }
  }

  /** A linked node is named by some dentry. */
  lemma NamedBy(s: Share, k: NodeKey) returns (e: Edge)
    requires Exact(s) && k in s.nodes && s.nodes[k].links > 0
    ensures HasEdge(s, e) && e.to == k && e.dir in s.nodes
  {
    assert Surplus(s, k) == 0;
    assert |Into(Edges(s), k)| > 0;
    e :| e in Into(Edges(s), k);
    EdgesAre(s);
  }

  lemma CollectKeepsReachable(fs: Fs, rank: map<NodeKey, nat>, s: Share, s': Share)
    requires Sound(fs) && Ranked(fs, rank) && Mirrors(fs, s) && Collected(s, s', 0) && Exact(s')
    requires forall j :: j in s'.nodes && j != s'.root ==> s'.nodes[j].links > 0
    ensures s'.nodes.Keys == Prune(fs).kinds.Keys
  {
    assert s'.nodes.Keys <= s.nodes.Keys == fs.kinds.Keys && fs.root in s.nodes;
    hide Sound, Ranked, Mirrors, Collected, Exact, Below;
    forall k ensures k in s'.nodes <==> k in fs.kinds && Reachable(fs, k) {
      if k in s'.nodes { SurvivorReachable(fs, rank, s, s', k); }
      if k in fs.kinds && Reachable(fs, k) {
        ExactLinked(s');
        ReachableSurvives(fs, s, s', k);
      }
    }
  }

  /** Collection leaves a mirror of exactly what the root still reaches. */
  lemma CollectRefines(fs: Fs, rank: map<NodeKey, nat>, s: Share, s': Share)
    requires Sound(fs) && Ranked(fs, rank) && Mirrors(fs, s) && Collected(s, s', 0) && Exact(s')
    requires forall j :: j in s'.nodes && j != s'.root ==> s'.nodes[j].links > 0
    ensures Mirrors(Prune(fs), s')
  {
    hide Exact, Ranked, Below, FsSlot, Slot;
    CollectKeepsReachable(fs, rank, s, s');
    CollectedKeepsTables(s, s', 0);
    assert forall k :: k in s'.nodes <==> k in Prune(fs).kinds;
    PruneFsSlots(fs);
    forall d, n ensures Slot(s', d, n) == FsSlot(Prune(fs), d, n) {
      CollectedSlot(s, s', d, n);
    }
  }

  lemma CollectedSlot(s: Share, s': Share, d: NodeKey, n: Name)
    requires d in s'.nodes ==> Table(s', d) == Table(s, d)
    ensures Slot(s', d, n) == if d in s'.nodes then Slot(s, d, n) else None
  {}

  lemma PruneFsSlots(fs: Fs)
    requires Sound(fs)
    ensures forall d, n :: FsSlot(Prune(fs), d, n) == if d in Prune(fs).kinds then FsSlot(fs, d, n) else None
  {
    forall d, n ensures FsSlot(Prune(fs), d, n) == if d in Prune(fs).kinds then FsSlot(fs, d, n) else None {
      if d in fs.dirs && n in fs.dirs[d] && Reachable(fs, d) { BelowStep(fs.dirs, fs.root, d, n); }
    }
  }

  lemma ExactLinked(s: Share)
    requires Exact(s)
    ensures Linked(s)
  {
    forall k ensures Surplus(s, k) >= 0 { assert Surplus(s, k) == 0; }
  }

  /** Before a collection every node but the root has a link: it is named from somewhere. */
  lemma AllLinked(fs: Fs, s: Share)
    requires Connected(fs) && Mirrors(fs, s) && Exact(s)
    ensures forall k :: k in s.nodes && k != s.root ==> s.nodes[k].links > 0
  {
    forall k | k in s.nodes && k != s.root ensures s.nodes[k].links > 0 {
      assert Reachable(fs, k);
      var path :| Walk(fs.dirs, fs.root, path) == Some(k);
      var q, n := path[..|path| - 1], path[|path| - 1];
      assert path == q + [n];
      WalkSnoc(fs.dirs, fs.root, q, n);
      var d := Walk(fs.dirs, fs.root, q).value;
      var e := Edge(d, n, k);
      EdgesMatch(fs, s, e);
      EdgesAre(s);
      assert e in Into(Edges(s), k);
      assert Surplus(s, k) == 0;
    }
  }

  // ---- one operation at a time -----------------------------------------------------------------

  lemma IntroduceNodes(s: Share, p: NodeKey, k: NodeKey, a: Attr)
    requires k !in s.pending
    ensures var s' := Introduce(s, p, k, Some(a));
            && s'.root == s.root && s'.pending == s.pending
            && s'.nodes.Keys == s.nodes.Keys + {k}
            && (forall j :: j in s.nodes && j != k ==> s'.nodes[j] == s.nodes[j])
            && s'.nodes[k].attr.kind == a.kind
            && (s'.nodes[k].dir.Some? <==> a.kind == Dir || HasDir(s, k))
            && (forall d, n :: Slot(s', d, n) == Slot(s, d, n))
  {
    var s1 := UpsertNode(s, k, a, p);
    assert s1.nodes.Keys == s.nodes.Keys + {k};
    assert DrainPending(s1, k) == s1;
    var s' := Introduce(s, p, k, Some(a));
    assert s'.nodes.Keys == s1.nodes.Keys;
    assert forall d :: Table(s', d) == Table(s, d);
  }

  lemma CreatedUnfolds(s: Share, p: NodeKey, n: Name, k: NodeKey, a: Attr)
    requires var s1 := Introduce(s, p, k, Some(a)); HasDir(s1, p) && n !in Table(s1, p)
    ensures ApplyCreated(s, p, n, k, Some(a)) == LinkInc(Placed(Introduce(s, p, k, Some(a)), p, n, k, a.kind), k)
  {}

  /** The new node and its dentry, node by node and slot by slot. */
  lemma CreatedSlots(s: Share, p: NodeKey, n: Name, k: NodeKey, a: Attr)
    requires k !in s.pending && HasDir(s, p) && p != k && n !in Table(s, p)
    ensures var s' := ApplyCreated(s, p, n, k, Some(a));
            && s'.root == s.root && s'.pending == s.pending
            && s'.nodes.Keys == s.nodes.Keys + {k}
            && (forall j :: j in s.nodes && j != k ==>
                  s'.nodes[j].attr == s.nodes[j].attr && s'.nodes[j].dir.Some? == s.nodes[j].dir.Some?)
            && s'.nodes[k].attr.kind == a.kind
            && (s'.nodes[k].dir.Some? <==> a.kind == Dir || HasDir(s, k))
            && (forall d, m :: Slot(s', d, m) == if d == p && m == n then Some((k, a.kind)) else Slot(s, d, m))
  {
    hide Placed, LinkInc, Introduce, ApplyCreated;
    var s1 := Introduce(s, p, k, Some(a));
    IntroduceNodes(s, p, k, a);
    assert Slot(s1, p, n) == Slot(s, p, n) == None;
    CreatedUnfolds(s, p, n, k, a);
    hide Table, Slot;
    PlacedSlots(s1, p, n, k, a.kind);
    LinkIncSlots(Placed(s1, p, n, k, a.kind), k);
  }

  lemma GrowMirrors(fs: Fs, s: Share, fs': Fs, p: NodeKey, n: Name, k: NodeKey, a: Attr)
    requires Sound(fs) && Refines(fs, s) && Grown(fs, fs', p, n, k)
    requires a.kind == fs'.kinds[k] && (k in fs.kinds ==> a.kind != Dir)
    ensures Mirrors(fs', ApplyCreated(s, p, n, k, Some(a)))
    ensures ApplyCreated(s, p, n, k, Some(a)).pending == map[]
  {
    hide ApplyCreated, TablesWellFormed, Exact, FsSlot, Table, Slot;
    GrownFsSlots(fs, fs', p, n, k);
    FreeSlot(fs, s, p, n);
    CreatedSlots(s, p, n, k, a);
  }

  lemma GrownFsSlots(fs: Fs, fs': Fs, p: NodeKey, n: Name, k: NodeKey)
    requires Sound(fs) && Grown(fs, fs', p, n, k)
    ensures p != k
    ensures forall d, m :: FsSlot(fs', d, m) == if d == p && m == n then Some((k, fs'.kinds[k])) else FsSlot(fs, d, m)
  {
    forall d, m ensures FsSlot(fs', d, m) == if d == p && m == n then Some((k, fs'.kinds[k])) else FsSlot(fs, d, m) {
      assert Entry(fs'.dirs, d, m) == if d == p && m == n then Some(k) else Entry(fs.dirs, d, m);
    }
  }

  lemma FreeSlot(fs: Fs, s: Share, p: NodeKey, n: Name)
    requires Sound(fs) && Mirrors(fs, s) && p in fs.dirs && n !in fs.dirs[p]
    ensures HasDir(s, p) && n !in Table(s, p)
  {
    assert Slot(s, p, n) == FsSlot(fs, p, n);
  }

  lemma CutMirrors(fs: Fs, s: Share, p: NodeKey, n: Name)
    requires Sound(fs) && Mirrors(fs, s) && p in fs.dirs && n in fs.dirs[p]
    ensures n in Table(s, p) && Table(s, p)[n].node == fs.dirs[p][n]
    ensures Mirrors(fs.(dirs := WithoutName(fs.dirs, p, n)), Cleared(s, p, n))
  {
    hide FsSlot, Table, Slot, Cleared;
    TakenSlot(fs, s, p, n);
    ClearedSlots(s, p, n);
    CutFsSlots(fs, p, n);
  }

  lemma TakenSlot(fs: Fs, s: Share, p: NodeKey, n: Name)
    requires Sound(fs) && Mirrors(fs, s) && p in fs.dirs && n in fs.dirs[p]
    ensures n in Table(s, p) && Table(s, p)[n].node == fs.dirs[p][n]
    ensures fs.dirs[p][n] in fs.kinds && Table(s, p)[n].kind == fs.kinds[fs.dirs[p][n]]
  {
    assert Slot(s, p, n) == FsSlot(fs, p, n);
  }

  lemma CutFsSlots(fs: Fs, p: NodeKey, n: Name)
    requires p in fs.dirs
    ensures forall d, m :: FsSlot(fs.(dirs := WithoutName(fs.dirs, p, n)), d, m)
                        == if d == p && m == n then None else FsSlot(fs, d, m)
  {}

  lemma PutFsSlots(fs: Fs, p: NodeKey, n: Name, k: NodeKey)
    requires p in fs.dirs && k in fs.kinds
    ensures forall d, m :: FsSlot(fs.(dirs := WithName(fs.dirs, p, n, k)), d, m)
                        == if d == p && m == n then Some((k, fs.kinds[k])) else FsSlot(fs, d, m)
  {}

  lemma PutMirrors(fs: Fs, s: Share, p: NodeKey, n: Name, k: NodeKey)
    requires Mirrors(fs, s) && p in fs.dirs && p in fs.kinds && k in fs.kinds
    ensures HasDir(s, p)
    ensures Mirrors(fs.(dirs := WithName(fs.dirs, p, n, k)), Placed(s, p, n, k, fs.kinds[k]))
  {
    hide FsSlot, Table, Slot, Placed;
    assert p in s.nodes;
    PlacedSlots(s, p, n, k, fs.kinds[k]);
    PutFsSlots(fs, p, n, k);
  }

  lemma RemovedUnfolds(s: Share, p: NodeKey, n: Name)
    requires n in Table(s, p)
    ensures DentryRemove(s, p, n) == LinkDec(Cleared(s, p, n), Table(s, p)[n].node)
  {}

  /** Collection leaves no unlinked node behind that was linked before. */
  lemma CollectedLinks(s: Share, s': Share)
    requires Collected(s, s', 0) && forall j :: j in s.nodes && j != s.root ==> s.nodes[j].links > 0
    ensures forall j :: j in s'.nodes && j != s'.root ==> s'.nodes[j].links > 0
  {}

  lemma UnlinkRefines(fs: Fs, s: Share, p: NodeKey, n: Name)
    requires WellShaped(fs) && Refines(fs, s) && p in fs.dirs && n in fs.dirs[p]
    ensures Refines(Prune(fs.(dirs := WithoutName(fs.dirs, p, n))), DentryRemove(s, p, n))
  {
    hide Exact, Connected, Mirrors, Sound, Ranked, Prune, Slot, Cleared, TablesWellFormed, Balanced, Table,
         DentryRemove, LinkDec, Collected;
    var rank :| Ranked(fs, rank);
    AllLinked(fs, s);
    CutMirrors(fs, s, p, n);
    ClearedSlots(s, p, n);
    var s1, x := Cleared(s, p, n), fs.dirs[p][n];
    var s' := LinkDec(s1, x);
    RemovedUnfolds(s, p, n);
    ClearedBalanced(s, p, n);
    BalancedTables(s, s1);
    ClearedBalanced(s, p, n);
    CutKeepsRank(fs, rank, p, n);
    LinkDecCollects(s1, x);
    CollectedKeepsTables(s1, s', 0);
    CollectedLinks(s1, s');
    ExactLinked(s);
    RecKeepsLinked(s, Removed(p, n));
    CollectRefines(fs.(dirs := WithoutName(fs.dirs, p, n)), rank, s1, s');
  }

  /** A rename, unfolded: clear, place, pay off whatever was displaced, record the new parent. */
  lemma RenamedUnfolds(s: Share, fp: NodeKey, fnm: Name, tp: NodeKey, tnm: Name)
    requires fnm in Table(s, fp) && HasDir(Cleared(s, fp, fnm), tp)
    ensures var x, s1 := Table(s, fp)[fnm], Cleared(s, fp, fnm);
            var u := Upsert(s1.nodes[tp].dir.value, tnm, x.node, x.kind).1;
            ApplyRenamed(s, fp, fnm, tp, tnm)
              == SetParent(DropDisplaced(Placed(s1, tp, tnm, x.node, x.kind), u.displaced), x.node, tp)
  {}

  lemma DropDisplacedCollects(s: Share, displaced: Option<NodeKey>)
    requires TablesWellFormed(s)
    ensures Collected(s, DropDisplaced(s, displaced), 0)
  {
    match displaced
    case None => CollectedNothing(s);
    case Some(k) => LinkDecCollects(s, k);
  }

  /** The mirror half of a move, up to the table change. */
  lemma MoveMirrors(fs: Fs, s: Share, fp: NodeKey, fnm: Name, tp: NodeKey, tnm: Name)
    requires Sound(fs) && Mirrors(fs, s) && TablesWellFormed(s)
    requires fp in fs.dirs && fnm in fs.dirs[fp] && tp in fs.dirs
    ensures fnm in Table(s, fp) && HasDir(Cleared(s, fp, fnm), tp)
    ensures var x := Table(s, fp)[fnm];
            var s2 := Placed(Cleared(s, fp, fnm), tp, tnm, x.node, x.kind);
            && Mirrors(fs.(dirs := Moved(fs.dirs, fp, fnm, tp, tnm)), s2)
            && TablesWellFormed(s2) && s2.pending == s.pending
            && s2.nodes.Keys == s.nodes.Keys && s2.root == s.root
            && (forall k :: k in s.nodes ==> s2.nodes[k].links == s.nodes[k].links)
  {
    assert tp in fs.kinds;
    TakenSlot(fs, s, fp, fnm);
    hide Mirrors, TablesWellFormed, Cleared, Placed, Table, Slot, Balanced, Sound;
    CutMirrors(fs, s, fp, fnm);
    ClearedSlots(s, fp, fnm);
    ClearedBalanced(s, fp, fnm);
    var x, s1 := Table(s, fp)[fnm], Cleared(s, fp, fnm);
    BalancedTables(s, s1);
    PutMirrors(fs.(dirs := WithoutName(fs.dirs, fp, fnm)), s1, tp, tnm, x.node);
    PlacedSlots(s1, tp, tnm, x.node, x.kind);
    PlacedBalanced(s1, tp, tnm, x.node, x.kind);
    BalancedTables(s1, Placed(s1, tp, tnm, x.node, x.kind));
  }

  lemma MoveRefines(fs: Fs, s: Share, fp: NodeKey, fnm: Name, tp: NodeKey, tnm: Name)
    requires WellShaped(fs) && Refines(fs, s) && Legal(fs, Move(fp, fnm, tp, tnm))
    ensures Refines(Prune(fs.(dirs := Moved(fs.dirs, fp, fnm, tp, tnm))), ApplyRenamed(s, fp, fnm, tp, tnm))
  {
    hide Exact, Connected, Mirrors, Sound, Ranked, Prune, Slot, Cleared, Placed, TablesWellFormed, Below, Table;
    hide ApplyRenamed, SetParent, Quiet, Balanced, RecLeaks, Moved, SameNodes;
    var rank :| Ranked(fs, rank);
    var rank' := MovedRanked(fs, rank, fp, fnm, tp, tnm);
    MovedSound(fs, fp, fnm, tp, tnm);
    MoveDoesNotLeak(fs, s, fp, fnm, tp, tnm);
    AllLinked(fs, s);
    MoveMirrors(fs, s, fp, fnm, tp, tnm);
    RenamedUnfolds(s, fp, fnm, tp, tnm);
    var x, s1 := Table(s, fp)[fnm], Cleared(s, fp, fnm);
    var displaced := Upsert(s1.nodes[tp].dir.value, tnm, x.node, x.kind).1.displaced;
    MoveSettles(fs, rank', s, fp, fnm, tp, tnm, displaced);
  }

  lemma MoveSettles(fs: Fs, rank': map<NodeKey, nat>, s: Share, fp: NodeKey, fnm: Name, tp: NodeKey, tnm: Name,
                    displaced: Option<NodeKey>)
    requires Refines(fs, s) && fp in fs.dirs && fnm in fs.dirs[fp] && tp in fs.dirs
    requires var fs2 := fs.(dirs := Moved(fs.dirs, fp, fnm, tp, tnm)); Sound(fs2) && Ranked(fs2, rank')
    requires !RecLeaks(s, Renamed(fp, fnm, tp, tnm))
    requires forall k :: k in s.nodes && k != s.root ==> s.nodes[k].links > 0
    requires fnm in Table(s, fp) && HasDir(Cleared(s, fp, fnm), tp)
    requires var x := Table(s, fp)[fnm];
             var s2 := Placed(Cleared(s, fp, fnm), tp, tnm, x.node, x.kind);
             && Mirrors(fs.(dirs := Moved(fs.dirs, fp, fnm, tp, tnm)), s2)
             && TablesWellFormed(s2) && s2.pending == s.pending
             && s2.nodes.Keys == s.nodes.Keys && s2.root == s.root
             && (forall k :: k in s.nodes ==> s2.nodes[k].links == s.nodes[k].links)
             && ApplyRenamed(s, fp, fnm, tp, tnm) == SetParent(DropDisplaced(s2, displaced), x.node, tp)
    ensures Refines(Prune(fs.(dirs := Moved(fs.dirs, fp, fnm, tp, tnm))), ApplyRenamed(s, fp, fnm, tp, tnm))
  {
    hide Exact, Mirrors, Sound, Ranked, Prune, Slot, Cleared, Placed, TablesWellFormed, Table;
    hide ApplyRenamed, SetParent, Quiet, Balanced, RecLeaks, Moved, DropDisplaced;
    var x := Table(s, fp)[fnm];
    var s2 := Placed(Cleared(s, fp, fnm), tp, tnm, x.node, x.kind);
    ExactLinked(s);
    RecKeepsLinked(s, Renamed(fp, fnm, tp, tnm));
    DropThenParent(fs.(dirs := Moved(fs.dirs, fp, fnm, tp, tnm)), rank', s2, displaced, x.node, tp);
  }

  /** What was displaced is collected, and the moved node's parent recorded. */
  lemma DropThenParent(fs: Fs, rank: map<NodeKey, nat>, s: Share, displaced: Option<NodeKey>, key: NodeKey,
                       parent: NodeKey)
    requires Sound(fs) && Ranked(fs, rank) && Mirrors(fs, s) && TablesWellFormed(s) && s.pending == map[]
    requires forall k :: k in s.nodes && k != s.root ==> s.nodes[k].links > 0
    requires Exact(SetParent(DropDisplaced(s, displaced), key, parent))
    ensures Refines(Prune(fs), SetParent(DropDisplaced(s, displaced), key, parent))
  {
    hide Exact, Mirrors, Sound, Ranked, Prune, Slot, TablesWellFormed, SetParent, Quiet, Balanced, DropDisplaced,
         Collected;
    var s1 := DropDisplaced(s, displaced);
    var s2 := SetParent(s1, key, parent);
    DropDisplacedCollects(s, displaced);
    CollectedKeepsTables(s, s1, 0);
    CollectedLinks(s, s1);
    SetParentQuiet(s1, key, parent);
    SetParentSlots(s1, key, parent);
    ExactBack(s1, s2);
    QuietBalanced(s1, s2);
    BalancedTables(s1, s2);
    CollectRefines(fs, rank, s, s1);
    MirrorsCarry(Prune(fs), s1, s2);
  }

  lemma ExactBack(s: Share, s': Share)
    requires Quiet(s, s') && Exact(s')
    ensures Exact(s)
  {
    hide Quiet, Account;
    forall k ensures Surplus(s, k) == 0 {
      assert Surplus(s', k) == 0;
      QuietAccount(s, s', k);
    }
  }

  lemma MoveDoesNotLeak(fs: Fs, s: Share, fp: NodeKey, fnm: Name, tp: NodeKey, tnm: Name)
    requires Sound(fs) && Mirrors(fs, s) && Legal(fs, Move(fp, fnm, tp, tnm))
    ensures !RecLeaks(s, Renamed(fp, fnm, tp, tnm))
  {
    assert Slot(s, fp, fnm) == FsSlot(fs, fp, fnm);
    ClearedSlots(s, fp, fnm);
    var s1 := Cleared(s, fp, fnm);
    assert HasDir(s, tp) && HasDir(s1, tp);
    assert Slot(s, tp, tnm) == FsSlot(fs, tp, tnm);
    assert Slot(s1, tp, tnm) == if tp == fp && tnm == fnm then None else Slot(s, tp, tnm);
  }

  lemma TouchMirrors(fs: Fs, s: Share, k: NodeKey, p: Pending)
    requires Mirrors(fs, s) && k in s.nodes && (p.PendingAttr? ==> p.attr.kind == fs.kinds[k])
    ensures Mirrors(fs, UpdatePending(s, k, p)) && UpdatePending(s, k, p).pending == s.pending
  {
    var s' := UpdatePending(s, k, p);
    assert s'.nodes.Keys == s.nodes.Keys;
    forall d, n ensures Slot(s', d, n) == Slot(s, d, n) { assert Table(s', d) == Table(s, d); }
    hide Slot, FsSlot;
  }

  lemma TouchRefines(fs: Fs, s: Share, k: NodeKey, p: Pending)
    requires Refines(fs, s) && k in fs.kinds
    requires p.PendingAttr? ==> p.attr.kind == fs.kinds[k]
    ensures Refines(fs, UpdatePending(s, k, p))
  {
    var s' := UpdatePending(s, k, p);
    TouchMirrors(fs, s, k, p);
    UpdatePendingQuiet(s, k, p);
    QuietBalanced(s, s');
    hide Mirrors, Quiet, TablesWellFormed, UpdatePending, Surplus, Balanced;
    BalancedTables(s, s');
    forall j ensures Surplus(s', j) == 0 {
      assert Surplus(s, j) == 0;
      QuietAccount(s, s', j);
    }
  }

  lemma GrowRefines(fs: Fs, s: Share, fs': Fs, p: NodeKey, n: Name, k: NodeKey, a: Attr)
    requires Sound(fs) && Refines(fs, s) && Grown(fs, fs', p, n, k)
    requires a.kind == fs'.kinds[k] && (k in fs.kinds ==> a.kind != Dir)
    ensures Refines(fs', ApplyRec(s, Created(p, n, k, Some(a))))
  {
    GrowMirrors(fs, s, fs', p, n, k, a);
    hide Mirrors, Exact, TablesWellFormed, Balanced;
    ExactLinked(s);
    RecKeepsLinked(s, Created(p, n, k, Some(a)));
    CreatedBalanced(s, p, n, k, Some(a));
    BalancedTables(s, ApplyCreated(s, p, n, k, Some(a)));
  }

  /** One call on the file system, one record on the replica. */
  lemma StepRefines(fs: Fs, s: Share, op: Op)
    requires WellShaped(fs) && Refines(fs, s) && Legal(fs, op)
    ensures Refines(FileTrees.Apply(fs, op), ApplyRec(s, RecOf(op)))
  {
    hide Refines, Sound, Connected, Ranked, Prune, Below, Grown;
    hide ApplyCreated, DentryRemove, ApplyRenamed, UpdateAttr, UpdateContent;
    match op
    case Make(p, n, k, a) =>
      MakeGrows(fs, op);
      GrowRefines(fs, s, FileTrees.Apply(fs, op), p, n, k, a);
    case Link(p, n, k, a) =>
      MakeGrows(fs, op);
      GrowRefines(fs, s, FileTrees.Apply(fs, op), p, n, k, a);
    case Unlink(p, n) => UnlinkRefines(fs, s, p, n);
    case Move(fp, fnm, tp, tnm) => MoveRefines(fs, s, fp, fnm, tp, tnm);
    case Write(k, version, size, mtime) =>
      KnownNode(fs, s, k);
      TouchRefines(fs, s, k, PendingContent(version, size, mtime));
    case Chmod(k, a) =>
      KnownNode(fs, s, k);
      TouchRefines(fs, s, k, PendingAttr(a));
  }

  lemma KnownNode(fs: Fs, s: Share, k: NodeKey)
    requires Refines(fs, s)
    ensures k in s.nodes <==> k in fs.kinds
  {}

  lemma MakeGrows(fs: Fs, op: Op)
    requires Sound(fs) && Legal(fs, op) && (op.Make? || op.Link?)
    ensures Grown(fs, FileTrees.Apply(fs, op), op.parent, op.name, op.node)
    ensures FileTrees.Apply(fs, op).kinds[op.node] == op.attr.kind
  {}

  /** Every legal history: the replica that applied its records refines the file system. */
  lemma {:induction false} HistoryRefines(fs: Fs, s: Share, ops: seq<Op>)
    requires WellShaped(fs) && Refines(fs, s) && LegalRun(fs, ops)
    ensures WellShaped(ApplyAll(fs, ops))
    ensures Refines(ApplyAll(fs, ops), ApplyRecs(s, RecsOf(ops)))
    decreases |ops|
  {
    hide WellShaped, Refines;
    if ops != [] {
      StepRefines(fs, s, ops[0]);
      ApplyKeepsShape(fs, ops[0]);
      HistoryRefines(FileTrees.Apply(fs, ops[0]), ApplyRec(s, RecOf(ops[0])), ops[1..]);
      assert RecsOf(ops)[1..] == RecsOf(ops[1..]);
    }
  }

  lemma {:induction false} RefinesResolve(fs: Fs, s: Share, from: NodeKey, path: seq<Name>)
    requires Refines(fs, s) && Sound(fs) && from in fs.kinds
    ensures Resolve(s, from, path) == Walk(fs.dirs, from, path)
    decreases |path|
  {
    if path != [] {
      assert Slot(s, from, path[0]) == FsSlot(fs, from, path[0]);
      match Entry(fs.dirs, from, path[0])
      case None =>
      case Some(k) => RefinesResolve(fs, s, k, path[1..]);
    }
  }

  /** Every path resolves alike. */
  lemma RefinesPaths(fs: Fs, s: Share)
    requires WellShaped(fs) && Refines(fs, s)
    ensures forall path :: Resolve(s, s.root, path) == Walk(fs.dirs, fs.root, path)
  {
    assert fs.root in fs.kinds && s.root == fs.root;
    hide Refines, Resolve, Walk;
    forall path ensures Resolve(s, s.root, path) == Walk(fs.dirs, fs.root, path) {
      RefinesResolve(fs, s, fs.root, path);
    }
  }

  ghost predicate Found(s: Share, k: NodeKey) {
    exists path :: Resolve(s, s.root, path) == Some(k)
  }

  /** A node is in the replica exactly when some path from the root resolves to it, and then it
      holds one link per name: nothing leaks and nothing is freed early. */
  lemma RefinesNodes(fs: Fs, s: Share, k: NodeKey)
    requires WellShaped(fs) && Refines(fs, s)
    ensures k in s.nodes <==> Found(s, k)
    ensures k in s.nodes ==> s.nodes[k].links == Refs(Edges(s), k)
  {
    RefinesPaths(fs, s);
    assert Surplus(s, k) == 0;
    if k in s.nodes {
      assert Reachable(fs, k);
      var path :| Walk(fs.dirs, fs.root, path) == Some(k);
      assert Resolve(s, s.root, path) == Some(k);
    }
    if Found(s, k) {
      var path :| Resolve(s, s.root, path) == Some(k);
      WalkKeeps(fs.dirs, fs.root, path, fs.kinds.Keys);
    }
  }

  /** An empty share, seeded with its root, refines the file system that holds only a root. */
  lemma SeededRefines(r: SnapDir)
    requires r.dirAttr.kind == Dir && r.entries == []
    ensures var fs := Fs(r.dir, map[r.dir := Dir], map[r.dir := map[]]);
            WellShaped(fs) && Refines(fs, ApplySnapDir(NewShare(r.dir), r))
  {
    var fs := Fs(r.dir, map[r.dir := Dir], map[r.dir := map[]]);
    BelowSelf(fs.dirs, fs.root);
    assert Ranked(fs, map[r.dir := 0]);
    var s := ApplySnapDir(NewShare(r.dir), r);
    NewShareIsClean(r.dir);
    SnapBalanced(NewShare(r.dir), r);
    hide Account;
    forall k ensures Surplus(s, k) == 0 {
      assert Surplus(NewShare(r.dir), k) == 0;
      SnapAccount(NewShare(r.dir), r, k);
    }
    assert forall d :: Table(s, d) == map[];
  }
}
