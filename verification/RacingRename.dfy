/** Renames while a walk is racing: when the replay gets them right, and a history in which it does not. */
module RacingRenames {
  import opened Types
  import opened DirViews
  import opened Replicas
  import opened ReplicaRuns
  import opened FileTrees
  import opened Refinement

  // ---- when a replayed rename lands ------------------------------------------------------------------

  /** A name is put on something that is no directory, or on an empty one: what a rename may replace. */
  ghost predicate Replaceable(s: Share, d: NodeKey, n: Name) {
    n in Table(s, d) ==> Table(s, Table(s, d)[n].node) == map[]
  }

  /** Dropping a link to a node with an empty listing takes at most that node. */
  lemma LinkDecLeaf(s: Share, key: NodeKey, d: NodeKey)
    requires Table(s, key) == map[] && d != key
    ensures Table(LinkDec(s, key), d) == Table(s, d)
  {
    if key in s.nodes {
      var s1 := Unlinked(s, key);
      assert Table(s1, d) == Table(s, d) && Table(s1, key) == map[];
      if s1.nodes[key].links == 0 && key != s.root {
        assert s1.nodes.Keys == s.nodes.Keys;
        RemoveLeaf(s1, key);
      }
    }
  }

  lemma RemoveLeaf(s: Share, key: NodeKey)
    requires key in s.nodes && Table(s, key) == map[]
    ensures RemoveNode(s, key) == WithoutNode(s, key)
  {
    ByCookieWithin(map[]);
    var names := ByCookie(map[]);
    assert names == [];
  }

  lemma DropLeaf(s: Share, displaced: Option<NodeKey>, d: NodeKey)
    requires displaced.Some? ==> Table(s, displaced.value) == map[] && displaced.value != d
    ensures Table(DropDisplaced(s, displaced), d) == Table(s, d)
  {
    hide LinkDec;
    if displaced.Some? { LinkDecLeaf(s, displaced.value, d); }
  }

  lemma RelinkLands(s: Share, parent: NodeKey, name: Name, node: NodeKey, kind: Kind)
    requires HasDir(s, parent) && Replaceable(s, parent, name)
    ensures Lookup(DentryRelink(s, parent, name, node, kind), parent, name) == Some(node)
  {
    hide LinkDec, DropDisplaced;
    var s1 := Placed(s, parent, name, node, kind);
    var u := Upsert(s.nodes[parent].dir.value, name, node, kind).1;
    assert Lookup(s1, parent, name) == Some(node);
    if u.displaced.Some? {
      assert u.displaced.value != parent && Table(s1, u.displaced.value) == Table(s, u.displaced.value);
    }
    DropLeaf(s1, u.displaced, parent);
    var s2 := DropDisplaced(s1, u.displaced);
    ParentLeavesTables(s2, node, parent, parent);
  }

  lemma ParentLeavesTables(s: Share, key: NodeKey, parent: NodeKey, d: NodeKey)
    ensures Table(SetParent(s, key, parent), d) == Table(s, d)
  {}

  /** The guest has moved `k` to a name whose directory the replica knows.  After the replay that name is `k`'s
      exactly if the walk left `k` under its old name, or took the old name for free and has `k` under the new one
      already. */
  lemma RenameLandsIff(s: Share, fp: NodeKey, fnm: Name, tp: NodeKey, tnm: Name, k: NodeKey)
    requires HasDir(s, tp) && (fp, fnm) != (tp, tnm) && Replaceable(s, tp, tnm)
    ensures Lookup(ApplyRec(s, Renamed(fp, fnm, tp, tnm)), tp, tnm) == Some(k) <==>
            (Lookup(s, fp, fnm) == Some(k) || (Lookup(s, fp, fnm) == None && Lookup(s, tp, tnm) == Some(k)))
  {
    hide LinkDec, DentryRelink;
    if fnm in Table(s, fp) {
      var s1, x := Cleared(s, fp, fnm), Table(s, fp)[fnm];
      ClearedSlots(s, fp, fnm);
      assert Slot(s1, tp, tnm) == Slot(s, tp, tnm);
      if tnm in Table(s, tp) {
        var was := Table(s, tp)[tnm].node;
        assert was != fp;
        assert Table(s1, was) == Table(s, was);
      }
      RelinkLands(s1, tp, tnm, x.node, x.kind);
    }
  }

  // ---- a history in which it does not ----------------------------------------------------------------

  /** The listing of a directory at a moment. */
  ghost predicate Shows(fs: Fs, r: SnapDir) {
    && r.dir in fs.dirs && r.last
    && (forall i :: 0 <= i < |r.entries| ==> Entry(fs.dirs, r.dir, r.entries[i].name) == Some(r.entries[i].node))
    && (forall n :: n in fs.dirs[r.dir] ==> exists i :: 0 <= i < |r.entries| && r.entries[i].name == n)
  }

  const ROOT := NodeKey(1, 0)
  const P := NodeKey(2, 0)
  const Q := NodeKey(3, 0)
  const FILE := NodeKey(4, 0)
  const NAME_P := Name([112])
  const NAME_Q := Name([113])
  const NAME_X := Name([120])
  const DIR_ATTR := PlaceholderAttr(Dir)

  /** Two directories, a file in the first. */
  const TREE := Fs(ROOT, map[ROOT := Dir, P := Dir, Q := Dir, FILE := Reg],
                   map[ROOT := map[NAME_P := P, NAME_Q := Q], P := map[NAME_X := FILE], Q := map[]])

  const MOVE := Move(P, NAME_X, Q, NAME_X)

  const ROOT_RECORD :=
    SnapDir(0, ROOT, DIR_ATTR, ROOT, [SnapEntry(NAME_P, P, DIR_ATTR), SnapEntry(NAME_Q, Q, DIR_ATTR)], true)
  const Q_RECORD := SnapDir(0, Q, DIR_ATTR, ROOT, [], true)
  const P_RECORD := SnapDir(0, P, DIR_ATTR, ROOT, [], true)

  lemma TreeIsShaped()
    ensures WellShaped(TREE) && Legal(TREE, MOVE)
  {
    assert Ranked(TREE, map[ROOT := 0, P := 1, Q := 1, FILE := 2]);
    forall path ensures Walk(TREE.dirs, FILE, path) != Some(Q) {}
    TreeIsConnected();
  }

  lemma TreeIsConnected()
    ensures Connected(TREE)
  {
    assert Walk(TREE.dirs, ROOT, []) == Some(ROOT);
    BelowStep(TREE.dirs, ROOT, ROOT, NAME_P);
    BelowStep(TREE.dirs, ROOT, ROOT, NAME_Q);
    BelowStep(TREE.dirs, ROOT, P, NAME_X);
  }

  lemma AfterMove()
    requires Legal(TREE, MOVE)
    ensures var after := FileTrees.Apply(TREE, MOVE);
            && Walk(after.dirs, ROOT, [NAME_Q, NAME_X]) == Some(FILE)
            && Shows(after, P_RECORD) && Shows(after, ROOT_RECORD)
  {
    var dirs := Moved(TREE.dirs, P, NAME_X, Q, NAME_X);
    assert Walk(dirs, ROOT, []) == Some(ROOT);
    BelowStep(dirs, ROOT, ROOT, NAME_P);
    BelowStep(dirs, ROOT, ROOT, NAME_Q);
    var after := FileTrees.Apply(TREE, MOVE);
    assert after.dirs[P] == map[] && after.dirs[ROOT] == TREE.dirs[ROOT] && after.dirs[Q] == map[NAME_X := FILE];
    assert [NAME_Q, NAME_X][1..] == [NAME_X] && [NAME_X][1..] == [];
    assert Walk(after.dirs, Q, [NAME_X]) == Walk(after.dirs, FILE, []);
    RootShows(after);
  }

  lemma RootShows(fs: Fs)
    requires ROOT in fs.dirs && fs.dirs[ROOT] == TREE.dirs[ROOT]
    ensures Shows(fs, ROOT_RECORD)
  {
    assert ROOT_RECORD.entries[0].name == NAME_P && ROOT_RECORD.entries[1].name == NAME_Q;
  }

  /** Both directories known and empty. */
  ghost predicate BothEmpty(s: Share) {
    HasDir(s, P) && HasDir(s, Q) && Table(s, P) == map[] && Table(s, Q) == map[]
  }

  lemma RootRecord()
    ensures BothEmpty(ApplySnapDir(NewShare(ROOT), ROOT_RECORD))
  {
    var r, s := ROOT_RECORD, NewShare(ROOT);
    var s0 := UpsertNode(s, ROOT, DIR_ATTR, ROOT);
    var s1 := UpsertEntryNodes(s0, ROOT, r.entries);
    TwoNodes(s0, ROOT, r.entries);
    assert s1 == UpsertNode(UpsertNode(s0, P, DIR_ATTR, ROOT), Q, DIR_ATTR, ROOT);
    assert BothEmpty(s1) && Table(s1, ROOT) == map[];
    TwoEntries(s1.nodes[ROOT].dir.value, r.entries);
    var l := ListEntries(Listed(s1.nodes[ROOT].dir.value, 0, [], []), r.entries);
    var s2 := FillDir(s1, ROOT, l, true);
    assert BothEmpty(s2);
    hide ListEntries, UpsertEntryNodes;
    TwoLinks(s2, l.link);
  }

  lemma TwoNodes(s: Share, parent: NodeKey, es: seq<SnapEntry>)
    requires |es| == 2
    ensures UpsertEntryNodes(s, parent, es)
         == UpsertNode(UpsertNode(s, es[0].node, es[0].attr, parent), es[1].node, es[1].attr, parent)
  {
    hide UpsertNode;
    assert es[1..] == [es[1]] && es[1..][1..] == [];
    var s1 := UpsertNode(s, es[0].node, es[0].attr, parent);
    var s2 := UpsertNode(s1, es[1].node, es[1].attr, parent);
    assert UpsertEntryNodes(s1, parent, es[1..]) == UpsertEntryNodes(s2, parent, []);
  }

  lemma TwoEntries(v: DirView, es: seq<SnapEntry>)
    requires |es| == 2 && es[0].name != es[1].name && v.table == map[]
    ensures var l := ListEntries(Listed(v, 0, [], []), es);
            l.link == [es[0].node, es[1].node] && l.unlink == []
  {
    assert es[1..] == [es[1]] && es[1..][1..] == [];
    var l1 := ListEntry(Listed(v, 0, [], []), es[0]);
    var l2 := ListEntry(l1, es[1]);
    assert ListEntries(l1, es[1..]) == ListEntries(l2, []);
  }

  lemma TwoLinks(s: Share, ks: seq<NodeKey>)
    requires BothEmpty(s) && |ks| == 2
    ensures BothEmpty(LinkIncAll(s, ks)) && LinkDecAll(LinkIncAll(s, ks), []) == LinkIncAll(s, ks)
  {
    assert ks[1..] == [ks[1]] && ks[1..][1..] == [];
    var s1 := LinkInc(s, ks[0]);
    assert BothEmpty(s1) && BothEmpty(LinkInc(s1, ks[1]));
    assert LinkIncAll(s1, ks[1..]) == LinkIncAll(LinkInc(s1, ks[1]), []);
  }

  lemma EmptyRecord(s: Share, r: SnapDir)
    requires BothEmpty(s) && r.entries == [] && r.dir in {P, Q} && r.dirAttr.kind == Dir
    ensures BothEmpty(ApplySnapDir(s, r))
  {}

  /** What the host shows after the three records and the replayed move. */
  ghost function Served(): Share {
    ApplyRec(ApplySnapDirs(NewShare(ROOT), [ROOT_RECORD, Q_RECORD, P_RECORD]), RecOf(MOVE))
  }

  /** The walk lists the root and `Q`; the file moves from `P` to `Q`; the walk lists `P`.  Every listing is right at
      its moment and the record of the move is replayed, but the host never shows the file. */
  lemma RenameOvertakesWalk()
    ensures WellShaped(TREE) && Legal(TREE, MOVE)
    ensures var after := FileTrees.Apply(TREE, MOVE);
            && Shows(TREE, ROOT_RECORD) && Shows(TREE, Q_RECORD) && Shows(after, P_RECORD)
            && Walk(after.dirs, ROOT, [NAME_Q, NAME_X]) == Some(FILE)
            && HasDir(Served(), Q) && NAME_X !in Table(Served(), Q)
  {
    hide WellShaped, Legal, FileTrees.Apply, Walk, ApplySnapDir, BothEmpty, ApplyRec;
    TreeIsShaped();
    AfterMove();
    RootShows(TREE);
    assert Shows(TREE, Q_RECORD);
    hide Shows;
    var s1 := ApplySnapDir(NewShare(ROOT), ROOT_RECORD);
    RootRecord();
    var s2 := ApplySnapDir(s1, Q_RECORD);
    EmptyRecord(s1, Q_RECORD);
    var s3 := ApplySnapDir(s2, P_RECORD);
    EmptyRecord(s2, P_RECORD);
    ThreeRecords(NewShare(ROOT), ROOT_RECORD, Q_RECORD, P_RECORD);
    NothingToMove(s3);
  }

  lemma NothingToMove(s: Share)
    requires BothEmpty(s)
    ensures ApplyRec(s, RecOf(MOVE)) == s && HasDir(s, Q) && NAME_X !in Table(s, Q)
  {}

  lemma ThreeRecords(s: Share, a: SnapDir, b: SnapDir, c: SnapDir)
    requires a.dirAttr.kind == Dir && b.dirAttr.kind == Dir && c.dirAttr.kind == Dir
    ensures ApplySnapDirs(s, [a, b, c]) == ApplySnapDir(ApplySnapDir(ApplySnapDir(s, a), b), c)
  {
    hide ApplySnapDir;
    assert [a, b, c][1..] == [b, c] && [b, c][1..] == [c] && [c][1..] == [];
    var s1 := ApplySnapDir(s, a);
    var s2 := ApplySnapDir(s1, b);
    assert ApplySnapDirs(s2, [c]) == ApplySnapDirs(ApplySnapDir(s2, c), []);
    assert ApplySnapDirs(s1, [b, c]) == ApplySnapDirs(s2, [c]);
  }
}
