/** Counters and link counts over every stream of snapshot and journal records. */
module ReplicaRuns {
  import opened Types
  import opened DirViews
  import opened Replicas
  import opened Collection
  import opened ReplicaInvariants

  // ---- counters ----------------------------------------------------------------------------

  /** Each counter keeps its distance from the true count, and a present root stays. */
  ghost predicate Balanced(s: Share, s': Share) {
    && s'.root == s.root
    && (s.root in s.nodes ==> s.root in s'.nodes)
    && (TablesWellFormed(s) ==> TablesWellFormed(s'))
    && s'.nodeCount - |s'.nodes| == s.nodeCount - |s.nodes|
    && s'.dirCount - |Dirs(s')| == s.dirCount - |Dirs(s)|
    && s'.entryCount - |Edges(s')| == s.entryCount - |Edges(s)|
  }

  lemma BalancedThen(s: Share, s1: Share, s2: Share)
    requires Balanced(s, s1) && Balanced(s1, s2)
    ensures Balanced(s, s2)
  {}

  lemma BalancedNothing(s: Share)
    ensures Balanced(s, s)
  {}

  lemma QuietBalanced(s: Share, s': Share)
    requires Quiet(s, s')
    ensures Balanced(s, s')
  {
    QuietEdges(s, s');
  }

  lemma LinkDecBalanced(s: Share, key: NodeKey)
    requires TablesWellFormed(s)
    ensures Balanced(s, LinkDec(s, key))
  {
    LinkDecCollects(s, key);
    CollectedKeepsTables(s, LinkDec(s, key), 0);
  }

  lemma LinkIncBalanced(s: Share, key: NodeKey)
    ensures Balanced(s, LinkInc(s, key))
  {
    var s' := LinkInc(s, key);
    if key in s.nodes {
      assert s'.nodes.Keys == s.nodes.Keys;
      assert Dirs(s') == Dirs(s);
      EdgesSame(s, s');
      forall d | HasDir(s', d) && TablesWellFormed(s) ensures WellFormed(s'.nodes[d].dir.value) {
        assert HasDir(s, d);
      }
    }
  }

  lemma TableStepBalanced(s: Share, d: NodeKey, v: DirView, delta: int)
    requires HasDir(s, d)
    requires TablesWellFormed(s) ==> WellFormed(v)
    requires |Edges(SetDir(s, d, v))| == |Edges(s)| + delta
    ensures Balanced(s, SetDir(s, d, v).(entryCount := s.entryCount + delta))
  {
    hide Edges, TablesWellFormed;
    var s1 := SetDir(s, d, v);
    var s' := s1.(entryCount := s.entryCount + delta);
    SetDirEdges(s, d, v);
    EdgesIgnoreCounters(s1, s.entryCount + delta);
    CountersKeepTables(s1, s');
    if TablesWellFormed(s) { SetDirWellFormed(s, d, v); }
    assert Dirs(s') == Dirs(s1);
  }

  lemma UpsertWellFormed(v: DirView, name: Name, node: NodeKey, kind: Kind)
    requires WellFormed(v)
    ensures WellFormed(Upsert(v, name, node, kind).0)
    ensures WellFormed(Remove(v, name).0)
  {
    ApplyKeepsWellFormed(v, Put(name, node, kind));
    ApplyKeepsWellFormed(v, Del(name));
  }

  /** The table half of putting a dentry. */
  function Placed(s: Share, parent: NodeKey, name: Name, node: NodeKey, kind: Kind): Share
    requires HasDir(s, parent)
  {
    var (v, u) := Upsert(s.nodes[parent].dir.value, name, node, kind);
    SetDir(s, parent, v).(entryCount := s.entryCount + u.delta)
  }

  lemma PlacedBalanced(s: Share, parent: NodeKey, name: Name, node: NodeKey, kind: Kind)
    requires HasDir(s, parent) && TablesWellFormed(s)
    ensures Balanced(s, Placed(s, parent, name, node, kind))
  {
    hide Balanced, Refs, Edges, WellFormed;
    UpsertRefs(s, parent, name, node, kind, node);
    UpsertWellFormed(s.nodes[parent].dir.value, name, node, kind);
    var (v, u) := Upsert(s.nodes[parent].dir.value, name, node, kind);
    TableStepBalanced(s, parent, v, u.delta);
  }

  lemma BalancedTables(s: Share, s': Share)
    requires Balanced(s, s') && TablesWellFormed(s)
    ensures TablesWellFormed(s')
  {}

  lemma DropDisplacedBalanced(s: Share, displaced: Option<NodeKey>)
    requires TablesWellFormed(s)
    ensures Balanced(s, DropDisplaced(s, displaced))
  {
    match displaced
    case None => BalancedNothing(s);
    case Some(k) => LinkDecBalanced(s, k);
  }

  lemma DentrySetBalanced(s: Share, parent: NodeKey, name: Name, node: NodeKey, kind: Kind)
    requires TablesWellFormed(s)
    ensures Balanced(s, DentrySet(s, parent, name, node, kind))
  {
    hide Balanced, TablesWellFormed;
    if HasDir(s, parent) {
      var u := Upsert(s.nodes[parent].dir.value, name, node, kind).1;
      var s1 := Placed(s, parent, name, node, kind);
      PlacedBalanced(s, parent, name, node, kind);
      var s2 := if u.gainedLink then LinkInc(s1, node) else s1;
      LinkIncBalanced(s1, node);
      BalancedNothing(s1);
      BalancedThen(s, s1, s2);
      BalancedTables(s, s2);
      DropDisplacedBalanced(s2, u.displaced);
      BalancedThen(s, s2, DropDisplaced(s2, u.displaced));
    } else {
      BalancedNothing(s);
    }
  }

  lemma DentryRelinkBalanced(s: Share, parent: NodeKey, name: Name, node: NodeKey, kind: Kind)
    requires TablesWellFormed(s)
    ensures Balanced(s, DentryRelink(s, parent, name, node, kind))
  {
    hide Balanced, TablesWellFormed;
    if HasDir(s, parent) {
      var u := Upsert(s.nodes[parent].dir.value, name, node, kind).1;
      var s1 := Placed(s, parent, name, node, kind);
      PlacedBalanced(s, parent, name, node, kind);
      BalancedTables(s, s1);
      var s2 := DropDisplaced(s1, u.displaced);
      DropDisplacedBalanced(s1, u.displaced);
      BalancedThen(s, s1, s2);
      SetParentQuiet(s2, node, parent);
      QuietBalanced(s2, SetParent(s2, node, parent));
      BalancedThen(s, s2, SetParent(s2, node, parent));
    } else {
      BalancedNothing(s);
    }
  }

  lemma SetParentQuiet(s: Share, key: NodeKey, parent: NodeKey)
    ensures Quiet(s, SetParent(s, key, parent))
  {
    if key in s.nodes {
      NodeEditQuiet(s, key, s.nodes[key].(parent := parent));
    } else {
      QuietNothing(s);
    }
  }

  /** The table half of taking a dentry away. */
  function Cleared(s: Share, parent: NodeKey, name: Name): Share
    requires name in Table(s, parent)
  {
    SetDir(s, parent, Remove(s.nodes[parent].dir.value, name).0).(entryCount := s.entryCount - 1)
  }

  lemma ClearedBalanced(s: Share, parent: NodeKey, name: Name)
    requires TablesWellFormed(s) && name in Table(s, parent)
    ensures Balanced(s, Cleared(s, parent, name))
  {
    hide Balanced, Refs, Edges, WellFormed;
    RemoveRefs(s, parent, name, parent);
    UpsertWellFormed(s.nodes[parent].dir.value, name, parent, Reg);
    TableStepBalanced(s, parent, Remove(s.nodes[parent].dir.value, name).0, -1);
  }

  lemma CreatedBalanced(s: Share, parent: NodeKey, name: Name, node: NodeKey, attr: Option<Attr>)
    requires TablesWellFormed(s)
    ensures Balanced(s, ApplyCreated(s, parent, name, node, attr))
  {
    hide Balanced, TablesWellFormed, Quiet;
    var s1 := Introduce(s, parent, node, attr);
    IntroduceQuiet(s, parent, node, attr);
    QuietBalanced(s, s1);
    BalancedTables(s, s1);
    DentrySetBalanced(s1, parent, name, node, AttrKind(attr));
    BalancedThen(s, s1, ApplyCreated(s, parent, name, node, attr));
  }

  lemma {:induction false} CreatedAllBalanced(s: Share, parent: NodeKey, es: seq<SnapEntry>)
    requires TablesWellFormed(s)
    ensures Balanced(s, ApplyCreatedAll(s, parent, es))
    decreases |es|
  {
    hide Balanced, TablesWellFormed;
    if es == [] {
      BalancedNothing(s);
    } else {
      var s1 := ApplyCreated(s, parent, es[0].name, es[0].node, Some(es[0].attr));
      CreatedBalanced(s, parent, es[0].name, es[0].node, Some(es[0].attr));
      BalancedTables(s, s1);
      CreatedAllBalanced(s1, parent, es[1..]);
      BalancedThen(s, s1, ApplyCreatedAll(s1, parent, es[1..]));
    }
  }

  lemma RenamedBalanced(s: Share, fp: NodeKey, fnm: Name, tp: NodeKey, tnm: Name)
    requires TablesWellFormed(s)
    ensures Balanced(s, ApplyRenamed(s, fp, fnm, tp, tnm))
  {
    hide Balanced, TablesWellFormed;
    if fnm in Table(s, fp) {
      var s1 := Cleared(s, fp, fnm);
      var d := Table(s, fp)[fnm];
      ClearedBalanced(s, fp, fnm);
      BalancedTables(s, s1);
      DentryRelinkBalanced(s1, tp, tnm, d.node, d.kind);
      BalancedThen(s, s1, DentryRelink(s1, tp, tnm, d.node, d.kind));
    } else {
      BalancedNothing(s);
    }
  }

  lemma RemovedBalanced(s: Share, parent: NodeKey, name: Name)
    requires TablesWellFormed(s)
    ensures Balanced(s, DentryRemove(s, parent, name))
  {
    hide Balanced, TablesWellFormed;
    if name in Table(s, parent) {
      var s1 := Cleared(s, parent, name);
      ClearedBalanced(s, parent, name);
      BalancedTables(s, s1);
      LinkDecBalanced(s1, Table(s, parent)[name].node);
      BalancedThen(s, s1, LinkDec(s1, Table(s, parent)[name].node));
    } else {
      BalancedNothing(s);
    }
  }

  /** Setting a node's links to zero changes nothing else. */
  lemma ZeroLinks(s: Share, key: NodeKey)
    requires key in s.nodes
    ensures var s1 := s.(nodes := s.nodes[key := s.nodes[key].(links := 0)]);
            Balanced(s, s1) && Edges(s1) == Edges(s)
  {
    var s1 := s.(nodes := s.nodes[key := s.nodes[key].(links := 0)]);
    assert s1.nodes.Keys == s.nodes.Keys;
    assert Dirs(s1) == Dirs(s);
    EdgesSame(s, s1);
    forall d | HasDir(s1, d) && TablesWellFormed(s) ensures WellFormed(s1.nodes[d].dir.value) {
      assert HasDir(s, d);
    }
  }

  lemma ForceRemoveBalanced(s: Share, key: NodeKey)
    requires TablesWellFormed(s) && key in s.nodes && key != s.root
    ensures Balanced(s, ForceRemove(s, key))
  {
    ZeroLinks(s, key);
    var s1 := s.(nodes := s.nodes[key := s.nodes[key].(links := 0)]);
    RemoveNodeCollects(s1, key);
    CollectedKeepsTables(s1, RemoveNode(s1, key), 0);
  }

  lemma RecBalanced(s: Share, rec: Rec)
    requires TablesWellFormed(s)
    ensures Balanced(s, ApplyRec(s, rec))
  {
    hide Balanced, TablesWellFormed, Quiet;
    match rec
    case Created(parent, name, node, attr) => CreatedBalanced(s, parent, name, node, attr);
    case CreatedBatch(parent, es) => CreatedAllBalanced(s, parent, es);
    case Removed(parent, name) => RemovedBalanced(s, parent, name);
    case Renamed(fp, fnm, tp, tnm) => RenamedBalanced(s, fp, fnm, tp, tnm);
    case AttrChanged(node, attr) =>
      UpdatePendingQuiet(s, node, PendingAttr(attr));
      PendingQuiet(s, StashPending(s, node, PendingAttr(attr)).pending);
      QuietBalanced(s, ApplyRec(s, rec));
    case Content(node, version, size, mtime) =>
      UpdatePendingQuiet(s, node, PendingContent(version, size, mtime));
      PendingQuiet(s, StashPending(s, node, PendingContent(version, size, mtime)).pending);
      QuietBalanced(s, ApplyRec(s, rec));
    case SelfRemoved(node) =>
      BalancedNothing(s);
      if node in s.nodes && node != s.root { ForceRemoveBalanced(s, node); }
    case Overflow => BalancedNothing(s);
    case EchoMarker(_) => BalancedNothing(s);
  }

  // ---- snapshot records ----------------------------------------------------------------------

  /** Filling in a listing, entry by entry: the table change equals the links gained less those
      lost, and the entry counter moves with the table. */
  lemma {:induction false} ListEntriesRefs(s: Share, d: NodeKey, l: Listed, es: seq<SnapEntry>, k: NodeKey)
    requires HasDir(s, d) && WellFormed(l.view)
    ensures var l', s0, s1 := ListEntries(l, es), SetDir(s, d, l.view), SetDir(s, d, ListEntries(l, es).view);
            && WellFormed(l'.view)
            && Refs(Edges(s1), k) - multiset(l'.link)[k] + multiset(l'.unlink)[k]
               == Refs(Edges(s0), k) - multiset(l.link)[k] + multiset(l.unlink)[k]
            && |Edges(s1)| - l'.delta == |Edges(s0)| - l.delta
    decreases |es|
  {
    hide Refs, Edges, WellFormed;
    if es != [] {
      var l1, e := ListEntry(l, es[0]), es[0];
      UpsertWellFormed(l.view, e.name, e.node, e.attr.kind);
      UpsertRefs(SetDir(s, d, l.view), d, e.name, e.node, e.attr.kind, k);
      SetDirTwice(s, d, l.view, l1.view);
      ListEntriesRefs(s, d, l1, es[1..], k);
    }
  }

  lemma SetDirTwice(s: Share, d: NodeKey, v: DirView, v': DirView)
    requires d in s.nodes
    ensures SetDir(SetDir(s, d, v), d, v') == SetDir(s, d, v')
  {
    assert s.nodes[d := s.nodes[d].(dir := Some(v))][d := s.nodes[d].(dir := Some(v'))]
        == s.nodes[d := s.nodes[d].(dir := Some(v'))];
  }

  lemma SetDirItself(s: Share, d: NodeKey)
    requires HasDir(s, d)
    ensures SetDir(s, d, s.nodes[d].dir.value) == s
  {
    assert s.nodes[d := s.nodes[d]] == s.nodes;
  }

  lemma {:induction false} ListEntriesNames(l: Listed, es: seq<SnapEntry>, k: NodeKey)
    ensures k in ListEntries(l, es).link ==> k in l.link || exists i :: 0 <= i < |es| && es[i].node == k
    decreases |es|
  {
    if es != [] {
      var l1 := ListEntry(l, es[0]);
      ListEntriesNames(l1, es[1..], k);
      if k in ListEntries(l, es).link && k !in l.link && es[0].node != k {
        var i :| 0 <= i < |es[1..]| && es[1..][i].node == k;
        assert es[i + 1].node == k;
      }
    }
  }

  lemma {:induction false} LinkIncAllBalanced(s: Share, ks: seq<NodeKey>)
    ensures Balanced(s, LinkIncAll(s, ks))
    decreases |ks|
  {
    hide Balanced;
    if ks == [] {
      BalancedNothing(s);
    } else {
      LinkIncBalanced(s, ks[0]);
      LinkIncAllBalanced(LinkInc(s, ks[0]), ks[1..]);
      BalancedThen(s, LinkInc(s, ks[0]), LinkIncAll(s, ks));
    }
  }

  lemma {:induction false} LinkDecAllBalanced(s: Share, ks: seq<NodeKey>)
    requires TablesWellFormed(s)
    ensures Balanced(s, LinkDecAll(s, ks))
    decreases |ks|
  {
    hide Balanced, TablesWellFormed;
    if ks == [] {
      BalancedNothing(s);
    } else {
      LinkDecBalanced(s, ks[0]);
      BalancedTables(s, LinkDec(s, ks[0]));
      LinkDecAllBalanced(LinkDec(s, ks[0]), ks[1..]);
      BalancedThen(s, LinkDec(s, ks[0]), LinkDecAll(s, ks));
    }
  }

  /** The nodes a snapshot record introduces, and the listing it makes of them. */
  ghost function SnapNodes(s: Share, r: SnapDir): Share {
    UpsertEntryNodes(UpsertNode(s, r.dir, r.dirAttr, r.parent), r.dir, r.entries)
  }

  lemma SnapNodesQuiet(s: Share, r: SnapDir)
    requires r.dirAttr.kind == Dir
    ensures Quiet(s, SnapNodes(s, r)) && HasDir(SnapNodes(s, r), r.dir)
    ensures forall i :: 0 <= i < |r.entries| ==> r.entries[i].node in SnapNodes(s, r).nodes
  {
    hide Quiet;
    var s0 := UpsertNode(s, r.dir, r.dirAttr, r.parent);
    UpsertNodeQuiet(s, r.dir, r.dirAttr, r.parent);
    UpsertEntryNodesQuiet(s0, r.dir, r.entries);
    QuietThen(s, s0, SnapNodes(s, r));
    QuietKeepsNode(s0, SnapNodes(s, r), r.dir);
  }

  ghost function SnapListed(s: Share, r: SnapDir): Listed
    requires HasDir(s, r.dir)
  {
    ListEntries(Listed(s.nodes[r.dir].dir.value, 0, [], []), r.entries)
  }

  lemma SnapFilled(s: Share, r: SnapDir, k: NodeKey)
    requires TablesWellFormed(s) && HasDir(s, r.dir)
    ensures var l, s1 := SnapListed(s, r), FillDir(s, r.dir, SnapListed(s, r), r.last);
            && Balanced(s, s1)
            && Refs(Edges(s1), k) - multiset(l.link)[k] + multiset(l.unlink)[k] == Refs(Edges(s), k)
            && s1.nodes.Keys == s.nodes.Keys
            && (forall x :: x in s.nodes ==> s1.nodes[x].links == s.nodes[x].links)
  {
    hide Balanced, Refs, Edges, WellFormed;
    var v0, l := s.nodes[r.dir].dir.value, SnapListed(s, r);
    ListEntriesRefs(s, r.dir, Listed(v0, 0, [], []), r.entries, k);
    SetDirItself(s, r.dir);
    hide TablesWellFormed;
    var v := l.view.(complete := l.view.complete || r.last);
    SameTableSameEdges(s, r.dir, l.view, v);
    TableStepBalanced(s, r.dir, v, l.delta);
    EdgesIgnoreCounters(SetDir(s, r.dir, v), s.entryCount + l.delta);
  }

  lemma SameTableSameEdges(s: Share, d: NodeKey, v: DirView, v': DirView)
    requires HasDir(s, d) && v'.table == v.table && v'.nextCookie == v.nextCookie
    ensures Edges(SetDir(s, d, v')) == Edges(SetDir(s, d, v))
    ensures WellFormed(v') == WellFormed(v)
  {
    EdgesSame(SetDir(s, d, v), SetDir(s, d, v'));
  }

  lemma EdgesIgnoreCounters(s: Share, n: int)
    ensures Edges(s.(entryCount := n)) == Edges(s)
  {
    EdgesSame(s, s.(entryCount := n));
  }

  lemma SnapBalanced(s: Share, r: SnapDir)
    requires TablesWellFormed(s) && r.dirAttr.kind == Dir
    ensures Balanced(s, ApplySnapDir(s, r))
  {
    hide Balanced, TablesWellFormed, Quiet;
    var s1 := SnapNodes(s, r);
    SnapNodesQuiet(s, r);
    QuietBalanced(s, s1);
    BalancedTables(s, s1);
    var l := SnapListed(s1, r);
    var s2 := FillDir(s1, r.dir, l, r.last);
    SnapFilled(s1, r, r.dir);
    BalancedThen(s, s1, s2);
    var s3 := LinkIncAll(s2, l.link);
    LinkIncAllBalanced(s2, l.link);
    BalancedThen(s, s2, s3);
    BalancedTables(s, s3);
    LinkDecAllBalanced(s3, l.unlink);
    BalancedThen(s, s3, LinkDecAll(s3, l.unlink));
  }

  // ---- link counts ---------------------------------------------------------------------------

  /** Nothing owed: links less dentries. */
  ghost function Surplus(s: Share, k: NodeKey): int {
    Account(s, multiset{}, k)
  }

  /** Every listed name resolves, and every node has a link for each dentry naming it. */
  ghost predicate Linked(s: Share) {
    forall k :: Surplus(s, k) >= 0
  }

  /** Every node has exactly one link per dentry. */
  ghost predicate Exact(s: Share) {
    forall k :: Surplus(s, k) == 0
  }

  lemma LinkedMeans(s: Share)
    requires Linked(s)
    ensures forall d, n :: n in Table(s, d) ==> Table(s, d)[n].node in s.nodes
    ensures forall k :: k in s.nodes ==> Refs(Edges(s), k) <= s.nodes[k].links
  {
    forall d, n | n in Table(s, d) ensures Table(s, d)[n].node in s.nodes {
      var k := Table(s, d)[n].node;
      var e := Edge(d, n, k);
      assert e in Edges(s) && e in Into(Edges(s), k);
      assert Surplus(s, k) >= 0;
    }
    forall k | k in s.nodes ensures Refs(Edges(s), k) <= s.nodes[k].links {
      assert Surplus(s, k) >= 0;
    }
  }

  lemma QuietAccount(s: Share, s': Share, k: NodeKey)
    requires Quiet(s, s')
    ensures Surplus(s', k) == Surplus(s, k)
  {
    QuietEdges(s, s');
  }

  lemma LinkIncAccount(s: Share, key: NodeKey, owed: multiset<NodeKey>, k: NodeKey)
    requires key in s.nodes
    ensures Account(LinkInc(s, key), owed, k) == Account(s, owed, k) + One(k == key)
    ensures LinkInc(s, key).nodes.Keys == s.nodes.Keys
  {
    EdgesSame(s, LinkInc(s, key));
  }

  lemma PlacedAccount(s: Share, parent: NodeKey, name: Name, node: NodeKey, kind: Kind,
                      owed: multiset<NodeKey>, k: NodeKey)
    requires HasDir(s, parent)
    ensures var u := Upsert(s.nodes[parent].dir.value, name, node, kind).1;
            Account(Placed(s, parent, name, node, kind), owed, k)
              == Account(s, owed, k) - One(u.gainedLink && k == node) + One(u.displaced == Some(k))
  {
    hide Refs, Edges;
    var (v, u) := Upsert(s.nodes[parent].dir.value, name, node, kind);
    UpsertRefs(s, parent, name, node, kind, k);
    EdgesIgnoreCounters(SetDir(s, parent, v), s.entryCount + u.delta);
  }

  lemma ClearedAccount(s: Share, parent: NodeKey, name: Name, owed: multiset<NodeKey>, k: NodeKey)
    requires name in Table(s, parent)
    ensures Account(Cleared(s, parent, name), owed, k) == Account(s, owed, k) + One(k == Table(s, parent)[name].node)
  {
    hide Refs, Edges;
    RemoveRefs(s, parent, name, k);
    EdgesIgnoreCounters(SetDir(s, parent, Remove(s.nodes[parent].dir.value, name).0), s.entryCount - 1);
  }

  lemma OwedOne(s: Share, key: NodeKey, k: NodeKey)
    ensures Account(s, multiset{} + multiset{key}, k) == Account(s, multiset{}, k) - One(k == key)
  {}

  /** Paying off a displaced node's link. */
  lemma DropDisplacedAccount(s: Share, displaced: Option<NodeKey>, k: NodeKey)
    requires TablesWellFormed(s)
    requires Surplus(s, k) >= One(displaced == Some(k))
    ensures Surplus(DropDisplaced(s, displaced), k) == Surplus(s, k) - One(displaced == Some(k))
  {
    match displaced
    case None =>
    case Some(x) =>
      OwedOne(s, x, k);
      LinkDecBalances(s, x, multiset{}, k);
  }

  lemma DentrySetAccount(s: Share, parent: NodeKey, name: Name, node: NodeKey, kind: Kind, k: NodeKey)
    requires TablesWellFormed(s) && node in s.nodes && Surplus(s, k) >= 0
    ensures Surplus(DentrySet(s, parent, name, node, kind), k) == Surplus(s, k)
  {
    hide Account, TablesWellFormed, Balanced;
    if HasDir(s, parent) {
      var u := Upsert(s.nodes[parent].dir.value, name, node, kind).1;
      var s1 := Placed(s, parent, name, node, kind);
      PlacedBalanced(s, parent, name, node, kind);
      PlacedAccount(s, parent, name, node, kind, multiset{}, k);
      var s2 := if u.gainedLink then LinkInc(s1, node) else s1;
      if u.gainedLink { LinkIncAccount(s1, node, multiset{}, k); }
      LinkIncBalanced(s1, node);
      BalancedTables(s, s1);
      if u.gainedLink { BalancedTables(s1, s2); }
      DropDisplacedAccount(s2, u.displaced, k);
    }
  }

  lemma CreatedAccount(s: Share, parent: NodeKey, name: Name, node: NodeKey, attr: Option<Attr>, k: NodeKey)
    requires TablesWellFormed(s) && Surplus(s, k) >= 0
    ensures Surplus(ApplyCreated(s, parent, name, node, attr), k) == Surplus(s, k)
  {
    hide Account, TablesWellFormed, Balanced, Quiet;
    var s1 := Introduce(s, parent, node, attr);
    IntroduceQuiet(s, parent, node, attr);
    QuietAccount(s, s1, k);
    QuietBalanced(s, s1);
    BalancedTables(s, s1);
    DentrySetAccount(s1, parent, name, node, AttrKind(attr), k);
  }

  lemma {:induction false} CreatedAllAccount(s: Share, parent: NodeKey, es: seq<SnapEntry>, k: NodeKey)
    requires TablesWellFormed(s) && Surplus(s, k) >= 0
    ensures Surplus(ApplyCreatedAll(s, parent, es), k) == Surplus(s, k)
    decreases |es|
  {
    hide Account, TablesWellFormed, Balanced;
    if es != [] {
      CreatedAccount(s, parent, es[0].name, es[0].node, Some(es[0].attr), k);
      CreatedBalanced(s, parent, es[0].name, es[0].node, Some(es[0].attr));
      var s1 := ApplyCreated(s, parent, es[0].name, es[0].node, Some(es[0].attr));
      BalancedTables(s, s1);
      CreatedAllAccount(s1, parent, es[1..], k);
    }
  }

  lemma RemovedAccount(s: Share, parent: NodeKey, name: Name, k: NodeKey)
    requires TablesWellFormed(s) && Surplus(s, k) >= 0
    ensures Surplus(DentryRemove(s, parent, name), k) == Surplus(s, k)
  {
    hide Account, TablesWellFormed, Balanced;
    if name in Table(s, parent) {
      var s1, x := Cleared(s, parent, name), Table(s, parent)[name].node;
      ClearedAccount(s, parent, name, multiset{}, k);
      ClearedBalanced(s, parent, name);
      BalancedTables(s, s1);
      DropDisplacedAccount(s1, Some(x), k);
    }
  }

  /** A rename leaks the moved node's link when it has nowhere new to put it: the source is there,
      but the destination is not a known directory or already names that node. */
  ghost predicate Leaks(s: Share, fp: NodeKey, fnm: Name, tp: NodeKey, tnm: Name) {
    && fnm in Table(s, fp)
    && var s1 := Cleared(s, fp, fnm);
       !HasDir(s1, tp) || (tnm in Table(s1, tp) && Table(s1, tp)[tnm].node == Table(s, fp)[fnm].node)
  }

  lemma RenamedAccount(s: Share, fp: NodeKey, fnm: Name, tp: NodeKey, tnm: Name, k: NodeKey)
    requires TablesWellFormed(s) && Surplus(s, k) >= 0
    ensures Surplus(ApplyRenamed(s, fp, fnm, tp, tnm), k)
         == Surplus(s, k) + One(Leaks(s, fp, fnm, tp, tnm) && k == Table(s, fp)[fnm].node)
  {
    hide Account, TablesWellFormed, Balanced, Quiet, Placed;
    if fnm in Table(s, fp) {
      var s1, x := Cleared(s, fp, fnm), Table(s, fp)[fnm];
      ClearedAccount(s, fp, fnm, multiset{}, k);
      ClearedBalanced(s, fp, fnm);
      BalancedTables(s, s1);
      if HasDir(s1, tp) {
        RelinkAccount(s1, tp, tnm, x.node, x.kind, k);
      }
    }
  }

  lemma RelinkAccount(s: Share, parent: NodeKey, name: Name, node: NodeKey, kind: Kind, k: NodeKey)
    requires TablesWellFormed(s) && HasDir(s, parent)
    requires Surplus(s, k) >= One(k == node)
    ensures var u := Upsert(s.nodes[parent].dir.value, name, node, kind).1;
            Surplus(DentryRelink(s, parent, name, node, kind), k) == Surplus(s, k) - One(u.gainedLink && k == node)
  {
    hide Account, TablesWellFormed, Balanced, Quiet;
    var u := Upsert(s.nodes[parent].dir.value, name, node, kind).1;
    var s1 := Placed(s, parent, name, node, kind);
    PlacedAccount(s, parent, name, node, kind, multiset{}, k);
    PlacedBalanced(s, parent, name, node, kind);
    BalancedTables(s, s1);
    DropDisplacedAccount(s1, u.displaced, k);
    var s2 := DropDisplaced(s1, u.displaced);
    SetParentQuiet(s2, node, parent);
    QuietAccount(s2, SetParent(s2, node, parent), k);
  }

  lemma ForceRemoveAccount(s: Share, key: NodeKey, k: NodeKey)
    requires TablesWellFormed(s) && key in s.nodes && Surplus(s, k) >= 0
    requires k == key ==> Refs(Edges(s), key) == 0
    ensures Surplus(ForceRemove(s, key), k) == if k == key then 0 else Surplus(s, k)
  {
    ZeroLinks(s, key);
    var s1 := s.(nodes := s.nodes[key := s.nodes[key].(links := 0)]);
    RemoveNodeBalances(s1, key, multiset{}, k);
  }

  /** The one record that can strand a dentry is a SelfRemoved for a node that still has one. */
  ghost predicate Respects(s: Share, rec: Rec) {
    rec.SelfRemoved? ==> Refs(Edges(s), rec.node) == 0
  }

  ghost predicate RecLeaks(s: Share, rec: Rec) {
    rec.Renamed? && Leaks(s, rec.fromParent, rec.fromName, rec.toParent, rec.toName)
  }

  /** No record but a leaking rename moves any node's surplus; a SelfRemoved clears it. */
  lemma RecAccount(s: Share, rec: Rec, k: NodeKey)
    requires TablesWellFormed(s) && Surplus(s, k) >= 0 && Respects(s, rec)
    ensures Surplus(ApplyRec(s, rec), k)
         == if rec.SelfRemoved? && rec.node == k && k in s.nodes && k != s.root then 0
            else Surplus(s, k) + One(RecLeaks(s, rec) && k == Table(s, rec.fromParent)[rec.fromName].node)
  {
    hide Account, TablesWellFormed, Quiet;
    match rec
    case Created(parent, name, node, attr) => CreatedAccount(s, parent, name, node, attr, k);
    case CreatedBatch(parent, es) => CreatedAllAccount(s, parent, es, k);
    case Removed(parent, name) => RemovedAccount(s, parent, name, k);
    case Renamed(fp, fnm, tp, tnm) => RenamedAccount(s, fp, fnm, tp, tnm, k);
    case AttrChanged(node, attr) =>
      UpdatePendingQuiet(s, node, PendingAttr(attr));
      PendingQuiet(s, StashPending(s, node, PendingAttr(attr)).pending);
      QuietAccount(s, ApplyRec(s, rec), k);
    case Content(node, version, size, mtime) =>
      UpdatePendingQuiet(s, node, PendingContent(version, size, mtime));
      PendingQuiet(s, StashPending(s, node, PendingContent(version, size, mtime)).pending);
      QuietAccount(s, ApplyRec(s, rec), k);
    case SelfRemoved(node) =>
      if node in s.nodes && node != s.root { ForceRemoveAccount(s, node, k); }
    case Overflow =>
    case EchoMarker(_) =>
  }

  /** A rename keeps links exact if and only if it does not leak: the leaked link is never given
      back by the rename itself. */
  lemma RenameExactIff(s: Share, rec: Rec)
    requires TablesWellFormed(s) && Exact(s) && rec.Renamed?
    ensures Exact(ApplyRec(s, rec)) <==> !RecLeaks(s, rec)
  {
    hide Account;
    forall k ensures Surplus(ApplyRec(s, rec), k)
        == One(RecLeaks(s, rec) && k == Table(s, rec.fromParent)[rec.fromName].node) {
      assert Surplus(s, k) == 0;
      RecAccount(s, rec, k);
    }
    if RecLeaks(s, rec) {
      assert Surplus(ApplyRec(s, rec), Table(s, rec.fromParent)[rec.fromName].node) == 1;
    }
  }

  // ---- two renames that leak --------------------------------------------------------------------

  /** A root that lists only names of one file. */
  ghost predicate Sole(s: Share, root: NodeKey, file: NodeKey, names: set<Name>, links: nat) {
    && s.root == root && root != file && s.pending == map[]
    && s.nodes.Keys == {root, file} && s.nodes[root].dir.Some? && s.nodes[file].dir.None?
    && s.nodes[file].links == links
    && Table(s, root).Keys == names && forall n :: n in names ==> Table(s, root)[n].node == file
  }

  ghost function Seeded(root: NodeKey, dirAttr: Attr): Share
    requires dirAttr.kind == Dir
  {
    ApplySnapDir(NewShare(root), SnapDir(0, root, dirAttr, root, [], true))
  }

  lemma SeededIs(root: NodeKey, dirAttr: Attr)
    requires dirAttr.kind == Dir
    ensures Seeded(root, dirAttr) == NewShare(root).(
              nodes := map[root := Node(dirAttr, root, 0, Some(EMPTY.(complete := true)))],
              nodeCount := 1,
              dirCount := 1)
  {}

  lemma FirstName(root: NodeKey, dirAttr: Attr, a: Name, file: NodeKey, attr: Attr)
    requires dirAttr.kind == Dir && attr.kind == Reg && root != file
    ensures Sole(ApplyRec(Seeded(root, dirAttr), Created(root, a, file, Some(attr))), root, file, {a}, 1)
  {
    SeededIs(root, dirAttr);
  }

  lemma NextName(s: Share, root: NodeKey, file: NodeKey, names: set<Name>, links: nat, b: Name, attr: Attr)
    requires Sole(s, root, file, names, links) && attr.kind == Reg && b !in names
    ensures Sole(ApplyRec(s, Created(root, b, file, Some(attr))), root, file, names + {b}, links + 1)
  {}

  lemma SoleSurplus(s: Share, root: NodeKey, file: NodeKey, names: set<Name>, links: nat)
    requires Sole(s, root, file, names, links)
    ensures Surplus(s, file) == links - |names|
  {
    var es := set n | n in names :: Edge(root, n, file);
    assert Into(Edges(s), file) == es;
    NamesMap(root, file, names);
  }

  lemma {:induction false} NamesMap(root: NodeKey, file: NodeKey, names: set<Name>)
    ensures |set n | n in names :: Edge(root, n, file)| == |names|
    decreases names
  {
    if n :| n in names {
      NamesMap(root, file, names - {n});
      assert (set m | m in names :: Edge(root, m, file))
          == (set m | m in names - {n} :: Edge(root, m, file)) + {Edge(root, n, file)};
    } else {
      assert (set m | m in names :: Edge(root, m, file)) == {};
    }
  }

  /** A file renamed into a directory the replica does not know keeps its node, with a link for no name at all. */
  lemma RenamedAway(root: NodeKey, dirAttr: Attr, a: Name, file: NodeKey, attr: Attr, gone: NodeKey, b: Name)
    requires dirAttr.kind == Dir && attr.kind == Reg && root != file && gone != root && gone != file
    ensures var s := ApplyRecs(Seeded(root, dirAttr), [Created(root, a, file, Some(attr)), Renamed(root, a, gone, b)]);
            && file in s.nodes && Surplus(s, file) == 1
            && forall d, n :: n in Table(s, d) ==> Table(s, d)[n].node != file
  {
    hide Sole, Surplus, Seeded;
    var s1 := ApplyRec(Seeded(root, dirAttr), Created(root, a, file, Some(attr)));
    FirstName(root, dirAttr, a, file, attr);
    var s2 := ApplyRec(s1, Renamed(root, a, gone, b));
    TakenAway(s1, root, file, a, gone, b);
    SoleSurplus(s2, root, file, {}, 1);
    TwoRecs(Seeded(root, dirAttr), Created(root, a, file, Some(attr)), Renamed(root, a, gone, b));
    NoName(s2, root, file, 1);
  }

  lemma TakenAway(s: Share, root: NodeKey, file: NodeKey, a: Name, gone: NodeKey, b: Name)
    requires Sole(s, root, file, {a}, 1) && gone != root && gone != file
    ensures Sole(ApplyRec(s, Renamed(root, a, gone, b)), root, file, {}, 1)
  {}

  lemma NoName(s: Share, root: NodeKey, file: NodeKey, links: nat)
    requires Sole(s, root, file, {}, links)
    ensures file in s.nodes && forall d, n :: n in Table(s, d) ==> Table(s, d)[n].node != file
  {}

  lemma TwoRecs(s: Share, r1: Rec, r2: Rec)
    ensures ApplyRecs(s, [r1, r2]) == ApplyRec(ApplyRec(s, r1), r2)
  {
    hide ApplyRec;
    assert [r1, r2][1..] == [r2] && [r2][1..] == [];
    assert ApplyRecs(ApplyRec(s, r1), [r2]) == ApplyRecs(ApplyRec(ApplyRec(s, r1), r2), []);
  }

  /** A rename onto another name of the same file leaks too: with its last name removed, the node stays. */
  lemma RenamedOntoItself(root: NodeKey, dirAttr: Attr, a: Name, b: Name, file: NodeKey, attr: Attr)
    requires dirAttr.kind == Dir && attr.kind == Reg && root != file && a != b
    ensures var s := ApplyRecs(Seeded(root, dirAttr),
                               [Created(root, a, file, Some(attr)), Created(root, b, file, Some(attr))]);
            var s' := ApplyRecs(s, [Renamed(root, a, root, b), Removed(root, b)]);
            && Surplus(s, file) == 0 && Surplus(s', file) == 1 && file in s'.nodes
            && forall d, n :: n in Table(s', d) ==> Table(s', d)[n].node != file
  {
    hide Sole, Surplus, Seeded;
    var c1, c2 := Created(root, a, file, Some(attr)), Created(root, b, file, Some(attr));
    FirstName(root, dirAttr, a, file, attr);
    var s1 := ApplyRec(Seeded(root, dirAttr), c1);
    NextName(s1, root, file, {a}, 1, b, attr);
    var s2 := ApplyRec(s1, c2);
    TwoRecs(Seeded(root, dirAttr), c1, c2);
    SoleSurplus(s2, root, file, {a} + {b}, 2);
    var s3 := ApplyRec(s2, Renamed(root, a, root, b));
    MovedOnto(s2, root, file, a, b);
    var s4 := ApplyRec(s3, Removed(root, b));
    LastRemoved(s3, root, file, b);
    TwoRecs(s2, Renamed(root, a, root, b), Removed(root, b));
    SoleSurplus(s4, root, file, {}, 1);
    NoName(s4, root, file, 1);
  }

  lemma MovedOnto(s: Share, root: NodeKey, file: NodeKey, a: Name, b: Name)
    requires Sole(s, root, file, {a} + {b}, 2) && a != b
    ensures Sole(ApplyRec(s, Renamed(root, a, root, b)), root, file, {b}, 2)
  {}

  lemma LastRemoved(s: Share, root: NodeKey, file: NodeKey, b: Name)
    requires Sole(s, root, file, {b}, 2)
    ensures Sole(ApplyRec(s, Removed(root, b)), root, file, {}, 1)
  {}

  lemma RecKeepsLinked(s: Share, rec: Rec)
    requires TablesWellFormed(s) && Linked(s) && Respects(s, rec)
    ensures Linked(ApplyRec(s, rec))
    ensures Exact(s) && !RecLeaks(s, rec) ==> Exact(ApplyRec(s, rec))
  {
    hide Account;
    forall k ensures Surplus(ApplyRec(s, rec), k) >= 0 {
      assert Surplus(s, k) >= 0;
      RecAccount(s, rec, k);
    }
    if Exact(s) && !RecLeaks(s, rec) {
      forall k ensures Surplus(ApplyRec(s, rec), k) == 0 {
        assert Surplus(s, k) == 0;
        RecAccount(s, rec, k);
      }
    }
  }

  // ---- snapshot records keep links ------------------------------------------------------------

  lemma {:induction false} LinkIncAllAccount(s: Share, ks: seq<NodeKey>, owed: multiset<NodeKey>, k: NodeKey)
    requires forall i :: 0 <= i < |ks| ==> ks[i] in s.nodes
    ensures Account(LinkIncAll(s, ks), owed, k) == Account(s, owed, k) + multiset(ks)[k]
    decreases |ks|
  {
    hide Account;
    if ks != [] {
      LinkIncAccount(s, ks[0], owed, k);
      LinkIncAllAccount(LinkInc(s, ks[0]), ks[1..], owed, k);
      assert ks == [ks[0]] + ks[1..];
    }
  }

  lemma {:induction false} LinkDecAllAccount(s: Share, ks: seq<NodeKey>, k: NodeKey)
    requires TablesWellFormed(s) && Account(s, multiset(ks), k) >= 0
    ensures Surplus(LinkDecAll(s, ks), k) == Account(s, multiset(ks), k)
    decreases |ks|
  {
    hide Account, TablesWellFormed, Balanced;
    if ks == [] {
      assert multiset(ks) == multiset{};
    } else {
      assert ks == [ks[0]] + ks[1..];
      assert multiset(ks) == multiset(ks[1..]) + multiset{ks[0]};
      LinkDecBalances(s, ks[0], multiset(ks[1..]), k);
      LinkDecBalanced(s, ks[0]);
      BalancedTables(s, LinkDec(s, ks[0]));
      LinkDecAllAccount(LinkDec(s, ks[0]), ks[1..], k);
    }
  }

  lemma SnapFilledAccount(s: Share, r: SnapDir, k: NodeKey)
    requires TablesWellFormed(s) && HasDir(s, r.dir)
    ensures var l, s1 := SnapListed(s, r), FillDir(s, r.dir, SnapListed(s, r), r.last);
            Account(s1, multiset(l.unlink), k) + multiset(l.link)[k] == Surplus(s, k)
  {
    hide Refs, Edges, TablesWellFormed, SnapListed, FillDir, Balanced;
    SnapFilled(s, r, k);
  }

  lemma SnapAccount(s: Share, r: SnapDir, k: NodeKey)
    requires TablesWellFormed(s) && r.dirAttr.kind == Dir && Surplus(s, k) >= 0
    ensures Surplus(ApplySnapDir(s, r), k) == Surplus(s, k)
  {
    hide Account, TablesWellFormed, Quiet, Balanced;
    var s1 := SnapNodes(s, r);
    SnapNodesQuiet(s, r);
    QuietAccount(s, s1, k);
    QuietBalanced(s, s1);
    BalancedTables(s, s1);
    var l := SnapListed(s1, r);
    var s2 := FillDir(s1, r.dir, l, r.last);
    SnapFilled(s1, r, k);
    SnapFilledAccount(s1, r, k);
    BalancedTables(s1, s2);
    forall i | 0 <= i < |l.link| ensures l.link[i] in s2.nodes {
      ListEntriesNames(Listed(s1.nodes[r.dir].dir.value, 0, [], []), r.entries, l.link[i]);
    }
    var s3 := LinkIncAll(s2, l.link);
    LinkIncAllAccount(s2, l.link, multiset(l.unlink), k);
    LinkIncAllBalanced(s2, l.link);
    BalancedTables(s2, s3);
    LinkDecAllAccount(s3, l.unlink, k);
  }

  // ---- whole runs -----------------------------------------------------------------------------

  /** One step of a replica's life. */
  datatype Step = Snap(dir: SnapDir) | Journal(rec: Rec)

  ghost function Do(s: Share, step: Step): Share
    requires step.Snap? ==> step.dir.dirAttr.kind == Dir
  {
    match step
    case Snap(r) => ApplySnapDir(s, r)
    case Journal(rec) => ApplyRec(s, rec)
  }

  ghost predicate Decoded(steps: seq<Step>) {
    forall i :: 0 <= i < |steps| ==> (steps[i].Snap? ==> steps[i].dir.dirAttr.kind == Dir)
  }

  ghost function Run(s: Share, steps: seq<Step>): Share
    requires Decoded(steps)
    decreases |steps|
  {
    if steps == [] then s else Run(Do(s, steps[0]), steps[1..])
  }

  /** The counters are the true counts. */
  ghost predicate Counted(s: Share) {
    && TablesWellFormed(s)
    && s.nodeCount == |s.nodes|
    && s.dirCount == |Dirs(s)|
    && s.entryCount == |Edges(s)|
  }

  lemma StepBalanced(s: Share, step: Step)
    requires TablesWellFormed(s) && (step.Snap? ==> step.dir.dirAttr.kind == Dir)
    ensures Balanced(s, Do(s, step))
  {
    match step
    case Snap(r) => SnapBalanced(s, r);
    case Journal(rec) => RecBalanced(s, rec);
  }

  /** After any stream of records at all, hostile ones included: the counters are exact (so they
      never wrap, and a recount changes nothing) and a root once seeded is still there. */
  lemma {:induction false} CountersAlwaysExact(s: Share, steps: seq<Step>)
    requires Counted(s) && Decoded(steps)
    ensures Counted(Run(s, steps))
    ensures Run(s, steps).root == s.root
    ensures s.root in s.nodes ==> s.root in Run(s, steps).nodes
    decreases |steps|
  {
    if steps != [] {
      StepBalanced(s, steps[0]);
      CountersAlwaysExact(Do(s, steps[0]), steps[1..]);
    }
  }

  lemma NewShareIsClean(root: NodeKey)
    ensures Counted(NewShare(root)) && Exact(NewShare(root))
  {
    var s := NewShare(root);
    assert Edges(s) == {} && Dirs(s) == {};
    assert forall k :: Into({}, k) == {};
  }

  ghost predicate StepRespects(s: Share, step: Step) {
    step.Journal? ==> Respects(s, step.rec)
  }

  ghost predicate StepLeaks(s: Share, step: Step) {
    step.Journal? && RecLeaks(s, step.rec)
  }

  /** Every SelfRemoved of the run names a node no dentry names any more. */
  ghost predicate RunRespects(s: Share, steps: seq<Step>)
    requires Decoded(steps)
    decreases |steps|
  {
    steps == [] || (StepRespects(s, steps[0]) && RunRespects(Do(s, steps[0]), steps[1..]))
  }

  ghost predicate RunLeaks(s: Share, steps: seq<Step>)
    requires Decoded(steps)
    decreases |steps|
  {
    steps != [] && (StepLeaks(s, steps[0]) || RunLeaks(Do(s, steps[0]), steps[1..]))
  }

  lemma StepKeepsLinked(s: Share, step: Step)
    requires TablesWellFormed(s) && Linked(s) && (step.Snap? ==> step.dir.dirAttr.kind == Dir)
    requires StepRespects(s, step)
    ensures Linked(Do(s, step))
    ensures Exact(s) && !StepLeaks(s, step) ==> Exact(Do(s, step))
  {
    match step
    case Journal(rec) => RecKeepsLinked(s, rec);
    case Snap(r) =>
      hide Account;
      forall k ensures Surplus(Do(s, step), k) == Surplus(s, k) {
        assert Surplus(s, k) >= 0;
        SnapAccount(s, r, k);
      }
  }

  /** Over any such run every listed name resolves and links cover dentries; without a leaking
      rename the two are equal. */
  lemma {:induction false} LinksAlwaysCover(s: Share, steps: seq<Step>)
    requires TablesWellFormed(s) && Linked(s) && Decoded(steps) && RunRespects(s, steps)
    ensures Linked(Run(s, steps))
    ensures Exact(s) && !RunLeaks(s, steps) ==> Exact(Run(s, steps))
    decreases |steps|
  {
    if steps != [] {
      StepBalanced(s, steps[0]);
      StepKeepsLinked(s, steps[0]);
      LinksAlwaysCover(Do(s, steps[0]), steps[1..]);
    }
  }
}
