/** What every record keeps, on every stream of records. */
module ReplicaInvariants {
  import opened Types
  import opened DirViews
  import opened Replicas
  import opened Collection

  // ---- steps that leave dentries and links alone ------------------------------------------

  /** Nodes may appear (unlinked and empty) and attributes may change; nothing else does. */
  ghost predicate Quiet(s: Share, s': Share) {
    && s'.root == s.root
    && s.nodes.Keys <= s'.nodes.Keys
    && (forall k :: k in s.nodes ==> s'.nodes[k].links == s.nodes[k].links)
    && (forall k :: k in s'.nodes && k !in s.nodes ==> s'.nodes[k].links == 0)
    && (forall d :: Table(s', d) == Table(s, d))
    && (forall d :: HasDir(s, d) ==> HasDir(s', d))
    && (TablesWellFormed(s) ==> TablesWellFormed(s'))
    && s'.nodeCount - |s'.nodes| == s.nodeCount - |s.nodes|
    && s'.dirCount - |Dirs(s')| == s.dirCount - |Dirs(s)|
    && s'.entryCount == s.entryCount
  }

  lemma QuietThen(s: Share, s1: Share, s2: Share)
    requires Quiet(s, s1) && Quiet(s1, s2)
    ensures Quiet(s, s2)
  {}

  lemma QuietNothing(s: Share)
    ensures Quiet(s, s)
  {}

  lemma QuietEdges(s: Share, s': Share)
    requires Quiet(s, s')
    ensures Edges(s') == Edges(s)
  {
    EdgesAre(s);
    EdgesAre(s');
    assert forall e :: HasEdge(s, e) <==> HasEdge(s', e);
  }

  /** Changing one known node without touching its links or its table. */
  lemma NodeEditQuiet(s: Share, key: NodeKey, n: Node)
    requires key in s.nodes
    requires n.links == s.nodes[key].links
    requires n.dir.Some? == s.nodes[key].dir.Some?
    requires n.dir.Some? ==> n.dir.value.table == s.nodes[key].dir.value.table
    requires n.dir.Some? ==> n.dir.value.nextCookie == s.nodes[key].dir.value.nextCookie
    ensures Quiet(s, s.(nodes := s.nodes[key := n]))
  {
    var s' := s.(nodes := s.nodes[key := n]);
    assert s'.nodes.Keys == s.nodes.Keys;
    assert Dirs(s') == Dirs(s);
    forall d | HasDir(s', d) && TablesWellFormed(s) ensures WellFormed(s'.nodes[d].dir.value) {
      assert HasDir(s, d);
    }
  }

  lemma PutNodeTables(s: Share, key: NodeKey, n: Node)
    requires n.dir.Some? ==> WellFormed(n.dir.value)
    ensures TablesWellFormed(s) ==> TablesWellFormed(s.(nodes := s.nodes[key := n]))
  {
    var s' := s.(nodes := s.nodes[key := n]);
    forall d | HasDir(s', d) && TablesWellFormed(s) ensures WellFormed(s'.nodes[d].dir.value) {
      assert d != key ==> HasDir(s, d);
    }
  }

  lemma NewNodeQuiet(s: Share, key: NodeKey, n: Node)
    requires key !in s.nodes
    requires n.links == 0 && (n.dir.None? || n.dir == Some(EMPTY))
    ensures Quiet(s, s.(nodes := s.nodes[key := n],
                        nodeCount := s.nodeCount + 1,
                        dirCount := s.dirCount + One(n.dir.Some?)))
  {
    hide TablesWellFormed, Dirs, WellFormed;
    var s1 := s.(nodes := s.nodes[key := n]);
    var s' := s1.(nodeCount := s.nodeCount + 1, dirCount := s.dirCount + One(n.dir.Some?));
    assert EMPTY.table == map[] && WellFormed(EMPTY) by { EmptyWellFormed(); }
    PutNodeTables(s, key, n);
    CountersKeepTables(s1, s');
    assert s'.nodes.Keys == s.nodes.Keys + {key};
    NewNodeCounts(s, s', key);
    NewNodeTable(s, s', key);
    hide Table;
  }

  lemma NewNodeTable(s: Share, s': Share, key: NodeKey)
    requires key !in s.nodes && s'.nodes.Keys == s.nodes.Keys + {key}
    requires forall k :: k in s.nodes ==> s'.nodes[k] == s.nodes[k]
    requires s'.nodes[key].dir.None? || s'.nodes[key].dir == Some(EMPTY)
    ensures forall d :: Table(s', d) == Table(s, d)
    ensures forall d :: HasDir(s, d) ==> HasDir(s', d)
  {}

  lemma EmptyWellFormed()
    ensures WellFormed(EMPTY)
  {}

  lemma NewNodeCounts(s: Share, s': Share, key: NodeKey)
    requires key !in s.nodes && s'.nodes.Keys == s.nodes.Keys + {key}
    requires forall k :: k in s.nodes ==> s'.nodes[k].dir == s.nodes[k].dir
    ensures |s'.nodes| == |s.nodes| + 1
    ensures |Dirs(s')| == |Dirs(s)| + One(s'.nodes[key].dir.Some?)
  {
    assert |s'.nodes.Keys| == |s.nodes.Keys| + 1;
    if s'.nodes[key].dir.Some? {
      assert Dirs(s') == Dirs(s) + {key};
    } else {
      assert Dirs(s') == Dirs(s);
    }
  }

  lemma CountersKeepTables(s: Share, s': Share)
    requires s'.nodes == s.nodes
    ensures TablesWellFormed(s') <==> TablesWellFormed(s)
  {
    assert forall d :: HasDir(s, d) <==> HasDir(s', d);
  }

  lemma GainDirQuiet(s: Share, key: NodeKey, n: Node)
    requires key in s.nodes && s.nodes[key].dir.None?
    requires n.links == s.nodes[key].links && n.dir == Some(EMPTY)
    ensures Quiet(s, s.(nodes := s.nodes[key := n], dirCount := s.dirCount + 1))
  {
    var s' := s.(nodes := s.nodes[key := n], dirCount := s.dirCount + 1);
    assert s'.nodes.Keys == s.nodes.Keys;
    assert Dirs(s') == Dirs(s) + {key};
    forall d | HasDir(s', d) && TablesWellFormed(s) ensures WellFormed(s'.nodes[d].dir.value) {
      assert d != key ==> HasDir(s, d);
    }
  }

  lemma UpsertNodeQuiet(s: Share, key: NodeKey, attr: Attr, parent: NodeKey)
    ensures Quiet(s, UpsertNode(s, key, attr, parent))
    ensures key in UpsertNode(s, key, attr, parent).nodes
    ensures attr.kind == Dir ==> HasDir(UpsertNode(s, key, attr, parent), key)
  {
    hide Quiet;
    var s' := UpsertNode(s, key, attr, parent);
    if key !in s.nodes {
      NewNodeQuiet(s, key, s'.nodes[key]);
    } else if attr.kind == Dir && s.nodes[key].dir.None? {
      GainDirQuiet(s, key, s'.nodes[key]);
    } else {
      NodeEditQuiet(s, key, s'.nodes[key]);
    }
  }

  lemma UpdatePendingQuiet(s: Share, key: NodeKey, p: Pending)
    ensures Quiet(s, UpdatePending(s, key, p))
  {
    if key in s.nodes {
      NodeEditQuiet(s, key, UpdatePending(s, key, p).nodes[key]);
    } else {
      QuietNothing(s);
    }
  }

  lemma {:induction false} UpdateAllPendingQuiet(s: Share, key: NodeKey, ps: seq<Pending>)
    ensures Quiet(s, UpdateAllPending(s, key, ps))
    decreases |ps|
  {
    hide Quiet;
    if ps == [] {
      QuietNothing(s);
    } else {
      var s1 := UpdatePending(s, key, ps[0]);
      UpdatePendingQuiet(s, key, ps[0]);
      UpdateAllPendingQuiet(s1, key, ps[1..]);
      QuietThen(s, s1, UpdateAllPending(s1, key, ps[1..]));
    }
  }

  lemma PendingQuiet(s: Share, pending: map<NodeKey, seq<Pending>>)
    ensures Quiet(s, s.(pending := pending))
  {
    var s' := s.(pending := pending);
    assert Dirs(s') == Dirs(s);
    forall d | HasDir(s', d) && TablesWellFormed(s) ensures WellFormed(s'.nodes[d].dir.value) {
      assert HasDir(s, d);
    }
  }

  lemma DrainPendingQuiet(s: Share, key: NodeKey)
    ensures Quiet(s, DrainPending(s, key))
  {
    hide Quiet;
    if key in s.pending {
      var s1 := s.(pending := s.pending - {key});
      PendingQuiet(s, s.pending - {key});
      UpdateAllPendingQuiet(s1, key, s.pending[key]);
      QuietThen(s, s1, DrainPending(s, key));
    } else {
      QuietNothing(s);
    }
  }

  lemma MarkDirCompleteQuiet(s: Share, key: NodeKey)
    ensures Quiet(s, MarkDirComplete(s, key))
  {
    if HasDir(s, key) {
      NodeEditQuiet(s, key, MarkDirComplete(s, key).nodes[key]);
    } else {
      QuietNothing(s);
    }
  }

  lemma QuietKeepsNode(s: Share, s': Share, k: NodeKey)
    requires Quiet(s, s')
    ensures k in s.nodes ==> k in s'.nodes
    ensures HasDir(s, k) ==> HasDir(s', k)
  {}

  lemma IntroduceQuiet(s: Share, parent: NodeKey, node: NodeKey, attr: Option<Attr>)
    ensures Quiet(s, Introduce(s, parent, node, attr))
    ensures node in Introduce(s, parent, node, attr).nodes
  {
    hide Quiet;
    var s1 := match attr
      case Some(a) => DrainPending(UpsertNode(s, node, a, parent), node)
      case None => if node in s.nodes then s else UpsertNode(s, node, PlaceholderAttr(Reg), parent);
    match attr {
      case Some(a) =>
        var s0 := UpsertNode(s, node, a, parent);
        UpsertNodeQuiet(s, node, a, parent);
        DrainPendingQuiet(s0, node);
        QuietThen(s, s0, s1);
        QuietKeepsNode(s0, s1, node);
      case None =>
        UpsertNodeQuiet(s, node, PlaceholderAttr(Reg), parent);
        QuietNothing(s);
    }
    if AttrKind(attr) == Dir {
      var s2 := MarkDirComplete(s1, node);
      MarkDirCompleteQuiet(s1, node);
      QuietThen(s, s1, s2);
      QuietKeepsNode(s1, s2, node);
    }
  }

  lemma {:induction false} UpsertEntryNodesQuiet(s: Share, parent: NodeKey, es: seq<SnapEntry>)
    ensures Quiet(s, UpsertEntryNodes(s, parent, es))
    ensures forall i :: 0 <= i < |es| ==> es[i].node in UpsertEntryNodes(s, parent, es).nodes
    decreases |es|
  {
    hide Quiet;
    if es == [] {
      QuietNothing(s);
    } else {
      var s1 := UpsertNode(s, es[0].node, es[0].attr, parent);
      UpsertNodeQuiet(s, es[0].node, es[0].attr, parent);
      UpsertEntryNodesQuiet(s1, parent, es[1..]);
      var s2 := UpsertEntryNodes(s1, parent, es[1..]);
      QuietThen(s, s1, s2);
      QuietKeepsNode(s1, s2, es[0].node);
      forall i | 0 <= i < |es| ensures es[i].node in s2.nodes {
        if i > 0 { assert es[i] == es[1..][i - 1]; }
      }
    }
  }

  // ---- one table changes -------------------------------------------------------------------

  /** The dentries of a share whose directory `d` has table `v.table`. */
  lemma SetDirEdges(s: Share, d: NodeKey, v: DirView)
    requires HasDir(s, d)
    ensures Edges(SetDir(s, d, v)) == (Edges(s) - EdgesOf(d, Table(s, d))) + EdgesOf(d, v.table)
    ensures EdgesOf(d, Table(s, d)) <= Edges(s)
    ensures Dirs(SetDir(s, d, v)) == Dirs(s)
    ensures SetDir(s, d, v).nodes.Keys == s.nodes.Keys
  {
    var s' := SetDir(s, d, v);
    assert s'.nodes.Keys == s.nodes.Keys;
    assert forall x :: x != d ==> Table(s', x) == Table(s, x);
    assert Table(s', d) == v.table;
  }

  lemma SetDirWellFormed(s: Share, d: NodeKey, v: DirView)
    requires TablesWellFormed(s) && HasDir(s, d) && WellFormed(v)
    ensures TablesWellFormed(SetDir(s, d, v))
  {
    forall x | HasDir(SetDir(s, d, v), x) ensures WellFormed(SetDir(s, d, v).nodes[x].dir.value) {
      assert HasDir(s, x);
    }
  }

  lemma EdgesOfPut(d: NodeKey, t: map<Name, Dentry>, n: Name, x: Dentry)
    requires n !in t
    ensures EdgesOf(d, t[n := x]) == EdgesOf(d, t) + {Edge(d, n, x.node)}
    ensures Edge(d, n, x.node) !in EdgesOf(d, t)
  {
    forall e | e in EdgesOf(d, t) ensures e in EdgesOf(d, t[n := x]) {
      assert e.name in t[n := x];
    }
    assert n in t[n := x];
  }

  lemma EdgesOfRekind(d: NodeKey, t: map<Name, Dentry>, n: Name, x: Dentry)
    requires n in t && x.node == t[n].node
    ensures EdgesOf(d, t[n := x]) == EdgesOf(d, t)
  {
    var t' := t[n := x];
    forall e | e in EdgesOf(d, t) ensures e in EdgesOf(d, t') {
      assert e.name in t';
    }
  }

  lemma SwapCounts(es: set<Edge>, lost: set<Edge>, gained: set<Edge>, k: NodeKey)
    requires lost <= es && gained !! es
    ensures |(es - lost) + gained| == |es| - |lost| + |gained|
    ensures Refs((es - lost) + gained, k) == Refs(es, k) - Refs(lost, k) + Refs(gained, k)
  {
    var kept := es - lost;
    assert es == kept + lost;
    RefsSum(kept, lost, k);
    RefsSum(kept, gained, k);
  }

  /** Edges gained and lost when one directory's table changes. */
  lemma TableChangeEdges(s: Share, d: NodeKey, v: DirView, lost: set<Edge>, gained: set<Edge>, k: NodeKey)
    requires HasDir(s, d)
    requires lost <= EdgesOf(d, Table(s, d)) && gained !! EdgesOf(d, Table(s, d))
    requires forall e :: e in gained ==> e.dir == d
    requires EdgesOf(d, v.table) == (EdgesOf(d, Table(s, d)) - lost) + gained
    ensures Edges(SetDir(s, d, v)) == (Edges(s) - lost) + gained
    ensures lost <= Edges(s) && gained !! Edges(s)
    ensures |Edges(SetDir(s, d, v))| == |Edges(s)| - |lost| + |gained|
    ensures Refs(Edges(SetDir(s, d, v)), k) == Refs(Edges(s), k) - Refs(lost, k) + Refs(gained, k)
  {
    hide Edges, EdgesOf, Refs, SetDir;
    GainedAreNew(s, d, gained);
    SetDirEdges(s, d, v);
    SwapSets(Edges(s), EdgesOf(d, Table(s, d)), lost, gained);
    SwapCounts(Edges(s), lost, gained, k);
  }

  lemma SwapSets(es: set<Edge>, mine: set<Edge>, lost: set<Edge>, gained: set<Edge>)
    requires lost <= mine <= es
    ensures (es - mine) + ((mine - lost) + gained) == (es - lost) + gained
  {}

  lemma GainedAreNew(s: Share, d: NodeKey, gained: set<Edge>)
    requires gained !! EdgesOf(d, Table(s, d))
    requires forall e :: e in gained ==> e.dir == d
    ensures gained !! Edges(s)
  {
    EdgesAre(s);
    assert forall e :: HasEdge(s, e) && e.dir == d ==> e in EdgesOf(d, Table(s, d));
  }

  lemma RefsOne(e: Edge, k: NodeKey)
    ensures Refs({e}, k) == if e.to == k then 1 else 0
    ensures Refs({}, k) == 0
  {
    assert Into({e}, k) == if e.to == k then {e} else {};
    assert Into({}, k) == {};
  }

  function One(cond: bool): nat {
    if cond then 1 else 0
  }

  /** What an upsert does to the dentry count of each node. */
  lemma UpsertRefs(s: Share, d: NodeKey, name: Name, node: NodeKey, kind: Kind, k: NodeKey)
    requires HasDir(s, d)
    ensures var (v, u) := Upsert(s.nodes[d].dir.value, name, node, kind);
            var s' := SetDir(s, d, v);
            && Refs(Edges(s'), k) == Refs(Edges(s), k) + One(u.gainedLink && k == node) - One(u.displaced == Some(k))
            && |Edges(s')| == |Edges(s)| + u.delta
            && (u.displaced.Some? ==> u.gainedLink)
            && (forall e :: e in Edges(s') ==> e in Edges(s) || e.to == node)
  {
    hide Refs, Edges, SetDir, EdgesOf;
    var t := Table(s, d);
    var (v, u) := Upsert(s.nodes[d].dir.value, name, node, kind);
    var e := Edge(d, name, node);
    var lost, gained := UpsertEdges(d, t, s.nodes[d].dir.value, name, node, kind, k);
    TableChangeEdges(s, d, v, lost, gained, k);
  }

  /** The dentries an upsert takes out of one table and puts into it. */
  lemma UpsertEdges(d: NodeKey, t: map<Name, Dentry>, v: DirView, name: Name, node: NodeKey, kind: Kind, k: NodeKey)
    returns (lost: set<Edge>, gained: set<Edge>)
    requires t == v.table
    ensures var (v', u) := Upsert(v, name, node, kind);
            && lost <= EdgesOf(d, t) && gained !! EdgesOf(d, t)
            && EdgesOf(d, v'.table) == (EdgesOf(d, t) - lost) + gained
            && (forall e :: e in gained ==> e.dir == d && e.to == node)
            && |gained| - |lost| == u.delta
            && Refs(gained, k) == One(u.gainedLink && k == node)
            && Refs(lost, k) == One(u.displaced == Some(k))
            && (u.displaced.Some? ==> u.gainedLink)
  {
    hide Refs, EdgesOf;
    var (v', u) := Upsert(v, name, node, kind);
    var e := Edge(d, name, node);
    RefsOne(e, k);
    if name in t && t[name].node == node {
      EdgesOfRekind(d, t, name, v'.table[name]);
      lost, gained := {}, {};
    } else if name in t {
      UpsertReplaces(d, t, name, v'.table[name]);
      RefsOne(Edge(d, name, t[name].node), k);
      lost, gained := {Edge(d, name, t[name].node)}, {e};
    } else {
      EdgesOfPut(d, t, name, v'.table[name]);
      lost, gained := {}, {e};
    }
  }

  lemma UpsertReplaces(d: NodeKey, t: map<Name, Dentry>, name: Name, x: Dentry)
    requires name in t && t[name].node != x.node
    ensures EdgesOf(d, t[name := x]) == (EdgesOf(d, t) - {Edge(d, name, t[name].node)}) + {Edge(d, name, x.node)}
    ensures Edge(d, name, t[name].node) in EdgesOf(d, t) && Edge(d, name, x.node) !in EdgesOf(d, t)
  {
    var t1 := t - {name};
    EdgesOfMinus(d, t, name);
    EdgesOfPut(d, t1, name, x);
    assert t1[name := x] == t[name := x];
  }

  lemma RemoveRefs(s: Share, d: NodeKey, name: Name, k: NodeKey)
    requires name in Table(s, d)
    ensures var s' := SetDir(s, d, Remove(s.nodes[d].dir.value, name).0);
            && Refs(Edges(s'), k) == Refs(Edges(s), k) - One(k == Table(s, d)[name].node)
            && |Edges(s')| == |Edges(s)| - 1
            && Edges(s') <= Edges(s)
  {
    var t := Table(s, d);
    var lost := Edge(d, name, t[name].node);
    EdgesOfMinus(d, t, name);
    RefsOne(lost, k);
    TableChangeEdges(s, d, Remove(s.nodes[d].dir.value, name).0, {lost}, {}, k);
  }
}
