/** The replica as the host keeps it: one object whose node map and counters every record changes in
    place.  Each method is the value-level step of the same name. */
module ShareReplicas {
  import opened Types
  import opened DirViews
  import opened Replicas
  import opened Collection
  import opened ReplicaInvariants
  import opened ReplicaRuns

  method First(t: map<Name, Dentry>) returns (first: Name)
    requires |t| > 0
    ensures IsFirst(t, first)
  {
    FirstExists(t);
    first :| first in t && forall n :: n in t ==> t[first].cookie <= t[n].cookie;
  }

  /** The names of a table in cookie order. */
  method InOrder(t: map<Name, Dentry>) returns (names: seq<Name>)
    requires DistinctCookies(t)
    ensures names == ByCookie(t)
  {
    hide DistinctCookies, ByCookie, IsFirst;
    names := [];
    var rest := t;
    assert names + ByCookie(rest) == ByCookie(t);
    while |rest| > 0
      invariant DistinctCookies(rest)
      invariant names + ByCookie(rest) == ByCookie(t)
      decreases |rest|
    {
      var first := First(rest);
      ByCookieStartsWith(rest, first);
      WithoutFirst(rest, first);
      names := names + [first];
      rest := rest - {first};
    }
    assert ByCookie(rest) == [] by { NothingInOrder(rest); }
  }

  lemma NothingInOrder(t: map<Name, Dentry>)
    requires |t| == 0
    ensures ByCookie(t) == []
  {}

  lemma EntriesFollow(v: DirView, cookie: nat, names: seq<Name>)
    requires WellFormed(v) && names == ByCookie(Newer(v.table, cookie))
    ensures |EntriesAfter(v, cookie)| == |names|
    ensures forall i :: 0 <= i < |names| ==>
              && names[i] in Newer(v.table, cookie)
              && EntriesAfter(v, cookie)[i] == EntryOf(Newer(v.table, cookie), names[i])
  {
    var t := Newer(v.table, cookie);
    NewerDistinct(v.table, cookie);
    ByCookieSorts(t);
    hide DistinctCookies, ByCookie, Newer;
    forall i | 0 <= i < |names| ensures names[i] in t { assert names[i] in names; }
  }

  /** A page of one table, entry by entry. */
  method PageOf(v: DirView, cookie: nat, max: nat) returns (page: ReadDirPage)
    requires WellFormed(v)
    ensures page == Page(v, cookie, max)
  {
    var t := Newer(v.table, cookie);
    NewerDistinct(v.table, cookie);
    var names := InOrder(t);
    EntriesFollow(v, cookie, names);
    ghost var all := EntriesAfter(v, cookie);
    hide DistinctCookies, ByCookie, Newer, EntriesAfter;
    var entries: seq<ReadDirEntry> := [];
    while |entries| < |names|
      invariant |entries| <= |names| == |all| && entries == all[..|entries|] && |entries| <= max
    {
      if |entries| >= max { return ReadDirPage(entries, false, v.dirgen); }
      entries := entries + [EntryOf(t, names[|entries|])];
    }
    return ReadDirPage(entries, true, v.dirgen);
  }

  datatype DirReply = DirPage(page: ReadDirPage) | NoEnt | NotDir | Incomplete

  datatype PathReply = AtPath(node: NodeKey, attr: Attr) | PathNoEnt | PathNotDir | BadPath

  /** "." and ".." are no names of anything. */
  predicate IsDots(n: Name) {
    n.bytes == [46] || n.bytes == [46, 46]
  }

  /** The first `i` names can be followed, and none is made of dots. */
  ghost predicate Follows(s: Share, path: seq<Name>, i: nat, k: NodeKey)
    requires i <= |path|
  {
    Resolve(s, s.root, path[..i]) == Some(k) && forall j :: 0 <= j < i ==> !IsDots(path[j])
  }

  class ShareReplica {
    const root: NodeKey
    var nodes: map<NodeKey, Node>
    var pending: map<NodeKey, seq<Pending>>
    var nodeCount: int
    var dirCount: int
    var entryCount: int

    /** The replica's value. */
    function Value(): Share
      reads this
    {
      Share(root, nodes, pending, nodeCount, dirCount, entryCount)
    }

    ghost predicate Valid()
      reads this
    {
      TablesWellFormed(Value())
    }

    constructor (root: NodeKey)
      ensures Value() == NewShare(root) && Valid()
    {
      this.root := root;
      nodes, pending, nodeCount, dirCount, entryCount := map[], map[], 0, 0, 0;
    }

    constructor Of(s: Share)
      requires TablesWellFormed(s)
      ensures Value() == s && Valid()
    {
      root := s.root;
      nodes, pending := s.nodes, s.pending;
      nodeCount, dirCount, entryCount := s.nodeCount, s.dirCount, s.entryCount;
    }

    // ---- nodes -----------------------------------------------------------------------------------

    method UpsertNode(key: NodeKey, attr: Attr, parent: NodeKey)
      modifies this
      ensures Value() == Replicas.UpsertNode(old(Value()), key, attr, parent)
    {
      if key in nodes {
        var n := SetAttr(nodes[key], attr).(parent := parent);
        if attr.kind == Dir && n.dir.None? {
          n := n.(dir := Some(EMPTY));
          dirCount := dirCount + 1;
        }
        nodes := nodes[key := n];
      } else {
        var dir := None;
        if attr.kind == Dir {
          dirCount := dirCount + 1;
          dir := Some(EMPTY);
        }
        nodes := nodes[key := Node(attr, parent, 0, dir)];
        nodeCount := nodeCount + 1;
      }
    }

    method UpdateAttr(key: NodeKey, attr: Attr) returns (known: bool)
      modifies this
      ensures known == (key in old(nodes))
      ensures Value() == Replicas.UpdateAttr(old(Value()), key, attr)
    {
      known := key in nodes;
      if known { nodes := nodes[key := SetAttr(nodes[key], attr)]; }
    }

    method UpdateContent(key: NodeKey, version: nat, size: nat, mtime: Ts) returns (known: bool)
      modifies this
      ensures known == (key in old(nodes))
      ensures Value() == Replicas.UpdateContent(old(Value()), key, version, size, mtime)
    {
      known := key in nodes;
      if known {
        var n := nodes[key];
        nodes := nodes[key := n.(attr := n.attr.(size := size, mtime := mtime, contentVersion := version))];
      }
    }

    method StashPending(key: NodeKey, p: Pending)
      modifies this
      ensures Value() == Replicas.StashPending(old(Value()), key, p)
    {
      if |pending| >= MAX_PENDING { pending := map[]; }
      pending := pending[key := (if key in pending then pending[key] else []) + [p]];
    }

    method DrainPending(key: NodeKey)
      modifies this
      ensures Value() == Replicas.DrainPending(old(Value()), key)
    {
      if key !in pending { return; }
      var items := pending[key];
      pending := pending - {key};
      ghost var s := Value();
      var i := 0;
      while i < |items|
        invariant 0 <= i <= |items|
        invariant UpdateAllPending(Value(), key, items[i..]) == UpdateAllPending(s, key, items)
      {
        assert items[i..][1..] == items[i + 1..];
        match items[i] {
          case PendingAttr(a) => var _ := UpdateAttr(key, a);
          case PendingContent(version, size, mtime) => var _ := UpdateContent(key, version, size, mtime);
        }
        i := i + 1;
      }
    }

    method MarkDirComplete(key: NodeKey)
      modifies this
      ensures Value() == Replicas.MarkDirComplete(old(Value()), key)
    {
      if key in nodes && nodes[key].dir.Some? {
        nodes := nodes[key := nodes[key].(dir := Some(nodes[key].dir.value.(complete := true)))];
      }
    }

    // ---- links and collection --------------------------------------------------------------------

    method LinkInc(key: NodeKey)
      modifies this
      ensures Value() == Replicas.LinkInc(old(Value()), key)
    {
      if key in nodes { nodes := nodes[key := nodes[key].(links := nodes[key].links + 1)]; }
    }

    /** Drop one link; at zero the node goes, and with it, link by link, whatever only it named. */
    method LinkDec(key: NodeKey)
      requires Valid()
      modifies this
      ensures Valid() && Value() == Replicas.LinkDec(old(Value()), key)
      decreases |nodes|, 1
    {
      if key !in nodes { return; }
      ghost var s := Value();
      ghost var s1 := Unlinked(s, key);
      var links := nodes[key].links;
      nodes := nodes[key := nodes[key].(links := if links == 0 then 0 else links - 1)];
      assert nodes.Keys == s.nodes.Keys;
      UnlinkedValid(s, key);
      assert |nodes| == |s.nodes|;
      if nodes[key].links == 0 && key != root { RemoveNode(key); }
    }

    method RemoveNode(key: NodeKey)
      requires Valid()
      modifies this
      ensures Valid() && Value() == Replicas.RemoveNode(old(Value()), key)
      decreases |nodes|, 0
    {
      if key !in nodes { return; }
      ghost var s := Value();
      var node := nodes[key];
      nodes := nodes - {key};
      assert nodes.Keys == s.nodes.Keys - {key};
      nodeCount := nodeCount - 1;
      var t := map[];
      if node.dir.Some? {
        dirCount := dirCount - 1;
        t := node.dir.value.table;
      }
      WithoutNodeValid(s, key);
      assert Value() == WithoutNode(s, key);
      var names := InOrder(t);
      ByCookieWithin(t);
      DropLinks(t, names);
    }

    /** What a directory that is gone had named: each name was an entry and held a link. */
    method DropLinks(t: map<Name, Dentry>, names: seq<Name>)
      requires Valid() && forall n :: n in names ==> n in t
      modifies this
      ensures Valid() && Value() == Replicas.DropLinks(old(Value()), t, names)
      decreases |nodes|, |names| + 2
    {
      hide TablesWellFormed, Replicas.LinkDec;
      ghost var s := Value();
      var i := 0;
      while i < |names|
        invariant 0 <= i <= |names|
        invariant Valid() && |nodes| <= |s.nodes|
        invariant Replicas.DropLinks(Value(), t, names[i..]) == Replicas.DropLinks(s, t, names)
      {
        assert names[i..][0] == names[i] && names[i..][1..] == names[i + 1..];
        ghost var s2 := Value();
        entryCount := entryCount - 1;
        CountersKeepTables(s2, Value());
        LinkDec(t[names[i]].node);
        i := i + 1;
      }
      assert names[i..] == [];
    }

    // ---- dentries --------------------------------------------------------------------------------

    method DentrySet(parent: NodeKey, name: Name, node: NodeKey, kind: Kind)
      requires Valid()
      modifies this
      ensures Valid() && Value() == Replicas.DentrySet(old(Value()), parent, name, node, kind)
    {
      hide TablesWellFormed, Replicas.LinkDec;
      ghost var s := Value();
      DentrySetBalanced(s, parent, name, node, kind);
      if parent !in nodes || nodes[parent].dir.None? { return; }
      var (v, u) := Upsert(nodes[parent].dir.value, name, node, kind);
      nodes := nodes[parent := nodes[parent].(dir := Some(v))];
      entryCount := entryCount + u.delta;
      PlacedBalanced(s, parent, name, node, kind);
      if u.gainedLink {
        LinkIncBalanced(Value(), node);
        LinkInc(node);
      }
      if u.displaced.Some? { LinkDec(u.displaced.value); }
    }

    method DentryRelink(parent: NodeKey, name: Name, node: NodeKey, kind: Kind)
      requires Valid()
      modifies this
      ensures Valid() && Value() == Replicas.DentryRelink(old(Value()), parent, name, node, kind)
    {
      hide TablesWellFormed, Replicas.LinkDec;
      ghost var s := Value();
      DentryRelinkBalanced(s, parent, name, node, kind);
      if parent !in nodes || nodes[parent].dir.None? { return; }
      var (v, u) := Upsert(nodes[parent].dir.value, name, node, kind);
      nodes := nodes[parent := nodes[parent].(dir := Some(v))];
      entryCount := entryCount + u.delta;
      PlacedBalanced(s, parent, name, node, kind);
      if u.displaced.Some? { LinkDec(u.displaced.value); }
      if node in nodes { nodes := nodes[node := nodes[node].(parent := parent)]; }
    }

    method DentryRemove(parent: NodeKey, name: Name)
      requires Valid()
      modifies this
      ensures Valid() && Value() == Replicas.DentryRemove(old(Value()), parent, name)
    {
      hide TablesWellFormed, Replicas.LinkDec;
      ghost var s := Value();
      if parent !in nodes || nodes[parent].dir.None? { return; }
      var (v, removed) := Remove(nodes[parent].dir.value, name);
      if removed.None? { return; }
      ClearedBalanced(s, parent, name);
      nodes := nodes[parent := nodes[parent].(dir := Some(v))];
      entryCount := entryCount - 1;
      LinkDec(removed.value);
    }

    method DentryTake(parent: NodeKey, name: Name) returns (taken: Option<(NodeKey, Kind)>)
      requires Valid()
      modifies this
      ensures Valid() && (Value(), taken) == Replicas.DentryTake(old(Value()), parent, name)
    {
      hide TablesWellFormed;
      ghost var s := Value();
      if parent !in nodes || nodes[parent].dir.None? { return None; }
      taken := Get(nodes[parent].dir.value, name);
      if taken.None? { return; }
      ClearedBalanced(s, parent, name);
      nodes := nodes[parent := nodes[parent].(dir := Some(Remove(nodes[parent].dir.value, name).0))];
      entryCount := entryCount - 1;
    }

    // ---- records ---------------------------------------------------------------------------------

    /** A created object: the node, what was waiting for it, then its name. */
    method ApplyCreated(parent: NodeKey, name: Name, node: NodeKey, attr: Option<Attr>)
      requires Valid()
      modifies this
      ensures Valid() && Value() == Replicas.ApplyCreated(old(Value()), parent, name, node, attr)
    {
      hide TablesWellFormed, Replicas.DentrySet, Replicas.DrainPending, Replicas.UpsertNode, Replicas.MarkDirComplete;
      ghost var s := Value();
      IntroduceQuiet(s, parent, node, attr);
      QuietBalanced(s, Introduce(s, parent, node, attr));
      var kind := AttrKind(attr);
      if attr.Some? {
        UpsertNode(node, attr.value, parent);
        DrainPending(node);
      } else if node !in nodes {
        UpsertNode(node, PlaceholderAttr(kind), parent);
      }
      if kind == Dir { MarkDirComplete(node); }
      assert Value() == Introduce(s, parent, node, attr);
      DentrySet(parent, name, node, kind);
    }

    method ForceRemove(key: NodeKey)
      requires Valid() && key in nodes
      modifies this
      ensures Valid() && Value() == Replicas.ForceRemove(old(Value()), key)
    {
      ghost var s := Value();
      ZeroLinks(s, key);
      nodes := nodes[key := nodes[key].(links := 0)];
      RemoveNode(key);
    }

    /** One journal record; true asks for a new snapshot. */
    method ApplyRec(rec: Rec) returns (needsResync: bool)
      requires Valid()
      modifies this
      ensures Valid() && Value() == Replicas.ApplyRec(old(Value()), rec)
      ensures needsResync == NeedsResync(rec)
    {
      hide TablesWellFormed, Replicas.ApplyCreated, Replicas.DentryRemove, Replicas.ForceRemove, Replicas.StashPending;
      ghost var s := Value();
      RecBalanced(s, rec);
      needsResync := false;
      match rec
      case Created(parent, name, node, attr) =>
        ApplyCreated(parent, name, node, attr);
      case CreatedBatch(parent, es) =>
        var i := 0;
        while i < |es|
          invariant 0 <= i <= |es| && Valid() && !needsResync
          invariant ApplyCreatedAll(Value(), parent, es[i..]) == ApplyCreatedAll(s, parent, es)
        {
          assert es[i..][0] == es[i] && es[i..][1..] == es[i + 1..];
          ApplyCreated(parent, es[i].name, es[i].node, Some(es[i].attr));
          i := i + 1;
        }
      case Removed(parent, name) =>
        DentryRemove(parent, name);
      case Renamed(fp, fnm, tp, tnm) =>
        var taken := DentryTake(fp, fnm);
        if taken.Some? { DentryRelink(tp, tnm, taken.value.0, taken.value.1); }
      case AttrChanged(node, attr) =>
        var known := UpdateAttr(node, attr);
        if !known { StashPending(node, PendingAttr(attr)); }
      case Content(node, version, size, mtime) =>
        var known := UpdateContent(node, version, size, mtime);
        if !known { StashPending(node, PendingContent(version, size, mtime)); }
      case SelfRemoved(node) =>
        if node in nodes && node != root { ForceRemove(node); }
      case Overflow =>
        needsResync := true;
      case EchoMarker(_) =>
    }

    method BumpDirAttr(d: NodeKey)
      requires Valid()
      modifies this
      ensures Valid() && Value() == Replicas.BumpDirAttr(old(Value()), d)
    {
      if d in nodes && nodes[d].attr.kind == Dir {
        var a := nodes[d].attr;
        var t := if a.mtime.nsec >= 999_999_999 then Ts(a.mtime.sec + 1, 0) else Ts(a.mtime.sec, a.mtime.nsec + 1);
        NodeEditQuiet(Value(), d, nodes[d].(attr := a.(mtime := t, ctime := t)));
        nodes := nodes[d := nodes[d].(attr := a.(mtime := t, ctime := t))];
      }
    }

    // ---- snapshots -------------------------------------------------------------------------------

    /** One snapshot record.  The attributes of a listed directory always say so. */
    method ApplySnapDir(r: SnapDir)
      requires Valid() && r.dirAttr.kind == Dir
      modifies this
      ensures Valid() && Value() == Replicas.ApplySnapDir(old(Value()), r)
    {
      hide TablesWellFormed, Replicas.UpsertNode;
      ghost var s := Value();
      UpsertNode(r.dir, r.dirAttr, r.parent);
      UpsertEntries(r.dir, r.entries);
      SnapNodesQuiet(s, r);
      QuietBalanced(s, SnapNodes(s, r));
      ghost var s1 := Value();
      assert s1 == SnapNodes(s, r) && HasDir(s1, r.dir);
      SnapFilled(s1, r, r.dir);
      var link, unlink := FillDir(r);
      ghost var s2 := Value();
      LinkIncAllBalanced(s2, link);
      LinkIncAll(link);
      LinkDecAll(unlink);
    }

    method UpsertEntries(parent: NodeKey, es: seq<SnapEntry>)
      modifies this
      ensures Value() == UpsertEntryNodes(old(Value()), parent, es)
    {
      hide Replicas.UpsertNode;
      ghost var s := Value();
      var i := 0;
      while i < |es|
        invariant 0 <= i <= |es|
        invariant UpsertEntryNodes(Value(), parent, es[i..]) == UpsertEntryNodes(s, parent, es)
      {
        assert es[i..][0] == es[i] && es[i..][1..] == es[i + 1..];
        UpsertNode(es[i].node, es[i].attr, parent);
        i := i + 1;
      }
    }

    /** The dentries of one record; link changes are only noted. */
    method FillDir(r: SnapDir) returns (link: seq<NodeKey>, unlink: seq<NodeKey>)
      requires HasDir(Value(), r.dir)
      modifies this
      ensures var l := SnapListed(old(Value()), r);
              Value() == Replicas.FillDir(old(Value()), r.dir, l, r.last) && link == l.link && unlink == l.unlink
    {
      var v := nodes[r.dir].dir.value;
      ghost var l := Listed(v, 0, [], []);
      ghost var e0 := entryCount;
      link, unlink := [], [];
      var i := 0;
      while i < |r.entries|
        invariant 0 <= i <= |r.entries|
        invariant nodes == old(nodes) && pending == old(pending) && nodeCount == old(nodeCount)
        invariant dirCount == old(dirCount)
        invariant ListEntries(Listed(v, entryCount - e0, link, unlink), r.entries[i..]) == ListEntries(l, r.entries)
      {
        assert r.entries[i..][0] == r.entries[i] && r.entries[i..][1..] == r.entries[i + 1..];
        var e := r.entries[i];
        var (v', u) := Upsert(v, e.name, e.node, e.attr.kind);
        v := v';
        entryCount := entryCount + u.delta;
        if u.gainedLink { link := link + [e.node]; }
        if u.displaced.Some? { unlink := unlink + [u.displaced.value]; }
        i := i + 1;
      }
      if r.last { v := v.(complete := true); }
      nodes := nodes[r.dir := nodes[r.dir].(dir := Some(v))];
    }

    method LinkIncAll(ks: seq<NodeKey>)
      modifies this
      ensures Value() == Replicas.LinkIncAll(old(Value()), ks)
    {
      hide Replicas.LinkInc;
      ghost var s := Value();
      var i := 0;
      while i < |ks|
        invariant 0 <= i <= |ks|
        invariant Replicas.LinkIncAll(Value(), ks[i..]) == Replicas.LinkIncAll(s, ks)
      {
        assert ks[i..][0] == ks[i] && ks[i..][1..] == ks[i + 1..];
        LinkInc(ks[i]);
        i := i + 1;
      }
    }

    method LinkDecAll(ks: seq<NodeKey>)
      requires Valid()
      modifies this
      ensures Valid() && Value() == Replicas.LinkDecAll(old(Value()), ks)
    {
      hide TablesWellFormed, Replicas.LinkDec;
      ghost var s := Value();
      var i := 0;
      while i < |ks|
        invariant 0 <= i <= |ks| && Valid()
        invariant Replicas.LinkDecAll(Value(), ks[i..]) == Replicas.LinkDecAll(s, ks)
      {
        assert ks[i..][0] == ks[i] && ks[i..][1..] == ks[i + 1..];
        LinkDec(ks[i]);
        i := i + 1;
      }
    }

    /** Counts the entries afresh.  On a replica whose counters are exact this changes nothing. */
    method FinishSnapshot()
      modifies this`entryCount
      ensures entryCount == |Edges(Value())|
      ensures old(Counted(Value())) ==> Value() == old(Value())
    {
      ghost var s := Value();
      var left, total := nodes.Keys, 0;
      ghost var counted: set<NodeKey> := {};
      assert EdgesFrom(s, {}) == {};
      while left != {}
        invariant left + counted == nodes.Keys && left !! counted
        invariant total == |EdgesFrom(s, counted)|
        decreases |left|
      {
        var d :| d in left;
        EdgesFromOne(s, counted, d);
        if nodes[d].dir.Some? { total := total + |nodes[d].dir.value.table|; }
        left, counted := left - {d}, counted + {d};
      }
      assert EdgesFrom(s, counted) == Edges(s);
      entryCount := total;
      EdgesIgnoreCounters(s, total);
    }

    // ---- reads ---------------------------------------------------------------------------------

    /** A page of a directory; one not yet listed in full is not served. */
    method ReadDir(dir: NodeKey, cookie: nat, max: nat) returns (r: DirReply)
      requires Valid()
      ensures dir !in nodes ==> r == NoEnt
      ensures dir in nodes && nodes[dir].dir.None? ==> r == NotDir
      ensures HasDir(Value(), dir) && !nodes[dir].dir.value.complete ==> r == Incomplete
      ensures HasDir(Value(), dir) && nodes[dir].dir.value.complete ==>
                WellFormed(nodes[dir].dir.value) && r == DirPage(Page(nodes[dir].dir.value, cookie, max))
    {
      if dir !in nodes { return NoEnt; }
      if nodes[dir].dir.None? { return NotDir; }
      var v := nodes[dir].dir.value;
      assert HasDir(Value(), dir);
      if !v.complete { return Incomplete; }
      var page := PageOf(v, cookie, max);
      return DirPage(page);
    }

    // ---- path lookup -----------------------------------------------------------------------------

    /** A path from the root.  It is refused where a name of dots turns up, and fails where a name is looked up
        in something that is no directory, or is not there. */
    method ResolvePath(path: seq<Name>) returns (r: PathReply)
      ensures r.AtPath? <==> Resolve(Value(), root, path).Some? && forall j :: 0 <= j < |path| ==> !IsDots(path[j])
      ensures r.AtPath? ==>
                Resolve(Value(), root, path) == Some(r.node) && r.node in nodes && r.attr == nodes[r.node].attr
      ensures r == BadPath ==> exists i: nat, k :: i < |path| && Follows(Value(), path, i, k) && IsDots(path[i])
      ensures r == PathNotDir ==>
                exists i: nat, k ::
                  i < |path| && Follows(Value(), path, i, k) && !IsDots(path[i]) && !HasDir(Value(), k)
      ensures r == PathNoEnt ==>
                root !in nodes ||
                exists i: nat, k :: i < |path| && Follows(Value(), path, i, k) && !IsDots(path[i]) && HasDir(Value(), k)
                                    && Resolve(Value(), root, path[..i + 1]) == None
    {
      hide Table, HasDir;
      var cur := root;
      if cur !in nodes {
        ResolveMissing(Value(), cur, path);
        return PathNoEnt;
      }
      var i := 0;
      while i < |path|
        invariant 0 <= i <= |path| && cur in nodes && Follows(Value(), path, i, cur)
      {
        if IsDots(path[i]) { return BadPath; }
        ResolveOn(Value(), path, i, cur);
        if nodes[cur].dir.None? {
          assert !HasDir(Value(), cur) by { NoDir(Value(), cur); }
          return PathNotDir;
        }
        assert HasDir(Value(), cur) by { IsDir(Value(), cur); }
        var next := Lookup(Value(), cur, path[i]);
        if next.None? || next.value !in nodes { return PathNoEnt; }
        cur := next.value;
        i := i + 1;
      }
      assert path[..i] == path;
      return AtPath(cur, nodes[cur].attr);
    }
  }

  lemma NoDir(s: Share, k: NodeKey)
    requires k in s.nodes && s.nodes[k].dir.None?
    ensures !HasDir(s, k)
  {}

  lemma IsDir(s: Share, k: NodeKey)
    requires k in s.nodes && s.nodes[k].dir.Some?
    ensures HasDir(s, k)
  {}

  lemma {:induction false} ResolveSplit(s: Share, from: NodeKey, a: seq<Name>, b: seq<Name>)
    ensures Resolve(s, from, a + b)
         == match Resolve(s, from, a) case None => None case Some(k) => Resolve(s, k, b)
    decreases |a|
  {
    hide Table;
    if a == [] {
      assert a + b == b;
      if from !in s.nodes { ResolveMissing(s, from, b); }
    } else {
      assert (a + b)[0] == a[0] && (a + b)[1..] == a[1..] + b;
      var k := Lookup(s, from, a[0]);
      if k.Some? { ResolveSplit(s, k.value, a[1..], b); }
    }
  }

  /** One more name; and if it leads nowhere, neither does the path. */
  lemma ResolveOn(s: Share, path: seq<Name>, i: nat, k: NodeKey)
    requires i < |path| && Resolve(s, s.root, path[..i]) == Some(k)
    ensures var next := Lookup(s, k, path[i]);
            && Resolve(s, s.root, path[..i + 1]) == (if next.Some? && next.value in s.nodes then next else None)
            && (Resolve(s, s.root, path[..i + 1]) == None ==> Resolve(s, s.root, path) == None)
            && (!HasDir(s, k) ==> next == None)
  {
    ResolveSplit(s, s.root, path[..i], [path[i]]);
    assert path[..i] + [path[i]] == path[..i + 1];
    assert [path[i]][1..] == [];
    ResolveSplit(s, s.root, path[..i + 1], path[i + 1..]);
    assert path[..i + 1] + path[i + 1..] == path;
  }

  /** A path from a node that is not there leads nowhere. */
  lemma ResolveMissing(s: Share, from: NodeKey, path: seq<Name>)
    requires from !in s.nodes
    ensures Resolve(s, from, path) == None
  {}

  ghost function EdgesFrom(s: Share, ds: set<NodeKey>): set<Edge> {
    set e | e in Edges(s) && e.dir in ds
  }

  lemma EdgesFromSplit(s: Share, ds: set<NodeKey>, d: NodeKey)
    requires d in s.nodes && d !in ds
    ensures EdgesFrom(s, ds + {d}) == EdgesFrom(s, ds) + EdgesOf(d, Table(s, d))
    ensures EdgesFrom(s, ds) !! EdgesOf(d, Table(s, d))
  {
    forall e ensures e in EdgesFrom(s, ds + {d}) <==> e in EdgesFrom(s, ds) || e in EdgesOf(d, Table(s, d)) {
      EdgesAre(s);
    }
  }

  lemma EdgesFromOne(s: Share, ds: set<NodeKey>, d: NodeKey)
    requires d in s.nodes && d !in ds
    ensures |EdgesFrom(s, ds + {d})| == |EdgesFrom(s, ds)| + |Table(s, d)|
  {
    EdgesFromSplit(s, ds, d);
    hide EdgesFrom, EdgesOf, Table;
    EdgesOfSize(d, Table(s, d));
  }

  lemma UnlinkedValid(s: Share, key: NodeKey)
    requires TablesWellFormed(s) && key in s.nodes
    ensures TablesWellFormed(Unlinked(s, key))
  {
    forall d | HasDir(Unlinked(s, key), d) ensures WellFormed(Unlinked(s, key).nodes[d].dir.value) {
      assert HasDir(s, d);
    }
  }

  lemma WithoutNodeValid(s: Share, key: NodeKey)
    requires TablesWellFormed(s) && key in s.nodes
    ensures TablesWellFormed(WithoutNode(s, key)) && DistinctCookies(Table(s, key))
  {
    forall d | HasDir(WithoutNode(s, key), d) ensures WellFormed(WithoutNode(s, key).nodes[d].dir.value) {
      assert HasDir(s, d);
    }
    if HasDir(s, key) { assert WellFormed(s.nodes[key].dir.value); }
  }
}
