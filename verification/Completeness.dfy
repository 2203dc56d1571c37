/** What may be called complete, and how much may wait: a directory is served only once its whole listing is in. */
module Completeness {
  import opened Types
  import opened DirViews
  import opened Replicas
  import opened ReplicaRuns

  /** Clients are shown this directory. */
  ghost predicate Full(s: Share, d: NodeKey) {
    HasDir(s, d) && s.nodes[d].dir.value.complete
  }

  /** No directory becomes complete, and nothing more waits. */
  ghost predicate Calm(s: Share, s': Share) {
    && s'.pending.Keys <= s.pending.Keys
    && forall d :: Full(s', d) ==> Full(s, d)
  }

  lemma CalmThen(s: Share, s1: Share, s2: Share)
    requires Calm(s, s1) && Calm(s1, s2)
    ensures Calm(s, s2)
  {}

  lemma UpsertNodeCalm(s: Share, key: NodeKey, attr: Attr, parent: NodeKey)
    ensures Calm(s, UpsertNode(s, key, attr, parent))
  {}

  lemma {:induction false} UpdatesCalm(s: Share, key: NodeKey, ps: seq<Pending>)
    ensures Calm(s, UpdateAllPending(s, key, ps))
    decreases |ps|
  {
    if ps != [] { UpdatesCalm(UpdatePending(s, key, ps[0]), key, ps[1..]); }
  }

  lemma DrainCalm(s: Share, key: NodeKey)
    ensures Calm(s, DrainPending(s, key))
  {
    if key in s.pending {
      var s1 := s.(pending := s.pending - {key});
      assert Calm(s, s1);
      UpdatesCalm(s1, key, s.pending[key]);
      CalmThen(s, s1, DrainPending(s, key));
    }
  }

  lemma {:induction false} LinkDecCalm(s: Share, key: NodeKey)
    ensures Calm(s, LinkDec(s, key))
    decreases |s.nodes|, 1
  {
    if key in s.nodes {
      var s1 := Unlinked(s, key);
      assert s1.nodes.Keys == s.nodes.Keys && Calm(s, s1);
      hide Calm;
      if s1.nodes[key].links == 0 && key != s.root {
        RemoveNodeCalm(s1, key);
        CalmThen(s, s1, RemoveNode(s1, key));
      }
    } else {
      CalmNothing(s);
    }
  }

  lemma CalmNothing(s: Share)
    ensures Calm(s, s)
  {}

  lemma {:induction false} RemoveNodeCalm(s: Share, key: NodeKey)
    ensures Calm(s, RemoveNode(s, key))
    decreases |s.nodes|, 0
  {
    if key in s.nodes {
      var s1, t := WithoutNode(s, key), Table(s, key);
      assert s1.nodes.Keys == s.nodes.Keys - {key} && Calm(s, s1);
      ByCookieWithin(t);
      hide Calm;
      DropLinksCalm(s1, t, ByCookie(t));
      CalmThen(s, s1, RemoveNode(s, key));
    }
  }

  lemma {:induction false} DropLinksCalm(s: Share, t: map<Name, Dentry>, names: seq<Name>)
    requires forall n :: n in names ==> n in t
    ensures Calm(s, DropLinks(s, t, names))
    decreases |s.nodes|, |names| + 2
  {
    if names == [] {
      CalmNothing(s);
    } else {
      var s1 := s.(entryCount := s.entryCount - 1);
      assert Calm(s, s1);
      hide Calm;
      var s2 := LinkDec(s1, t[names[0]].node);
      LinkDecCalm(s1, t[names[0]].node);
      CalmThen(s, s1, s2);
      DropLinksCalm(s2, t, names[1..]);
      CalmThen(s, s2, DropLinks(s, t, names));
    }
  }

  lemma DropDisplacedCalm(s: Share, displaced: Option<NodeKey>)
    ensures Calm(s, DropDisplaced(s, displaced))
  {
    hide LinkDec;
    if displaced.Some? { LinkDecCalm(s, displaced.value); }
  }

  lemma SetDirCalm(s: Share, d: NodeKey, v: DirView, n: int)
    requires HasDir(s, d) && (v.complete ==> s.nodes[d].dir.value.complete)
    ensures Calm(s, SetDir(s, d, v).(entryCount := n))
  {}

  lemma DentrySetCalm(s: Share, parent: NodeKey, name: Name, node: NodeKey, kind: Kind)
    ensures Calm(s, DentrySet(s, parent, name, node, kind))
  {
    hide Calm, DropDisplaced;
    if HasDir(s, parent) {
      var (v, u) := Upsert(s.nodes[parent].dir.value, name, node, kind);
      var s1 := SetDir(s, parent, v).(entryCount := s.entryCount + u.delta);
      SetDirCalm(s, parent, v, s.entryCount + u.delta);
      var s2 := if u.gainedLink then LinkInc(s1, node) else s1;
      LinkIncCalm(s1, node);
      CalmNothing(s1);
      CalmThen(s, s1, s2);
      DropDisplacedCalm(s2, u.displaced);
      CalmThen(s, s2, DropDisplaced(s2, u.displaced));
    } else {
      CalmNothing(s);
    }
  }

  lemma LinkIncCalm(s: Share, key: NodeKey)
    ensures Calm(s, LinkInc(s, key))
  {}

  lemma DentryRemoveCalm(s: Share, parent: NodeKey, name: Name)
    ensures Calm(s, DentryRemove(s, parent, name))
  {
    hide Calm, LinkDec;
    if name in Table(s, parent) {
      var v := Remove(s.nodes[parent].dir.value, name).0;
      var s1 := SetDir(s, parent, v).(entryCount := s.entryCount - 1);
      SetDirCalm(s, parent, v, s.entryCount - 1);
      LinkDecCalm(s1, Table(s, parent)[name].node);
      CalmThen(s, s1, DentryRemove(s, parent, name));
    } else {
      CalmNothing(s);
    }
  }

  lemma RenamedCalm(s: Share, fp: NodeKey, fnm: Name, tp: NodeKey, tnm: Name)
    ensures Calm(s, ApplyRenamed(s, fp, fnm, tp, tnm))
  {
    hide Calm, DentryRelink;
    if fnm in Table(s, fp) {
      var v := s.nodes[fp].dir.value;
      SetDirCalm(s, fp, Remove(v, fnm).0, s.entryCount - 1);
      var (s1, moved) := DentryTake(s, fp, fnm);
      RelinkCalm(s1, tp, tnm, moved.value.0, moved.value.1);
      CalmThen(s, s1, ApplyRenamed(s, fp, fnm, tp, tnm));
    } else {
      CalmNothing(s);
    }
  }

  lemma RelinkCalm(s: Share, parent: NodeKey, name: Name, node: NodeKey, kind: Kind)
    ensures Calm(s, DentryRelink(s, parent, name, node, kind))
  {
    hide Calm, DropDisplaced;
    if HasDir(s, parent) {
      var (v, u) := Upsert(s.nodes[parent].dir.value, name, node, kind);
      var s1 := SetDir(s, parent, v).(entryCount := s.entryCount + u.delta);
      SetDirCalm(s, parent, v, s.entryCount + u.delta);
      var s2 := DropDisplaced(s1, u.displaced);
      DropDisplacedCalm(s1, u.displaced);
      CalmThen(s, s1, s2);
      SetParentCalm(s2, node, parent);
      CalmThen(s, s2, SetParent(s2, node, parent));
    } else {
      CalmNothing(s);
    }
  }

  lemma SetParentCalm(s: Share, key: NodeKey, parent: NodeKey)
    ensures Calm(s, SetParent(s, key, parent))
  {}

  // ---- what makes a directory complete ---------------------------------------------------------------

  /** Calm but for this directory. */
  ghost predicate CalmBut(s: Share, s': Share, but: NodeKey) {
    && s'.pending.Keys <= s.pending.Keys
    && forall d :: Full(s', d) ==> Full(s, d) || d == but
  }

  lemma MarkCalmBut(s: Share, key: NodeKey)
    ensures CalmBut(s, MarkDirComplete(s, key), key)
  {}

  lemma ButThen(s: Share, s1: Share, s2: Share, but: NodeKey)
    requires Calm(s, s1) && (CalmBut(s1, s2, but) || Calm(s1, s2))
    ensures CalmBut(s, s2, but)
  {}

  lemma ThenBut(s: Share, s1: Share, s2: Share, but: NodeKey)
    requires CalmBut(s, s1, but) && Calm(s1, s2)
    ensures CalmBut(s, s2, but)
  {}

  /** A new directory is complete from the start: whatever is put into it will be told. */
  lemma IntroduceCalm(s: Share, parent: NodeKey, node: NodeKey, attr: Option<Attr>)
    ensures if AttrKind(attr) == Dir then CalmBut(s, Introduce(s, parent, node, attr), node)
            else Calm(s, Introduce(s, parent, node, attr))
  {
    hide Calm, CalmBut, DrainPending, UpsertNode, MarkDirComplete;
    CalmNothing(s);
    var s0 := UpsertNode(s, node, if attr.Some? then attr.value else PlaceholderAttr(Reg), parent);
    UpsertNodeCalm(s, node, if attr.Some? then attr.value else PlaceholderAttr(Reg), parent);
    DrainCalm(s0, node);
    CalmThen(s, s0, DrainPending(s0, node));
    if AttrKind(attr) == Dir {
      var s1 := DrainPending(s0, node);
      MarkCalmBut(s1, node);
      ButThen(s, s1, MarkDirComplete(s1, node), node);
    }
  }

  lemma CreatedCalm(s: Share, parent: NodeKey, name: Name, node: NodeKey, attr: Option<Attr>)
    ensures if AttrKind(attr) == Dir then CalmBut(s, ApplyCreated(s, parent, name, node, attr), node)
            else Calm(s, ApplyCreated(s, parent, name, node, attr))
  {
    hide Calm, CalmBut, DentrySet, Introduce;
    var s1 := Introduce(s, parent, node, attr);
    IntroduceCalm(s, parent, node, attr);
    DentrySetCalm(s1, parent, name, node, AttrKind(attr));
    var s2 := ApplyCreated(s, parent, name, node, attr);
    if AttrKind(attr) == Dir { ThenBut(s, s1, s2, node); } else { CalmThen(s, s1, s2); }
  }

  ghost predicate ListsDir(es: seq<SnapEntry>, d: NodeKey) {
    exists i :: 0 <= i < |es| && es[i].node == d && es[i].attr.kind == Dir
  }

  lemma ListsDirSplit(es: seq<SnapEntry>, d: NodeKey)
    requires es != []
    ensures ListsDir(es, d) <==> (es[0].node == d && es[0].attr.kind == Dir) || ListsDir(es[1..], d)
  {
    if i :| 0 <= i < |es[1..]| && es[1..][i].node == d && es[1..][i].attr.kind == Dir { assert es[i + 1].node == d; }
    if i :| 1 <= i < |es| && es[i].node == d && es[i].attr.kind == Dir { assert es[1..][i - 1].node == d; }
  }

  lemma {:induction false} CreatedAllCompletes(s: Share, parent: NodeKey, es: seq<SnapEntry>, d: NodeKey)
    ensures ApplyCreatedAll(s, parent, es).pending.Keys <= s.pending.Keys
    ensures Full(ApplyCreatedAll(s, parent, es), d) ==> Full(s, d) || ListsDir(es, d)
    decreases |es|
  {
    hide ApplyCreated, ListsDir, Full;
    if es != [] {
      var e := es[0];
      CreatedCalm(s, parent, e.name, e.node, Some(e.attr));
      CreatedAllCompletes(ApplyCreated(s, parent, e.name, e.node, Some(e.attr)), parent, es[1..], d);
      ListsDirSplit(es, d);
    }
  }

  /** What a record of a directory's life makes complete: the last piece of its listing, or its creation. */
  ghost predicate Completes(step: Step, d: NodeKey) {
    match step
    case Snap(r) => r.dir == d && r.last
    case Journal(Created(_, _, node, attr)) => node == d && AttrKind(attr) == Dir
    case Journal(CreatedBatch(_, es)) => ListsDir(es, d)
    case Journal(_) => false
  }

  lemma ForceRemoveCalm(s: Share, key: NodeKey)
    requires key in s.nodes
    ensures Calm(s, ForceRemove(s, key))
  {
    var s1 := s.(nodes := s.nodes[key := s.nodes[key].(links := 0)]);
    assert Calm(s, s1);
    hide Calm, RemoveNode;
    RemoveNodeCalm(s1, key);
    CalmThen(s, s1, RemoveNode(s1, key));
  }

  lemma RecCompletes(s: Share, rec: Rec, d: NodeKey)
    requires !rec.AttrChanged? && !rec.Content?
    ensures ApplyRec(s, rec).pending.Keys <= s.pending.Keys
    ensures Full(ApplyRec(s, rec), d) ==> Full(s, d) || Completes(Journal(rec), d)
  {
    hide ApplyCreated, ApplyCreatedAll, DentryRemove, ApplyRenamed, ForceRemove, Full, ListsDir;
    match rec
    case Created(parent, name, node, attr) => CreatedCalm(s, parent, name, node, attr);
    case CreatedBatch(parent, es) => CreatedAllCompletes(s, parent, es, d);
    case Removed(parent, name) => DentryRemoveCalm(s, parent, name);
    case Renamed(fp, fnm, tp, tnm) => RenamedCalm(s, fp, fnm, tp, tnm);
    case SelfRemoved(node) => if node in s.nodes { ForceRemoveCalm(s, node); }
    case _ =>
  }

  // ---- snapshot records --------------------------------------------------------------------------------

  lemma {:induction false} EntriesCalm(s: Share, parent: NodeKey, es: seq<SnapEntry>)
    ensures Calm(s, UpsertEntryNodes(s, parent, es))
    decreases |es|
  {
    hide Calm, UpsertNode;
    if es == [] {
      CalmNothing(s);
    } else {
      UpsertNodeCalm(s, es[0].node, es[0].attr, parent);
      EntriesCalm(UpsertNode(s, es[0].node, es[0].attr, parent), parent, es[1..]);
      CalmThen(s, UpsertNode(s, es[0].node, es[0].attr, parent), UpsertEntryNodes(s, parent, es));
    }
  }

  lemma {:induction false} LinkIncAllCalm(s: Share, ks: seq<NodeKey>)
    ensures Calm(s, LinkIncAll(s, ks))
    decreases |ks|
  {
    if ks != [] { LinkIncAllCalm(LinkInc(s, ks[0]), ks[1..]); }
  }

  lemma {:induction false} LinkDecAllCalm(s: Share, ks: seq<NodeKey>)
    ensures Calm(s, LinkDecAll(s, ks))
    decreases |ks|
  {
    hide Calm, LinkDec;
    if ks == [] {
      CalmNothing(s);
    } else {
      LinkDecCalm(s, ks[0]);
      LinkDecAllCalm(LinkDec(s, ks[0]), ks[1..]);
      CalmThen(s, LinkDec(s, ks[0]), LinkDecAll(s, ks));
    }
  }

  lemma {:induction false} ListEntriesCalm(l: Listed, es: seq<SnapEntry>)
    ensures ListEntries(l, es).view.complete == l.view.complete
    decreases |es|
  {
    if es != [] { ListEntriesCalm(ListEntry(l, es[0]), es[1..]); }
  }

  lemma FillCalm(s: Share, d: NodeKey, l: Listed, last: bool)
    requires HasDir(s, d) && l.view.complete == s.nodes[d].dir.value.complete
    ensures if last then CalmBut(s, FillDir(s, d, l, last), d) else Calm(s, FillDir(s, d, l, last))
  {}

  lemma SnapCompletes(s: Share, r: SnapDir, d: NodeKey)
    requires r.dirAttr.kind == Dir
    ensures ApplySnapDir(s, r).pending.Keys <= s.pending.Keys
    ensures Full(ApplySnapDir(s, r), d) ==> Full(s, d) || Completes(Snap(r), d)
  {
    hide Calm, CalmBut, UpsertNode, UpsertEntryNodes, ListEntries, FillDir, LinkIncAll, LinkDecAll;
    var s0 := UpsertNode(s, r.dir, r.dirAttr, r.parent);
    UpsertNodeCalm(s, r.dir, r.dirAttr, r.parent);
    assert HasDir(s0, r.dir) by { UpsertNodeDir(s, r.dir, r.dirAttr, r.parent); }
    UpsertsKeepDir(s0, r.dir, r.entries, r.dir);
    var s1 := UpsertEntryNodes(s0, r.dir, r.entries);
    EntriesCalm(s0, r.dir, r.entries);
    CalmThen(s, s0, s1);
    var l0 := Listed(s1.nodes[r.dir].dir.value, 0, [], []);
    var l := ListEntries(l0, r.entries);
    ListEntriesCalm(l0, r.entries);
    var s2 := FillDir(s1, r.dir, l, r.last);
    FillCalm(s1, r.dir, l, r.last);
    ButThen(s, s1, s2, r.dir);
    if !r.last { CalmThen(s, s1, s2); }
    var s3 := LinkIncAll(s2, l.link);
    LinkIncAllCalm(s2, l.link);
    LinkDecAllCalm(s3, l.unlink);
    CalmThen(s2, s3, LinkDecAll(s3, l.unlink));
    assert ApplySnapDir(s, r) == LinkDecAll(s3, l.unlink);
    SnapEnd(s, s2, ApplySnapDir(s, r), r, d);
  }

  lemma UpsertNodeDir(s: Share, key: NodeKey, attr: Attr, parent: NodeKey)
    requires attr.kind == Dir
    ensures HasDir(UpsertNode(s, key, attr, parent), key)
  {}

  lemma SnapEnd(s: Share, s2: Share, s': Share, r: SnapDir, d: NodeKey)
    requires CalmBut(s, s2, r.dir) && (!r.last ==> Calm(s, s2)) && Calm(s2, s')
    ensures s'.pending.Keys <= s.pending.Keys && (Full(s', d) ==> Full(s, d) || Completes(Snap(r), d))
  {}

  // ---- over every run ------------------------------------------------------------------------------------

  /** At most so many objects have records waiting for them. */
  ghost predicate FewWait(s: Share) {
    |s.pending| <= 65536
  }

  lemma StashFew(s: Share, key: NodeKey, p: Pending)
    requires FewWait(s)
    ensures FewWait(StashPending(s, key, p))
  {
    var pend := if |s.pending| >= MAX_PENDING then map[] else s.pending;
    assert StashPending(s, key, p).pending.Keys == pend.Keys + {key};
  }

  lemma StepCompletes(s: Share, step: Step, d: NodeKey)
    requires step.Snap? ==> step.dir.dirAttr.kind == Dir
    ensures Full(Do(s, step), d) ==> Full(s, d) || Completes(step, d)
    ensures FewWait(s) ==> FewWait(Do(s, step))
  {
    hide ApplySnapDir, StashPending;
    match step
    case Snap(r) =>
      SnapCompletes(s, r, d);
      FewerKeys(s.pending.Keys, Do(s, step).pending.Keys);
    case Journal(rec) =>
      if rec.AttrChanged? || rec.Content? {
        UpdateCompletes(s, rec, d);
      } else {
        RecCompletes(s, rec, d);
        FewerKeys(s.pending.Keys, Do(s, step).pending.Keys);
      }
  }

  lemma UpdateCompletes(s: Share, rec: Rec, d: NodeKey)
    requires rec.AttrChanged? || rec.Content?
    ensures Full(ApplyRec(s, rec), d) ==> Full(s, d)
    ensures FewWait(s) ==> FewWait(ApplyRec(s, rec))
  {
    if FewWait(s) {
      match rec
      case AttrChanged(node, attr) => StashFew(s, node, PendingAttr(attr));
      case Content(node, version, size, mtime) => StashFew(s, node, PendingContent(version, size, mtime));
    }
  }

  /** Whatever arrives, in whatever order: a directory is shown as complete only if it was before, or the last piece
      of its listing or its creation is among the records.  And never do more than 65536 objects have records waiting
      for them. */
  lemma {:induction false} CompleteOnlyIfListed(s: Share, steps: seq<Step>, d: NodeKey)
    requires Decoded(steps)
    ensures Full(ReplicaRuns.Run(s, steps), d) ==> Full(s, d) || exists i :: 0 <= i < |steps| && Completes(steps[i], d)
    ensures FewWait(s) ==> FewWait(ReplicaRuns.Run(s, steps))
    decreases |steps|
  {
    hide Full, Completes, Do, FewWait;
    if steps != [] {
      StepCompletes(s, steps[0], d);
      var rest := steps[1..];
      CompleteOnlyIfListed(Do(s, steps[0]), rest, d);
      if i :| 0 <= i < |rest| && Completes(rest[i], d) { assert Completes(steps[i + 1], d); }
    }
  }
}
