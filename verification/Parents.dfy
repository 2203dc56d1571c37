/** Where the replica says each directory is: `..` of a directory leads to the directory that lists it. */
module NodeParents {
  import opened Types
  import opened DirViews
  import opened Replicas
  import opened Collection
  import opened ReplicaInvariants
  import opened ReplicaRuns
  import opened FileTrees
  import opened Refinement
  import opened Attributes
  import opened GuestPaths
  import opened Seeding

  // ---- along a history -----------------------------------------------------------------------------

  ghost predicate NamesNode(fs: Fs, d: NodeKey, k: NodeKey) {
    exists n :: Entry(fs.dirs, d, n) == Some(k)
  }

  /** The parent of a directory names it. */
  ghost predicate ParentsRight(fs: Fs, s: Share) {
    forall k :: k in fs.dirs && k != fs.root && k in s.nodes ==> NamesNode(fs, s.nodes[k].parent, k)
  }

  /** A directory other than the root has a name. */
  lemma HasName(fs: Fs, k: NodeKey) returns (d: NodeKey, n: Name)
    requires WellShaped(fs) && k in fs.dirs && k != fs.root
    ensures Entry(fs.dirs, d, n) == Some(k)
  {
    assert Reachable(fs, k);
    var path :| Walk(fs.dirs, fs.root, path) == Some(k);
    d := LastStep(fs.dirs, fs.root, path, k);
    n := path[|path| - 1];
  }

  /** What a call leaves of the names there were. */
  lemma OldName(fs: Fs, op: Op, d: NodeKey, n: Name)
    requires Sound(fs) && Legal(fs, op) && Entry(FileTrees.Apply(fs, op).dirs, d, n).Some?
    ensures var fs' := FileTrees.Apply(fs, op);
            || Entry(fs'.dirs, d, n) == Entry(fs.dirs, d, n)
            || ((op.Make? || op.Link?) && (d, n) == (op.parent, op.name) && Entry(fs'.dirs, d, n) == Some(op.node))
            || (op.Move? && (d, n) == (op.toParent, op.toName)
                && Entry(fs'.dirs, d, n) == Entry(fs.dirs, op.fromParent, op.fromName))
  {}

  /** A directory that a call neither makes nor moves is still under the one name it had. */
  lemma StaysNamed(fs: Fs, op: Op, p: NodeKey, k: NodeKey)
    requires WellShaped(fs) && DirsNamedOnce(fs) && Legal(fs, op) && WellShaped(FileTrees.Apply(fs, op))
    requires NamesNode(fs, p, k) && k in fs.dirs
    requires k in FileTrees.Apply(fs, op).dirs && k != FileTrees.Apply(fs, op).root
    requires op.Move? ==> Entry(fs.dirs, op.fromParent, op.fromName) != Some(k)
    ensures NamesNode(FileTrees.Apply(fs, op), p, k)
  {
    var fs' := FileTrees.Apply(fs, op);
    var d, n := HasName(fs', k);
    OldName(fs, op, d, n);
    var m :| Entry(fs.dirs, p, m) == Some(k);
    assert Sound(fs) && (op.Make? ==> op.node !in fs.kinds) && (op.Link? ==> op.node !in fs.dirs);
    hide FileTrees.Apply, WellShaped, Legal;
    assert NamesDir(fs, p, m);
  }

  /** How one call changes parents in a replica that is up to date. */
  lemma StepParents(fs: Fs, s: Share, op: Op)
    requires WellShaped(fs) && Refines(fs, s) && Legal(fs, op)
    ensures var s' := ApplyRec(s, RecOf(op));
            forall k :: k in s'.nodes ==>
              if (op.Make? || op.Link?) && k == op.node then s'.nodes[k].parent == op.parent
              else && k in s.nodes
                   && s'.nodes[k].parent == if op.Move? && k == fs.dirs[op.fromParent][op.fromName] then op.toParent
                                            else s.nodes[k].parent
  {
    hide Connected, Ranked, ApplyCreated, DentryRemove, ApplyRenamed, Below, Exact, TablesWellFormed, Mirrors, Sound;
    match op
    case Make(p, n, k, a) => CreatedParents(s, p, n, k, a);
    case Link(p, n, k, a) => CreatedParents(s, p, n, k, a);
    case Unlink(p, n) => DentryRemoveAttrs(s, p, n);
    case Move(fp, fnm, tp, tnm) =>
      MoveKnown(fs, s, fp, fnm, tp);
      RenamedParents(s, fp, fnm, tp, tnm);
    case Write(k, version, size, mtime) => KnownNode(fs, s, k);
    case Chmod(k, a) => KnownNode(fs, s, k);
  }

  /** The replica knows what a move moves, and where to. */
  lemma MoveKnown(fs: Fs, s: Share, fp: NodeKey, fnm: Name, tp: NodeKey)
    requires Sound(fs) && Mirrors(fs, s) && fp in fs.dirs && fnm in fs.dirs[fp] && tp in fs.dirs
    ensures fnm in Table(s, fp) && Table(s, fp)[fnm].node == fs.dirs[fp][fnm] && HasDir(s, tp)
  {
    assert Slot(s, fp, fnm) == FsSlot(fs, fp, fnm);
  }

  lemma CreatedParents(s: Share, parent: NodeKey, name: Name, node: NodeKey, a: Attr)
    requires TablesWellFormed(s) && s.pending == map[]
    ensures var s' := ApplyCreated(s, parent, name, node, Some(a));
            forall k :: k in s'.nodes ==>
              if k == node then s'.nodes[k].parent == parent
              else k in s.nodes && s'.nodes[k].parent == s.nodes[k].parent
  {
    hide Introduce, DentrySet, TablesWellFormed, Quiet;
    var s1 := Introduce(s, parent, node, Some(a));
    IntroduceAttrs(s, parent, node, a);
    IntroduceQuiet(s, parent, node, Some(a));
    QuietBalanced(s, s1);
    BalancedTables(s, s1);
    hide Balanced;
    DentrySetAttrs(s1, parent, name, node, a.kind);
  }

  lemma StepParentsRight(fs: Fs, s: Share, op: Op)
    requires WellShaped(fs) && DirsNamedOnce(fs) && Refines(fs, s) && Legal(fs, op) && ParentsRight(fs, s)
    ensures ParentsRight(FileTrees.Apply(fs, op), ApplyRec(s, RecOf(op)))
  {
    var fs', s' := FileTrees.Apply(fs, op), ApplyRec(s, RecOf(op));
    StepParents(fs, s, op);
    ApplyKeepsShape(fs, op);
    StepNamedOnce(fs, op);
    forall k | k in fs'.dirs && k != fs'.root && k in s'.nodes ensures NamesNode(fs', s'.nodes[k].parent, k) {
      OneParent(fs, s, op, k, s'.nodes[k].parent);
    }
  }

  lemma OneParent(fs: Fs, s: Share, op: Op, k: NodeKey, p: NodeKey)
    requires WellShaped(fs) && DirsNamedOnce(fs) && Legal(fs, op) && ParentsRight(fs, s) && Mirrors(fs, s)
    requires WellShaped(FileTrees.Apply(fs, op)) && DirsNamedOnce(FileTrees.Apply(fs, op))
    requires k in FileTrees.Apply(fs, op).dirs && k != FileTrees.Apply(fs, op).root
    requires if (op.Make? || op.Link?) && k == op.node then p == op.parent
             else && k in s.nodes
                  && p == if op.Move? && k == fs.dirs[op.fromParent][op.fromName] then op.toParent
                          else s.nodes[k].parent
    ensures NamesNode(FileTrees.Apply(fs, op), p, k)
  {
    var fs' := FileTrees.Apply(fs, op);
    var d, n := HasName(fs', k);
    assert NamesDir(fs', d, n);
    OldName(fs, op, d, n);
    if (op.Make? || op.Link?) && k == op.node {
      assert Entry(fs'.dirs, op.parent, op.name) == Some(k);
    } else if op.Move? && k == fs.dirs[op.fromParent][op.fromName] {
      MovedName(fs, op, d, n);
    } else {
      assert fs'.root == fs.root && k in fs.dirs;
      StaysNamed(fs, op, p, k);
    }
  }

  /** What was moved is under its new name. */
  lemma MovedName(fs: Fs, op: Op, d: NodeKey, n: Name)
    requires WellShaped(fs) && DirsNamedOnce(fs) && Legal(fs, op) && op.Move?
    requires var k := fs.dirs[op.fromParent][op.fromName];
             k in FileTrees.Apply(fs, op).dirs && Entry(FileTrees.Apply(fs, op).dirs, d, n) == Some(k)
    ensures (d, n) == (op.toParent, op.toName)
  {
    var k := fs.dirs[op.fromParent][op.fromName];
    OldName(fs, op, d, n);
    assert Entry(fs.dirs, op.fromParent, op.fromName) == Some(k);
    assert NamesDir(fs, op.fromParent, op.fromName);
  }

  lemma {:induction false} HistoryParents(fs: Fs, s: Share, ops: seq<Op>)
    requires WellShaped(fs) && DirsNamedOnce(fs) && Refines(fs, s) && LegalRun(fs, ops) && ParentsRight(fs, s)
    ensures ParentsRight(ApplyAll(fs, ops), ApplyRecs(s, RecsOf(ops)))
    decreases |ops|
  {
    hide WellShaped, Refines, ParentsRight, DirsNamedOnce, ApplyRec, FileTrees.Apply, Legal, Sound;
    if ops != [] {
      StepParentsRight(fs, s, ops[0]);
      StepRefines(fs, s, ops[0]);
      ApplyKeepsShape(fs, ops[0]);
      assert Sound(fs) by { ShapedSound(fs); }
      StepNamedOnce(fs, ops[0]);
      HistoryParents(FileTrees.Apply(fs, ops[0]), ApplyRec(s, RecOf(ops[0])), ops[1..]);
    }
  }

  lemma ShapedSound(fs: Fs)
    requires WellShaped(fs)
    ensures Sound(fs)
  {}

  /** Along every legal history from a seeded root: each directory but the root is listed, in the directory that is
      its parent. */
  lemma ParentsFollow(r: SnapDir, ops: seq<Op>, k: NodeKey)
    requires r.dirAttr.kind == Dir && r.entries == []
    requires LegalRun(Fs(r.dir, map[r.dir := Dir], map[r.dir := map[]]), ops)
    ensures var s := ApplyRecs(ApplySnapDir(NewShare(r.dir), r), RecsOf(ops));
            k in s.nodes && k != s.root && HasDir(s, k) ==>
              exists n :: n in Table(s, s.nodes[k].parent) && Table(s, s.nodes[k].parent)[n].node == k
  {
    var fs, s := Fs(r.dir, map[r.dir := Dir], map[r.dir := map[]]), ApplySnapDir(NewShare(r.dir), r);
    SeededRefines(r);
    assert ParentsRight(fs, s) && DirsNamedOnce(fs);
    hide ApplySnapDir, LegalRun, RecsOf, ApplyRecs, ApplyAll, DirsNamedOnce, ParentsRight;
    HistoryParents(fs, s, ops);
    HistoryRefines(fs, s, ops);
    ListedInParent(ApplyAll(fs, ops), ApplyRecs(s, RecsOf(ops)), k);
  }

  lemma ListedInParent(fs: Fs, s: Share, k: NodeKey)
    requires WellShaped(fs) && Refines(fs, s) && ParentsRight(fs, s)
    ensures k in s.nodes && k != s.root && HasDir(s, k) ==>
              exists n :: n in Table(s, s.nodes[k].parent) && Table(s, s.nodes[k].parent)[n].node == k
  {
    if k in s.nodes && k != s.root && HasDir(s, k) {
      var p := s.nodes[k].parent;
      assert k in fs.dirs && NamesNode(fs, p, k);
      var n :| Entry(fs.dirs, p, n) == Some(k);
      assert Slot(s, p, n) == FsSlot(fs, p, n);
    }
  }

  // ---- what a snapshot record tells ----------------------------------------------------------------

  ghost predicate Mentions(es: seq<SnapEntry>, k: NodeKey) {
    exists i :: 0 <= i < |es| && es[i].node == k
  }

  ghost predicate IsLastMention(es: seq<SnapEntry>, i: nat, k: NodeKey) {
    i < |es| && es[i].node == k && forall j :: i < j < |es| ==> es[j].node != k
  }

  ghost predicate IsFirstMention(es: seq<SnapEntry>, i: nat, k: NodeKey) {
    i < |es| && es[i].node == k && forall j :: 0 <= j < i ==> es[j].node != k
  }

  /** Attributes replace each other; the content version is the first one told. */
  function Restated(a: Attr, version: nat): Attr {
    a.(contentVersion := version)
  }

  /** What the replica says of an object: its attributes and its parent. */
  function Said(s: Share, k: NodeKey): Option<(Attr, NodeKey)> {
    if k in s.nodes then Some((s.nodes[k].attr, s.nodes[k].parent)) else None
  }

  function Say(o: Option<(Attr, NodeKey)>, a: Attr, d: NodeKey): Option<(Attr, NodeKey)> {
    Some((if o.Some? then Restated(a, o.value.0.contentVersion) else a, d))
  }

  function SayAll(o: Option<(Attr, NodeKey)>, d: NodeKey, es: seq<SnapEntry>, k: NodeKey): Option<(Attr, NodeKey)>
    decreases |es|
  {
    if es == [] then o else SayAll(if es[0].node == k then Say(o, es[0].attr, d) else o, d, es[1..], k)
  }

  lemma {:induction false} EntryNodesSay(s: Share, d: NodeKey, es: seq<SnapEntry>, k: NodeKey)
    ensures Said(UpsertEntryNodes(s, d, es), k) == SayAll(Said(s, k), d, es, k)
    decreases |es|
  {
    if es != [] { EntryNodesSay(UpsertNode(s, es[0].node, es[0].attr, d), d, es[1..], k); }
  }

  /** The last entry for an object tells its parent and its attributes, the first one of a new object its version. */
  lemma {:induction false} SayAllTells(o: Option<(Attr, NodeKey)>, d: NodeKey, es: seq<SnapEntry>, k: NodeKey)
    ensures var o' := SayAll(o, d, es, k);
            && (!Mentions(es, k) ==> o' == o)
            && (Mentions(es, k) ==> o'.Some?)
            && (forall i: nat :: IsLastMention(es, i, k) ==>
                  o' == Some((Restated(es[i].attr, o'.value.0.contentVersion), d)))
            && (o.Some? ==> o'.value.0.contentVersion == o.value.0.contentVersion)
            && (forall i: nat :: o.None? && IsFirstMention(es, i, k) ==>
                  o'.value.0.contentVersion == es[i].attr.contentVersion)
    decreases |es|
  {
    if es != [] {
      var o1, rest := if es[0].node == k then Say(o, es[0].attr, d) else o, es[1..];
      SayAllTells(o1, d, rest, k);
      assert forall i :: 0 <= i < |rest| ==> rest[i] == es[i + 1];
      assert Mentions(es, k) <==> es[0].node == k || Mentions(rest, k) by { MentionsSplit(es, k); }
      forall i: nat | IsLastMention(es, i, k)
        ensures (i > 0 && IsLastMention(rest, i - 1, k)) || (i == 0 && !Mentions(rest, k))
      {}
      forall i: nat | IsFirstMention(es, i, k) ensures i > 0 ==> IsFirstMention(rest, i - 1, k) {}
    }
  }

  lemma MentionsSplit(es: seq<SnapEntry>, k: NodeKey)
    requires es != []
    ensures Mentions(es, k) <==> es[0].node == k || Mentions(es[1..], k)
  {
    if i :| 0 < i < |es| && es[i].node == k { assert es[1..][i - 1].node == k; }
  }

  /** A snapshot record, whatever was there before.  What it lists has its directory for parent and the attributes of
      its last entry; the directory itself has the parent and attributes of the record; nothing else changes.  Content
      versions stay as first told. */
  lemma SnapTells(s: Share, r: SnapDir, k: NodeKey)
    requires r.dirAttr.kind == Dir && TablesWellFormed(s) && k in ApplySnapDir(s, r).nodes
    ensures var n := ApplySnapDir(s, r).nodes[k];
            && (!Mentions(r.entries, k) && k != r.dir ==>
                  k in s.nodes && n.attr == s.nodes[k].attr && n.parent == s.nodes[k].parent)
            && (!Mentions(r.entries, k) && k == r.dir ==>
                  n.parent == r.parent && n.attr == Restated(r.dirAttr, n.attr.contentVersion))
            && (forall i: nat :: IsLastMention(r.entries, i, k) ==>
                  n.parent == r.dir && n.attr == Restated(r.entries[i].attr, n.attr.contentVersion))
            && (k in s.nodes ==> n.attr.contentVersion == s.nodes[k].attr.contentVersion)
            && (k !in s.nodes && k == r.dir ==> n.attr.contentVersion == r.dirAttr.contentVersion)
            && (forall i: nat :: k !in s.nodes && k != r.dir && IsFirstMention(r.entries, i, k) ==>
                  n.attr.contentVersion == r.entries[i].attr.contentVersion)
  {
    hide Mentions, IsLastMention, IsFirstMention, TablesWellFormed, ApplySnapDir, SayAll, UpsertNode;
    SnapSays(s, r, k);
    SayAllTells(if k == r.dir then Say(Said(s, k), r.dirAttr, r.parent) else Said(s, k), r.dir, r.entries, k);
  }

  lemma SnapSays(s: Share, r: SnapDir, k: NodeKey)
    requires r.dirAttr.kind == Dir && TablesWellFormed(s) && k in ApplySnapDir(s, r).nodes
    ensures Said(ApplySnapDir(s, r), k)
         == SayAll(if k == r.dir then Say(Said(s, k), r.dirAttr, r.parent) else Said(s, k), r.dir, r.entries, k)
  {
    var s0, s1 := UpsertNode(s, r.dir, r.dirAttr, r.parent), SnapNodes(s, r);
    EntryNodesSay(s0, r.dir, r.entries, k);
    assert Said(s0, k) == if k == r.dir then Say(Said(s, k), r.dirAttr, r.parent) else Said(s, k);
    hide TablesWellFormed, Balanced, Quiet, UpsertEntryNodes, ApplySnapDir, Filled, SnapListed, SayAll, UpsertNode;
    SnapParts(s, r);
    SnapNodesQuiet(s, r);
    QuietBalanced(s, s1);
    BalancedTables(s, s1);
    FilledIs(s1, r);
    FilledTables(s1, r);
    var s2 := Filled(s1, r);
    LinkDecAllSpares(s2, SnapListed(s1, r).unlink, {}) by { SealedNothing(s2); }
    hide LinkDecAll;
  }

  lemma SealedNothing(s: Share)
    ensures Sealed(s, {})
  {}
}
