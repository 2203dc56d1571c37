/** What the replica says about each object: the guest's latest word, record by record. */
module Attributes {
  import opened Types
  import opened DirViews
  import opened Replicas
  import opened Collection
  import opened ReplicaInvariants
  import opened ReplicaRuns
  import opened FileTrees
  import opened Refinement

  type Attrs = map<NodeKey, Attr>

  /** Attributes as the guest states them: a stat never tells the content version, and a write tells only
      size, time and version. */
  function Stated(attrs: Attrs, op: Op): Attrs {
    match op
    case Make(_, _, k, a) => attrs[k := a]
    case Link(_, _, k, a) => if k in attrs then attrs[k := a.(contentVersion := attrs[k].contentVersion)] else attrs
    case Chmod(k, a) => if k in attrs then attrs[k := a.(contentVersion := attrs[k].contentVersion)] else attrs
    case Write(k, version, size, mtime) =>
      if k in attrs then attrs[k := attrs[k].(size := size, mtime := mtime, contentVersion := version)] else attrs
    case Unlink(_, _) => attrs
    case Move(_, _, _, _) => attrs
  }

  ghost predicate Agrees(attrs: Attrs, s: Share) {
    forall k :: k in s.nodes ==> k in attrs && s.nodes[k].attr == attrs[k]
  }

  /** No new nodes, and those that stay keep their attributes and their parents. */
  ghost predicate KeepsNodes(s: Share, s': Share) {
    forall k :: k in s'.nodes ==>
      k in s.nodes && s'.nodes[k].attr == s.nodes[k].attr && s'.nodes[k].parent == s.nodes[k].parent
  }

  /** The same, but that one node, if it stays, has a new parent. */
  ghost predicate Reparents(s: Share, s': Share, moved: NodeKey, parent: NodeKey) {
    forall k :: k in s'.nodes ==>
      && k in s.nodes && s'.nodes[k].attr == s.nodes[k].attr
      && s'.nodes[k].parent == if k == moved then parent else s.nodes[k].parent
  }

  lemma CollectedAttrs(s: Share, s': Share)
    requires Collected(s, s', 0)
    ensures KeepsNodes(s, s')
  {}

  lemma KeepsThen(s: Share, s1: Share, s2: Share)
    requires KeepsNodes(s, s1) && KeepsNodes(s1, s2)
    ensures KeepsNodes(s, s2)
  {}

  lemma DropDisplacedAttrs(s: Share, displaced: Option<NodeKey>)
    requires TablesWellFormed(s)
    ensures KeepsNodes(s, DropDisplaced(s, displaced)) && DropDisplaced(s, displaced).pending == s.pending
  {
    hide TablesWellFormed, DropDisplaced, Collected, KeepsNodes;
    DropDisplacedCollects(s, displaced);
    CollectedAttrs(s, DropDisplaced(s, displaced));
    CollectedKeepsTables(s, DropDisplaced(s, displaced), 0);
  }

  lemma PlacedAttrs(s: Share, parent: NodeKey, name: Name, node: NodeKey, kind: Kind)
    requires HasDir(s, parent) && TablesWellFormed(s)
    ensures var s1 := Placed(s, parent, name, node, kind);
            KeepsNodes(s, s1) && s1.pending == s.pending && TablesWellFormed(s1)
  {
    PlacedSlots(s, parent, name, node, kind);
    PlacedBalanced(s, parent, name, node, kind);
    hide TablesWellFormed, Balanced, Placed, Slot;
    BalancedTables(s, Placed(s, parent, name, node, kind));
  }

  lemma LinkIncAttrs(s: Share, node: NodeKey)
    requires TablesWellFormed(s)
    ensures KeepsNodes(s, LinkInc(s, node)) && LinkInc(s, node).pending == s.pending
    ensures TablesWellFormed(LinkInc(s, node))
  {
    LinkIncBalanced(s, node);
    hide TablesWellFormed, Balanced;
    BalancedTables(s, LinkInc(s, node));
  }

  lemma ClearedAttrs(s: Share, parent: NodeKey, name: Name)
    requires TablesWellFormed(s) && name in Table(s, parent)
    ensures KeepsNodes(s, Cleared(s, parent, name)) && TablesWellFormed(Cleared(s, parent, name))
  {
    ClearedSlots(s, parent, name);
    ClearedBalanced(s, parent, name);
    hide TablesWellFormed, Balanced, Cleared, Slot;
    BalancedTables(s, Cleared(s, parent, name));
  }

  lemma DentrySetAttrs(s: Share, parent: NodeKey, name: Name, node: NodeKey, kind: Kind)
    requires TablesWellFormed(s)
    ensures var s' := DentrySet(s, parent, name, node, kind); KeepsNodes(s, s') && s'.pending == s.pending
  {
    hide TablesWellFormed, KeepsNodes, DropDisplaced, LinkInc;
    if HasDir(s, parent) {
      var u := Upsert(s.nodes[parent].dir.value, name, node, kind).1;
      var s1 := Placed(s, parent, name, node, kind);
      PlacedAttrs(s, parent, name, node, kind);
      LinkIncAttrs(s1, node);
      KeepsThen(s, s1, LinkInc(s1, node));
      var s2 := if u.gainedLink then LinkInc(s1, node) else s1;
      DropDisplacedAttrs(s2, u.displaced);
      KeepsThen(s, s2, DropDisplaced(s2, u.displaced));
    } else {
      KeepsNothing(s);
    }
  }

  lemma KeepsNothing(s: Share)
    ensures KeepsNodes(s, s)
  {}

  lemma DentryRemoveAttrs(s: Share, parent: NodeKey, name: Name)
    requires TablesWellFormed(s)
    ensures KeepsNodes(s, DentryRemove(s, parent, name))
  {
    hide TablesWellFormed, KeepsNodes, LinkDec, Collected;
    if name in Table(s, parent) {
      var s1 := Cleared(s, parent, name);
      ClearedAttrs(s, parent, name);
      LinkDecCollects(s1, Table(s, parent)[name].node);
      CollectedAttrs(s1, DentryRemove(s, parent, name));
      KeepsThen(s, s1, DentryRemove(s, parent, name));
    } else {
      KeepsNothing(s);
    }
  }

  lemma SetParentMoves(s: Share, s': Share, key: NodeKey, parent: NodeKey)
    requires KeepsNodes(s, s')
    ensures Reparents(s, SetParent(s', key, parent), key, parent)
  {}

  /** A rename of a listed name into a known directory makes that directory the parent of what it moves; no other
      parent changes, and no attributes.  Any other rename leaves every parent alone. */
  lemma RenamedParents(s: Share, fp: NodeKey, fnm: Name, tp: NodeKey, tnm: Name)
    requires TablesWellFormed(s)
    ensures var s' := ApplyRec(s, Renamed(fp, fnm, tp, tnm));
            if fnm in Table(s, fp) && HasDir(s, tp)
            then Reparents(s, s', Table(s, fp)[fnm].node, tp)
            else KeepsNodes(s, s')
  {
    hide TablesWellFormed, KeepsNodes, DropDisplaced, SetParent, Placed, Reparents;
    if fnm in Table(s, fp) {
      var s1, x := Cleared(s, fp, fnm), Table(s, fp)[fnm];
      ClearedAttrs(s, fp, fnm);
      if HasDir(s1, tp) {
        var u := Upsert(s1.nodes[tp].dir.value, tnm, x.node, x.kind).1;
        var s2 := Placed(s1, tp, tnm, x.node, x.kind);
        RenamedUnfolds(s, fp, fnm, tp, tnm);
        PlacedAttrs(s1, tp, tnm, x.node, x.kind);
        var s3 := DropDisplaced(s2, u.displaced);
        DropDisplacedAttrs(s2, u.displaced);
        KeepsThen(s, s1, s2);
        KeepsThen(s, s2, s3);
        SetParentMoves(s, s3, x.node, tp);
      }
    } else {
      KeepsNothing(s);
    }
  }

  /** With nothing stashed, introducing an object sets its attributes and its parent, and no other's. */
  lemma IntroduceAttrs(s: Share, parent: NodeKey, node: NodeKey, a: Attr)
    requires s.pending == map[]
    ensures var s' := Introduce(s, parent, node, Some(a));
            && s'.nodes.Keys == s.nodes.Keys + {node}
            && (forall k :: k in s.nodes && k != node ==>
                  s'.nodes[k].attr == s.nodes[k].attr && s'.nodes[k].parent == s.nodes[k].parent)
            && s'.nodes[node].parent == parent
            && s'.nodes[node].attr
               == if node in s.nodes then a.(contentVersion := s.nodes[node].attr.contentVersion) else a
  {}

  lemma CreatedAttrs(s: Share, attrs: Attrs, parent: NodeKey, name: Name, node: NodeKey, a: Attr)
    requires TablesWellFormed(s) && s.pending == map[] && Agrees(attrs, s)
    ensures var a' := if node in s.nodes then a.(contentVersion := s.nodes[node].attr.contentVersion) else a;
            Agrees(attrs[node := a'], ApplyCreated(s, parent, name, node, Some(a)))
  {
    hide Introduce, DentrySet, TablesWellFormed, Quiet;
    var s1 := Introduce(s, parent, node, Some(a));
    IntroduceAttrs(s, parent, node, a);
    IntroduceQuiet(s, parent, node, Some(a));
    QuietBalanced(s, s1);
    BalancedTables(s, s1);
    hide Balanced;
    DentrySetAttrs(s1, parent, name, node, a.kind);
  }

  /** One call: what the replica holds is what the guest last stated. */
  lemma StepAttrs(fs: Fs, s: Share, attrs: Attrs, op: Op)
    requires WellShaped(fs) && Refines(fs, s) && Legal(fs, op) && Agrees(attrs, s)
    ensures Agrees(Stated(attrs, op), ApplyRec(s, RecOf(op)))
  {
    hide WellShaped, Refines, ApplyCreated, DentryRemove, ApplyRenamed, Below, Agrees, KeepsNodes;
    RefinesClean(fs, s);
    match op
    case Make(p, n, k, a) =>
      KnownNode(fs, s, k);
      CreatedAttrs(s, attrs, p, n, k, a);
    case Link(p, n, k, a) =>
      KnownNode(fs, s, k);
      AgreesAt(attrs, s, k);
      CreatedAttrs(s, attrs, p, n, k, a);
    case Unlink(p, n) =>
      DentryRemoveAttrs(s, p, n);
      AgreesKept(attrs, s, DentryRemove(s, p, n));
    case Move(fp, fnm, tp, tnm) =>
      RenamedParents(s, fp, fnm, tp, tnm);
      AgreesMoved(attrs, s, ApplyRenamed(s, fp, fnm, tp, tnm), fp, fnm, tp);
    case Write(k, version, size, mtime) =>
      KnownNode(fs, s, k);
      TouchAttrs(attrs, s, op);
    case Chmod(k, a) =>
      KnownNode(fs, s, k);
      TouchAttrs(attrs, s, op);
  }

  lemma RefinesClean(fs: Fs, s: Share)
    requires Refines(fs, s)
    ensures TablesWellFormed(s) && s.pending == map[]
  {}

  lemma AgreesAt(attrs: Attrs, s: Share, k: NodeKey)
    requires Agrees(attrs, s) && k in s.nodes
    ensures k in attrs && s.nodes[k].attr == attrs[k]
  {}

  lemma AgreesKept(attrs: Attrs, s: Share, s': Share)
    requires Agrees(attrs, s) && KeepsNodes(s, s')
    ensures Agrees(attrs, s')
  {}

  lemma AgreesMoved(attrs: Attrs, s: Share, s': Share, fp: NodeKey, fnm: Name, tp: NodeKey)
    requires Agrees(attrs, s)
    requires if fnm in Table(s, fp) && HasDir(s, tp) then Reparents(s, s', Table(s, fp)[fnm].node, tp)
             else KeepsNodes(s, s')
    ensures Agrees(attrs, s')
  {}

  lemma TouchAttrs(attrs: Attrs, s: Share, op: Op)
    requires Agrees(attrs, s) && ((op.Write? && op.node in s.nodes) || (op.Chmod? && op.node in s.nodes))
    ensures Agrees(Stated(attrs, op), ApplyRec(s, RecOf(op)))
  {}

  function StatedAll(attrs: Attrs, ops: seq<Op>): Attrs
    decreases |ops|
  {
    if ops == [] then attrs else StatedAll(Stated(attrs, ops[0]), ops[1..])
  }

  /** Every legal history. */
  lemma {:induction false} AttributesFollow(fs: Fs, s: Share, attrs: Attrs, ops: seq<Op>)
    requires WellShaped(fs) && Refines(fs, s) && LegalRun(fs, ops) && Agrees(attrs, s)
    ensures Agrees(StatedAll(attrs, ops), ApplyRecs(s, RecsOf(ops)))
    decreases |ops|
  {
    hide WellShaped, Refines, Agrees, ApplyRec, FileTrees.Apply, Legal, Stated;
    if ops != [] {
      StepAttrs(fs, s, attrs, ops[0]);
      StepRefines(fs, s, ops[0]);
      ApplyKeepsShape(fs, ops[0]);
      AttributesFollow(FileTrees.Apply(fs, ops[0]), ApplyRec(s, RecOf(ops[0])), Stated(attrs, ops[0]), ops[1..]);
    }
  }

  // ---- records that come before their object --------------------------------------------------------

  /** What one waiting record says about an object with these attributes. */
  function Word(a: Attr, p: Pending): Attr {
    match p
    case PendingAttr(early) => early.(contentVersion := a.contentVersion)
    case PendingContent(version, size, mtime) => a.(size := size, mtime := mtime, contentVersion := version)
  }

  function Words(a: Attr, ps: seq<Pending>): Attr
    decreases |ps|
  {
    if ps == [] then a else Words(Word(a, ps[0]), ps[1..])
  }

  predicate About(rec: Rec, node: NodeKey) {
    (rec.AttrChanged? || rec.Content?) && rec.node == node
  }

  predicate AllAbout(recs: seq<Rec>, node: NodeKey) {
    forall i :: 0 <= i < |recs| ==> About(recs[i], node)
  }

  function PendingOf(rec: Rec): Pending
    requires rec.AttrChanged? || rec.Content?
  {
    if rec.AttrChanged? then PendingAttr(rec.newAttr) else PendingContent(rec.version, rec.size, rec.mtime)
  }

  function PendingsOf(recs: seq<Rec>, node: NodeKey): seq<Pending>
    requires AllAbout(recs, node)
  {
    seq(|recs|, i requires 0 <= i < |recs| => PendingOf(recs[i]))
  }

  function Waiting(s: Share, node: NodeKey): seq<Pending> {
    if node in s.pending then s.pending[node] else []
  }

  /** The stash is thrown away when it is full, so what waits is kept if there is room for one more object. */
  predicate Room(s: Share, node: NodeKey) {
    |s.pending.Keys + {node}| < MAX_PENDING
  }

  lemma StashOne(s: Share, node: NodeKey, p: Pending)
    requires Room(s, node)
    ensures var s' := StashPending(s, node, p);
            s' == s.(pending := s'.pending) && Waiting(s', node) == Waiting(s, node) + [p] && Room(s', node)
  {
    if node in s.pending {
      assert s.pending.Keys + {node} == s.pending.Keys;
    }
    assert StashPending(s, node, p).pending.Keys + {node} == s.pending.Keys + {node};
  }

  lemma {:induction false} StashAll(s: Share, node: NodeKey, recs: seq<Rec>)
    requires node !in s.nodes && AllAbout(recs, node) && Room(s, node)
    ensures var s' := ApplyRecs(s, recs);
            && s' == s.(pending := s'.pending) && Room(s', node)
            && Waiting(s', node) == Waiting(s, node) + PendingsOf(recs, node)
    decreases |recs|
  {
    hide Room, Waiting, StashPending;
    if recs == [] {
      assert PendingsOf(recs, node) == [];
    } else {
      assert About(recs[0], node);
      StashOne(s, node, PendingOf(recs[0]));
      StashAll(StashPending(s, node, PendingOf(recs[0])), node, recs[1..]);
      assert PendingsOf(recs, node) == [PendingOf(recs[0])] + PendingsOf(recs[1..], node);
    }
  }

  lemma {:induction false} UpdateAllWords(s: Share, node: NodeKey, ps: seq<Pending>)
    requires node in s.nodes
    ensures var s' := UpdateAllPending(s, node, ps);
            node in s'.nodes && s'.nodes[node].attr == Words(s.nodes[node].attr, ps) && s'.pending == s.pending
    decreases |ps|
  {
    if ps != [] { UpdateAllWords(UpdatePending(s, node, ps[0]), node, ps[1..]); }
  }

  /** The stash is emptied into the new object. */
  lemma IntroduceWords(s: Share, parent: NodeKey, node: NodeKey, a: Attr)
    requires node !in s.nodes
    ensures var s' := Introduce(s, parent, node, Some(a));
            && node !in s'.pending && node in s'.nodes
            && s'.nodes[node].attr == Words(a, Waiting(s, node))
  {
    var s1 := UpsertNode(s, node, a, parent);
    if node in s.pending {
      UpdateAllWords(s1.(pending := s1.pending - {node}), node, s.pending[node]);
    }
    hide UpdateAllPending;
  }

  lemma CreatedWords(s: Share, parent: NodeKey, name: Name, node: NodeKey, a: Attr)
    requires TablesWellFormed(s) && node !in s.nodes
    ensures var s' := ApplyCreated(s, parent, name, node, Some(a));
            node !in s'.pending && (node in s'.nodes ==> s'.nodes[node].attr == Words(a, Waiting(s, node)))
  {
    hide DentrySet, TablesWellFormed, Quiet, Balanced, KeepsNodes;
    var s1 := Introduce(s, parent, node, Some(a));
    IntroduceWords(s, parent, node, a);
    IntroduceQuiet(s, parent, node, Some(a));
    QuietBalanced(s, s1);
    BalancedTables(s, s1);
    hide Introduce, Waiting;
    DentrySetAttrs(s1, parent, name, node, a.kind);
    KeepsAt(s1, DentrySet(s1, parent, name, node, a.kind), node);
  }

  lemma KeepsAt(s: Share, s': Share, k: NodeKey)
    requires KeepsNodes(s, s')
    ensures k in s'.nodes ==>
              k in s.nodes && s'.nodes[k].attr == s.nodes[k].attr && s'.nodes[k].parent == s.nodes[k].parent
  {}

  /** Any records about an object that come before it wait for it, and then say in their order what they would
      have said after it. */
  lemma StashedThenCreated(s: Share, parent: NodeKey, name: Name, node: NodeKey, a: Attr, early: seq<Rec>)
    requires TablesWellFormed(s) && node !in s.nodes && AllAbout(early, node) && Room(s, node)
    ensures var s' := ApplyRec(ApplyRecs(s, early), Created(parent, name, node, Some(a)));
            && node !in s'.pending
            && (node in s'.nodes ==> s'.nodes[node].attr == Words(a, Waiting(s, node) + PendingsOf(early, node)))
  {
    hide Waiting, Room, PendingsOf, ApplyCreated;
    StashAll(s, node, early);
    var s1 := ApplyRecs(s, early);
    CountersKeepTables(s, s1);
    CreatedWords(s1, parent, name, node, a);
  }

  lemma {:induction false} LateWords(s: Share, node: NodeKey, recs: seq<Rec>)
    requires node in s.nodes && AllAbout(recs, node)
    ensures var s' := ApplyRecs(s, recs);
            node in s'.nodes && s'.nodes[node].attr == Words(s.nodes[node].attr, PendingsOf(recs, node))
    decreases |recs|
  {
    if recs == [] {
      assert PendingsOf(recs, node) == [];
    } else {
      assert About(recs[0], node);
      var s1 := ApplyRec(s, recs[0]);
      assert s1.nodes[node].attr == Word(s.nodes[node].attr, PendingOf(recs[0]));
      LateWords(s1, node, recs[1..]);
      var ps := PendingsOf(recs, node);
      assert ps[0] == PendingOf(recs[0]) && ps[1..] == PendingsOf(recs[1..], node);
    }
  }

  /** Early or late, the object ends with the same attributes. */
  lemma EarlyAsLate(s: Share, parent: NodeKey, name: Name, node: NodeKey, a: Attr, recs: seq<Rec>)
    requires TablesWellFormed(s) && node !in s.nodes && node !in s.pending && AllAbout(recs, node) && Room(s, node)
    ensures var created := Created(parent, name, node, Some(a));
            var early, late := ApplyRec(ApplyRecs(s, recs), created), ApplyRecs(ApplyRec(s, created), recs);
            node in early.nodes && node in ApplyRec(s, created).nodes ==>
              node in late.nodes && early.nodes[node].attr == late.nodes[node].attr
  {
    hide Room, PendingsOf, ApplyRecs;
    var created := Created(parent, name, node, Some(a));
    StashedThenCreated(s, parent, name, node, a, recs);
    CreatedWords(s, parent, name, node, a);
    assert [] + PendingsOf(recs, node) == PendingsOf(recs, node);
    if node in ApplyRec(s, created).nodes {
      hide ApplyRec;
      LateWords(ApplyRec(s, created), node, recs);
    }
  }
}
