/** The consistent cut: a walk that races with the guest, followed by a replay of everything that
    changed since buffering began, gives exactly the guest's final tree. */
module ConsistentCuts {
  import opened Types
  import opened DirViews
  import opened Replicas
  import opened Collection
  import opened ReplicaInvariants
  import opened ReplicaRuns
  import opened FileTrees
  import opened Refinement
  import opened GuestHistories

  // ---- what the guest sends ----------------------------------------------------------------------

  /** Attributes are stated when the record is built; for an object that lasts they tell its kind. */
  ghost predicate KindOk(h: History, k: NodeKey, attr: Option<Attr>)
    requires Guest(h)
  {
    k in Last(h).kinds ==> attr.Some? && attr.value.kind == Last(h).kinds[k]
  }

  ghost predicate NamedRecord(h: History, i: nat, p: NodeKey, x: Name, k: NodeKey, kind: Kind, rec: Option<Rec>)
    requires Guest(h)
  {
    if TouchedFrom(h, i + 1, p, x) then
      rec.Some? ==>
        && rec.value.Created? && rec.value.parent == p && rec.value.name == x
        && KindOk(h, rec.value.node, rec.value.attr)
    else
      && rec.Some? && rec.value.Created? && rec.value.parent == p && rec.value.name == x
      && rec.value.node == k && rec.value.attr.Some? && rec.value.attr.value.kind == kind
  }

  /** The record of event `i`.  A create or a hard link is looked up by name when its record is built: unless the
      name is touched again later it is found; otherwise it may be missed, or show a later object. */
  ghost predicate RecordOf(h: History, i: nat, rec: Option<Rec>)
    requires Guest(h) && i < |h.ops|
  {
    match h.ops[i]
    case Make(p, x, k, a) => NamedRecord(h, i, p, x, k, a.kind, rec)
    case Link(p, x, k, a) => NamedRecord(h, i, p, x, k, a.kind, rec)
    case _ => rec == Some(Removed(h.ops[i].parent, h.ops[i].name))
  }

  /** Records that say nothing about names: content and attribute changes, echo markers, and the
      notice that an object is gone for good. */
  ghost predicate Aside(h: History, rec: Rec)
    requires Guest(h)
  {
    match rec
    case SelfRemoved(k) => k !in Last(h).kinds
    case AttrChanged(k, a) => KindOk(h, k, Some(a))
    case Content(_, _, _, _) => true
    case EchoMarker(_) => true
    case _ => false
  }

  /** The buffered journal: the record of each event in order, with other records in between. */
  datatype Item = Change(rec: Option<Rec>) | Other(rec': Rec)

  /** The items tell of the events from `i` up to `j`. */
  ghost predicate Tells(h: History, i: nat, j: nat, items: seq<Item>)
    requires Guest(h)
    decreases |items|
  {
    if items == [] then i == j
    else match items[0]
      case Change(rec) => i < j <= |h.ops| && RecordOf(h, i, rec) && Tells(h, i + 1, j, items[1..])
      case Other(rec) => Aside(h, rec) && Tells(h, i, j, items[1..])
  }

  function RecordsOf(items: seq<Item>): seq<Rec>
    decreases |items|
  {
    if items == [] then []
    else
      (match items[0]
       case Change(None) => []
       case Change(Some(rec)) => [rec]
       case Other(rec) => [rec]) + RecordsOf(items[1..])
  }

  // ---- what the replay keeps -----------------------------------------------------------------------

  ghost predicate Accounted(h: History, s: Share)
    requires Guest(h)
  {
    forall k :: k in Last(h).kinds ==> Surplus(s, k) >= 0
  }

  ghost predicate KindsRight(h: History, s: Share)
    requires Guest(h)
  {
    && (forall k :: k in Last(h).kinds && k in s.nodes ==>
          s.nodes[k].attr.kind == Last(h).kinds[k] && (Last(h).kinds[k] == Dir <==> s.nodes[k].dir.Some?))
    && (forall k, i :: k in Last(h).kinds && k in s.pending && 0 <= i < |s.pending[k]| ==>
          (s.pending[k][i].PendingAttr? ==> s.pending[k][i].attr.kind == Last(h).kinds[k]))
  }

  ghost predicate PresentAt(h: History, i: nat, s: Share)
    requires Guest(h) && i <= |h.ops|
  {
    forall d :: d in Last(h).dirs && d in h.states[i].dirs ==> d in s.nodes
  }

  /** A lasting directory shows the guest's listing at moment `i`, but for slots still to come. */
  ghost predicate SlotsAt(h: History, i: nat, s: Share)
    requires Guest(h) && i <= |h.ops|
  {
    forall d, x :: d in Last(h).dirs ==> Slot(s, d, x) == FsSlot(h.states[i], d, x) || TouchedFrom(h, i, d, x)
  }

  ghost predicate CompleteAt(h: History, i: nat, s: Share)
    requires Guest(h) && i <= |h.ops|
  {
    forall d :: d in Last(h).dirs && d in h.states[i].dirs ==> HasDir(s, d) && s.nodes[d].dir.value.complete
  }

  ghost predicate Shown(h: History, i: nat, s: Share)
    requires Guest(h) && i <= |h.ops|
  {
    s.root == Last(h).root && KindsRight(h, s) && PresentAt(h, i, s) && SlotsAt(h, i, s) && CompleteAt(h, i, s)
  }

  ghost predicate Cut(h: History, i: nat, s: Share)
    requires Guest(h) && i <= |h.ops|
  {
    TablesWellFormed(s) && Accounted(h, s) && Shown(h, i, s)
  }

  // ---- collection spares what lasts -------------------------------------------------------------------

  lemma {:induction false} LastingSurvives(h: History, i: nat, s: Share, s': Share, path: seq<Name>, k: NodeKey)
    requires Guest(h) && i <= |h.ops| && Shown(h, i, s) && Collected(s, s', 0) && Accounted(h, s')
    requires Walk(Last(h).dirs, Last(h).root, path) == Some(k)
    requires k in Last(h).dirs && k in h.states[i].dirs
    ensures k in s'.nodes
    decreases |path|
  {
    StatesWellShaped(h, i);
    StatesWellShaped(h, |h.ops|);
    if path == [] {
      assert k in s.nodes;
    } else {
      var n := path[|path| - 1];
      var d := FinalParent(h, path, k);
      NameLasts(h, i, i, d, n, k);
      assert d in Last(h).dirs && d in h.states[i].dirs;
      LastingSurvives(h, i, s, s', path[..|path| - 1], d);
      assert Slot(s, d, n) == FsSlot(h.states[i], d, n);
      CollectedKeepsTables(s, s', 0);
      NamedIsPresent(s', d, n, k);
    }
  }

  lemma NamedIsPresent(s: Share, d: NodeKey, n: Name, k: NodeKey)
    requires n in Table(s, d) && Table(s, d)[n].node == k && Surplus(s, k) >= 0
    ensures k in s.nodes
  {
    var e := Edge(d, n, k);
    assert e in Edges(s) && e in Into(Edges(s), k);
  }

  lemma CollectKeepsPresent(h: History, i: nat, s: Share, s': Share)
    requires Guest(h) && i <= |h.ops| && Shown(h, i, s) && Collected(s, s', 0) && Accounted(h, s')
    ensures PresentAt(h, i, s')
  {
    StatesWellShaped(h, |h.ops|);
    hide Shown, Collected, Accounted;
    forall k | k in Last(h).dirs && k in h.states[i].dirs ensures k in s'.nodes {
      assert Reachable(Last(h), k);
      var path :| Walk(Last(h).dirs, Last(h).root, path) == Some(k);
      LastingSurvives(h, i, s, s', path, k);
    }
  }

  lemma DirsAreKinds(h: History, i: nat, d: NodeKey)
    requires Guest(h) && i <= |h.ops|
    ensures d in h.states[i].dirs ==> d in h.states[i].kinds && h.states[i].kinds[d] == Dir
  {
    StatesWellShaped(h, i);
  }

  lemma CollectKeepsSlots(h: History, i: nat, s: Share, s': Share)
    requires Guest(h) && i <= |h.ops| && SlotsAt(h, i, s) && PresentAt(h, i, s') && Collected(s, s', 0)
    ensures SlotsAt(h, i, s')
  {
    CollectedKeepsTables(s, s', 0);
    hide Guest, Collected, FsSlot, Slot, TouchedFrom;
    forall d, x | d in Last(h).dirs ensures Slot(s', d, x) == FsSlot(h.states[i], d, x) || TouchedFrom(h, i, d, x) {
      CollectedSlot(s, s', d, x);
      DirsAreKinds(h, i, d);
      DirsAreKinds(h, |h.ops|, d);
      if d !in s'.nodes { NoDirNoSlot(h.states[i], d, x); }
    }
  }

  lemma NoDirNoSlot(fs: Fs, d: NodeKey, x: Name)
    ensures d !in fs.dirs ==> FsSlot(fs, d, x) == None
  {}

  lemma CollectKeepsKinds(h: History, i: nat, s: Share, s': Share)
    requires Guest(h) && i <= |h.ops| && Collected(s, s', 0)
    ensures KindsRight(h, s) ==> KindsRight(h, s')
  {
    hide Guest;
  }

  lemma CollectKeepsComplete(h: History, i: nat, s: Share, s': Share)
    requires Guest(h) && i <= |h.ops| && Collected(s, s', 0) && PresentAt(h, i, s') && CompleteAt(h, i, s)
    ensures CompleteAt(h, i, s')
  {
    forall d | d in Last(h).dirs && d in h.states[i].dirs ensures HasDir(s', d) && s'.nodes[d].dir.value.complete {
      DirsAreKinds(h, i, d);
      DirsAreKinds(h, |h.ops|, d);
      assert s'.nodes[d].dir == s.nodes[d].dir;
    }
  }

  lemma CollectKeepsShown(h: History, i: nat, s: Share, s': Share)
    requires Guest(h) && i <= |h.ops| && Shown(h, i, s) && Collected(s, s', 0) && Accounted(h, s')
    ensures Shown(h, i, s')
  {
    hide Guest, Accounted, KindsRight, PresentAt, SlotsAt, CompleteAt;
    CollectKeepsPresent(h, i, s, s');
    CollectedKeepsTables(s, s', 0);
    hide Collected;
    CollectKeepsSlots(h, i, s, s');
    CollectKeepsKinds(h, i, s, s');
    CollectKeepsComplete(h, i, s, s');
  }

  // ---- one event -----------------------------------------------------------------------------------

  /** `s'` differs from `s` at most in slot (p, x), in new nodes, and in attributes and links. */
  ghost predicate Edited(s: Share, s': Share, p: NodeKey, x: Name) {
    && s'.root == s.root
    && s.nodes.Keys <= s'.nodes.Keys
    && (forall d, y :: (d, y) != (p, x) ==> Slot(s', d, y) == Slot(s, d, y))
    && (forall d :: HasDir(s, d) && s.nodes[d].dir.value.complete ==> HasDir(s', d) && s'.nodes[d].dir.value.complete)
  }

  lemma EditedThen(s: Share, s1: Share, s2: Share, p: NodeKey, x: Name)
    requires Edited(s, s1, p, x) && Edited(s1, s2, p, x)
    ensures Edited(s, s2, p, x)
  {}

  lemma AdvanceSlots(h: History, i: nat, s: Share, s': Share, d: NodeKey, y: Name)
    requires Guest(h) && i < |h.ops| && SlotsAt(h, i, s) && d in Last(h).dirs
    requires !Touches(h.ops[i], d, y) && Slot(s', d, y) == Slot(s, d, y)
    ensures Slot(s', d, y) == FsSlot(h.states[i + 1], d, y) || TouchedFrom(h, i + 1, d, y)
  {
    if TouchedFrom(h, i, d, y) {
      var j :| i <= j < |h.ops| && Touches(h.ops[j], d, y);
      assert j != i;
    } else {
      DirLasts(h, i, d);
      StatesWellShaped(h, i);
      StepSlots(h.states[i], h.ops[i], d, y);
    }
  }

  /** Event `i`, once its slot is right in the replica and its new directory, if it lasts, is there. */
  lemma EventShown(h: History, i: nat, s: Share, s': Share)
    requires Guest(h) && i < |h.ops| && Shown(h, i, s) && KindsRight(h, s')
    requires var op := h.ops[i];
             && Edited(s, s', op.parent, op.name)
             && (op.parent in Last(h).dirs ==>
                   || Slot(s', op.parent, op.name) == FsSlot(h.states[i + 1], op.parent, op.name)
                   || TouchedFrom(h, i + 1, op.parent, op.name))
             && (op.Make? && op.attr.kind == Dir && op.node in Last(h).kinds ==>
                   HasDir(s', op.node) && s'.nodes[op.node].dir.value.complete)
    ensures Shown(h, i + 1, s')
  {
    var op := h.ops[i];
    forall d, y | d in Last(h).dirs
      ensures Slot(s', d, y) == FsSlot(h.states[i + 1], d, y) || TouchedFrom(h, i + 1, d, y)
    {
      if (d, y) != (op.parent, op.name) { AdvanceSlots(h, i, s, s', d, y); }
    }
    forall d | d in Last(h).dirs && d in h.states[i + 1].dirs ensures HasDir(s', d) && s'.nodes[d].dir.value.complete {
      StatesWellShaped(h, i);
      DirsAreKinds(h, i + 1, d);
      DirsAreKinds(h, |h.ops|, d);
      StepKinds(h.states[i], op, d);
    }
    assert PresentAt(h, i + 1, s');
  }

  /** Bookkeeping that leaves every name alone, keeps completeness, and keeps kinds right. */
  ghost predicate Gentle(h: History, s: Share, s': Share)
    requires Guest(h)
  {
    && Quiet(s, s')
    && (forall d :: HasDir(s, d) && s.nodes[d].dir.value.complete ==> HasDir(s', d) && s'.nodes[d].dir.value.complete)
    && (KindsRight(h, s) ==> KindsRight(h, s'))
  }

  lemma GentleThen(h: History, s: Share, s1: Share, s2: Share)
    requires Guest(h) && Gentle(h, s, s1) && Gentle(h, s1, s2)
    ensures Gentle(h, s, s2)
  {
    hide Guest, KindsRight, Quiet;
    assert Quiet(s, s2) by { QuietThen(s, s1, s2); }
  }

  lemma GentleNothing(h: History, s: Share)
    requires Guest(h)
    ensures Gentle(h, s, s)
  {
    hide Guest, KindsRight;
    QuietNothing(s);
  }

  lemma QuietSlots(s: Share, s': Share)
    requires Quiet(s, s')
    ensures forall d, x :: Slot(s', d, x) == Slot(s, d, x)
    ensures s'.root == s.root && s.nodes.Keys <= s'.nodes.Keys
  {
    forall d, x ensures Slot(s', d, x) == Slot(s, d, x) { assert Table(s', d) == Table(s, d); }
  }

  lemma UpsertNodeGentle(h: History, s: Share, key: NodeKey, attr: Attr, parent: NodeKey)
    requires Guest(h) && KindOk(h, key, Some(attr))
    ensures Gentle(h, s, UpsertNode(s, key, attr, parent))
  {
    hide Guest, Quiet;
    UpsertNodeQuiet(s, key, attr, parent);
  }

  lemma UpdatePendingGentle(h: History, s: Share, key: NodeKey, p: Pending)
    requires Guest(h) && (p.PendingAttr? ==> KindOk(h, key, Some(p.attr)))
    ensures Gentle(h, s, UpdatePending(s, key, p))
  {
    hide Guest, Quiet;
    UpdatePendingQuiet(s, key, p);
  }

  ghost predicate PendingOk(h: History, key: NodeKey, ps: seq<Pending>)
    requires Guest(h)
  {
    forall i :: 0 <= i < |ps| && ps[i].PendingAttr? ==> KindOk(h, key, Some(ps[i].attr))
  }

  lemma {:induction false} UpdateAllPendingGentle(h: History, s: Share, key: NodeKey, ps: seq<Pending>)
    requires Guest(h) && PendingOk(h, key, ps)
    ensures Gentle(h, s, UpdateAllPending(s, key, ps))
    decreases |ps|
  {
    hide Guest, Gentle, KindOk;
    if ps == [] {
      GentleNothing(h, s);
    } else {
      var s1 := UpdatePending(s, key, ps[0]);
      UpdatePendingGentle(h, s, key, ps[0]);
      UpdateAllPendingGentle(h, s1, key, ps[1..]);
      GentleThen(h, s, s1, UpdateAllPending(s, key, ps));
    }
  }

  lemma DropPendingGentle(h: History, s: Share, key: NodeKey)
    requires Guest(h)
    ensures Gentle(h, s, s.(pending := s.pending - {key}))
  {
    hide Guest, Quiet;
    PendingQuiet(s, s.pending - {key});
  }

  lemma DrainPendingGentle(h: History, s: Share, key: NodeKey)
    requires Guest(h) && KindsRight(h, s)
    ensures Gentle(h, s, DrainPending(s, key))
  {
    if key in s.pending {
      var s1 := s.(pending := s.pending - {key});
      assert PendingOk(h, key, s.pending[key]) by { hide Guest; }
      hide Guest, Gentle, KindsRight, PendingOk;
      DropPendingGentle(h, s, key);
      UpdateAllPendingGentle(h, s1, key, s.pending[key]);
      GentleThen(h, s, s1, DrainPending(s, key));
    } else {
      hide Guest, Gentle, KindsRight;
      GentleNothing(h, s);
    }
  }

  lemma MarkDirCompleteGentle(h: History, s: Share, key: NodeKey)
    requires Guest(h)
    ensures Gentle(h, s, MarkDirComplete(s, key))
    ensures HasDir(s, key) ==>
              HasDir(MarkDirComplete(s, key), key) && MarkDirComplete(s, key).nodes[key].dir.value.complete
  {
    hide Guest, Quiet;
    MarkDirCompleteQuiet(s, key);
  }

  lemma GentleKinds(h: History, s: Share, s': Share)
    requires Guest(h) && Gentle(h, s, s') && KindsRight(h, s)
    ensures KindsRight(h, s')
  {}

  lemma IntroduceGentle(h: History, s: Share, parent: NodeKey, node: NodeKey, attr: Option<Attr>)
    requires Guest(h) && KindsRight(h, s) && KindOk(h, node, attr)
    ensures Gentle(h, s, Introduce(s, parent, node, attr))
    ensures var s' := Introduce(s, parent, node, attr);
            && node in s'.nodes
            && (AttrKind(attr) == Dir ==> HasDir(s', node) && s'.nodes[node].dir.value.complete)
  {
    IntroduceQuiet(s, parent, node, attr);
    hide Guest, Gentle, KindsRight, Quiet;
    match attr
    case None =>
      assert node !in Last(h).kinds;
      GentleNothing(h, s);
      UpsertNodeGentle(h, s, node, PlaceholderAttr(Reg), parent);
    case Some(a) =>
      var s1 := UpsertNode(s, node, a, parent);
      UpsertNodeGentle(h, s, node, a, parent);
      UpsertNodeQuiet(s, node, a, parent);
      GentleKinds(h, s, s1);
      var s2 := DrainPending(s1, node);
      DrainPendingGentle(h, s1, node);
      DrainPendingQuiet(s1, node);
      QuietKeepsNode(s1, s2, node);
      GentleThen(h, s, s1, s2);
      MarkDirCompleteGentle(h, s2, node);
      GentleThen(h, s, s2, MarkDirComplete(s2, node));
  }

  // ---- the table half of a record --------------------------------------------------------------------

  /** The dentry half before anything is dropped: slot (p, x) takes its new value. */
  ghost predicate Retabled(s: Share, s': Share, p: NodeKey, x: Name, slot: Option<(NodeKey, Kind)>) {
    && SameNodes(s, s')
    && (forall d, y :: Slot(s', d, y) == if (d, y) == (p, x) then slot else Slot(s, d, y))
    && (forall d :: HasDir(s, d) ==> HasDir(s', d) && s'.nodes[d].dir.value.complete == s.nodes[d].dir.value.complete)
  }

  lemma PlacedRetabled(s: Share, p: NodeKey, x: Name, node: NodeKey, kind: Kind)
    requires HasDir(s, p)
    ensures Retabled(s, Placed(s, p, x, node, kind), p, x, Some((node, kind)))
  {
    PlacedSlots(s, p, x, node, kind);
  }

  lemma LinkIncRetabled(s: Share, s': Share, key: NodeKey, p: NodeKey, x: Name, slot: Option<(NodeKey, Kind)>)
    requires Retabled(s, s', p, x, slot)
    ensures Retabled(s, LinkInc(s', key), p, x, slot)
  {
    LinkIncSlots(s', key);
    hide Slot;
  }

  lemma ClearedRetabled(s: Share, p: NodeKey, x: Name)
    requires x in Table(s, p)
    ensures Retabled(s, Cleared(s, p, x), p, x, None)
  {
    ClearedSlots(s, p, x);
  }

  lemma RetabledKinds(h: History, s: Share, s': Share, p: NodeKey, x: Name, slot: Option<(NodeKey, Kind)>)
    requires Guest(h) && Retabled(s, s', p, x, slot) && KindsRight(h, s)
    ensures KindsRight(h, s') && Edited(s, s', p, x) && Slot(s', p, x) == slot
  {
    hide Guest, Slot;
  }

  lemma GentleEdited(h: History, s: Share, s': Share, p: NodeKey, x: Name)
    requires Guest(h) && Gentle(h, s, s')
    ensures Edited(s, s', p, x) && Slot(s', p, x) == Slot(s, p, x)
  {
    hide KindsRight;
    QuietSlots(s, s');
    hide Slot;
  }

  // ---- each record -----------------------------------------------------------------------------------

  /** A name touched again later does not keep the directory made there now. */
  lemma TouchedAgainDies(h: History, i: nat)
    requires Guest(h) && i < |h.ops| && h.ops[i].Make? && h.ops[i].attr.kind == Dir
    requires TouchedFrom(h, i + 1, h.ops[i].parent, h.ops[i].name)
    ensures h.ops[i].node !in Last(h).kinds
  {
    var k := h.ops[i].node;
    if k in Last(h).kinds {
      StatesWellShaped(h, |h.ops|);
      StatesWellShaped(h, i);
      SameRoot(h, i);
      SameRoot(h, |h.ops|);
      assert k != Last(h).root;
      assert Reachable(Last(h), k);
      var path :| Walk(Last(h).dirs, Last(h).root, path) == Some(k);
      var d := FinalParent(h, path, k);
      StepKinds(h.states[i], h.ops[i], k);
      KindSettled(h, i + 1, k);
      NameLasts(h, i + 1, i + 1, d, path[|path| - 1], k);
      FreshNodeHasOneName(h, i, d, path[|path| - 1]);
    }
  }

  /** A lasting directory that an event names something in is known to the replica. */
  lemma ParentKnown(h: History, i: nat, s: Share)
    requires Guest(h) && i < |h.ops| && KindsRight(h, s) && PresentAt(h, i, s)
    ensures h.ops[i].parent in Last(h).dirs ==> HasDir(s, h.ops[i].parent)
  {
    StatesWellShaped(h, i);
    DirsAreKinds(h, |h.ops|, h.ops[i].parent);
    DirsAreKinds(h, i, h.ops[i].parent);
  }

  lemma {:induction false} CreateAccounted(h: History, s: Share, p: NodeKey, x: Name, node: NodeKey, attr: Option<Attr>)
    requires Guest(h) && TablesWellFormed(s) && Accounted(h, s)
    ensures TablesWellFormed(ApplyCreated(s, p, x, node, attr)) && Accounted(h, ApplyCreated(s, p, x, node, attr))
  {
    hide Guest, TablesWellFormed, ApplyCreated, Surplus;
    CreatedBalanced(s, p, x, node, attr);
    BalancedTables(s, ApplyCreated(s, p, x, node, attr));
    hide Balanced;
    forall k | k in Last(h).kinds ensures Surplus(ApplyCreated(s, p, x, node, attr), k) >= 0 {
      CreatedAccount(s, p, x, node, attr, k);
    }
  }

  /** The replica after a create, before a displaced object is dropped. */
  ghost function Before(s: Share, p: NodeKey, x: Name, node: NodeKey, attr: Option<Attr>): Share {
    var s1 := Introduce(s, p, node, attr);
    if !HasDir(s1, p) then s1
    else
      var u := Upsert(s1.nodes[p].dir.value, x, node, AttrKind(attr)).1;
      var s2 := Placed(s1, p, x, node, AttrKind(attr));
      if u.gainedLink then LinkInc(s2, node) else s2
  }

  lemma CreatedCollects(s: Share, p: NodeKey, x: Name, node: NodeKey, attr: Option<Attr>)
    requires TablesWellFormed(s)
    ensures Collected(Before(s, p, x, node, attr), ApplyCreated(s, p, x, node, attr), 0)
  {
    var s1 := Introduce(s, p, node, attr);
    IntroduceQuiet(s, p, node, attr);
    QuietBalanced(s, s1);
    BalancedTables(s, s1);
    hide Introduce, Quiet, Balanced, TablesWellFormed, Collected, LinkDec;
    if HasDir(s1, p) {
      var (v, u) := Upsert(s1.nodes[p].dir.value, x, node, AttrKind(attr));
      var s2 := Placed(s1, p, x, node, AttrKind(attr));
      PlacedBalanced(s1, p, x, node, AttrKind(attr));
      BalancedTables(s1, s2);
      LinkIncBalanced(s2, node);
      BalancedTables(s2, LinkInc(s2, node));
      var s3 := Before(s, p, x, node, attr);
      assert TablesWellFormed(s3);
      match u.displaced
      case None => CollectedNothing(s3);
      case Some(k) => LinkDecCollects(s3, k);
    } else {
      CollectedNothing(s1);
    }
  }

  lemma BeforeEdits(h: History, s: Share, p: NodeKey, x: Name, node: NodeKey, attr: Option<Attr>)
    requires Guest(h) && KindsRight(h, s) && KindOk(h, node, attr)
    ensures var s' := Before(s, p, x, node, attr);
            && KindsRight(h, s') && Edited(s, s', p, x)
            && node in s'.nodes
            && (AttrKind(attr) == Dir ==> HasDir(s', node) && s'.nodes[node].dir.value.complete)
            && (HasDir(s, p) ==> Slot(s', p, x) == Some((node, AttrKind(attr))))
  {
    var s1 := Introduce(s, p, node, attr);
    IntroduceGentle(h, s, p, node, attr);
    GentleEdited(h, s, s1, p, x);
    GentleKinds(h, s, s1);
    assert HasDir(s, p) ==> HasDir(s1, p);
    hide Introduce, Gentle, KindsRight, Guest, KindOk;
    if HasDir(s1, p) {
      var s2 := Placed(s1, p, x, node, AttrKind(attr));
      PlacedRetabled(s1, p, x, node, AttrKind(attr));
      LinkIncRetabled(s1, s2, node, p, x, Some((node, AttrKind(attr))));
      var s3 := Before(s, p, x, node, attr);
      assert s3 == s2 || s3 == LinkInc(s2, node);
      hide Before, Placed, LinkInc, Slot;
      RetabledKinds(h, s1, s3, p, x, Some((node, AttrKind(attr))));
      EditedThen(s, s1, s3, p, x);
    }
  }

  lemma CreateCut(h: History, i: nat, s: Share, rec: Rec)
    requires Guest(h) && i < |h.ops| && Cut(h, i, s) && !h.ops[i].Unlink? && RecordOf(h, i, Some(rec))
    ensures Cut(h, i + 1, ApplyRec(s, rec))
  {
    var op := h.ops[i];
    var p, x := op.parent, op.name;
    StatesWellShaped(h, i);
    StepSlots(h.states[i], op, p, x);
    StepKinds(h.states[i], op, op.node);
    ParentKnown(h, i, s);
    if TouchedFrom(h, i + 1, p, x) {
      if op.Make? && op.attr.kind == Dir { TouchedAgainDies(h, i); }
    } else if op.node in Last(h).kinds {
      KindSettled(h, i + 1, op.node);
    }
    hide Guest, Connected, Ranked, Sound, Legal, FsSlot, TouchedFrom;
    assert KindOk(h, rec.node, rec.attr);
    BeforeEdits(h, s, p, x, rec.node, rec.attr);
    var s1 := Before(s, p, x, rec.node, rec.attr);
    hide Edited, Slot, KindsRight, Accounted, TablesWellFormed;
    EventShown(h, i, s, s1);
    CreatedCollects(s, p, x, rec.node, rec.attr);
    CreateAccounted(h, s, p, x, rec.node, rec.attr);
    CollectKeepsShown(h, i + 1, s1, ApplyCreated(s, p, x, rec.node, rec.attr));
  }

  lemma MissedCut(h: History, i: nat, s: Share)
    requires Guest(h) && i < |h.ops| && Cut(h, i, s) && RecordOf(h, i, None)
    ensures Cut(h, i + 1, s)
  {
    if h.ops[i].Make? && h.ops[i].attr.kind == Dir { TouchedAgainDies(h, i); }
    hide Guest;
    assert Edited(s, s, h.ops[i].parent, h.ops[i].name);
    EventShown(h, i, s, s);
  }

  lemma RemoveAccounted(h: History, s: Share, p: NodeKey, x: Name)
    requires Guest(h) && TablesWellFormed(s) && Accounted(h, s)
    ensures TablesWellFormed(DentryRemove(s, p, x)) && Accounted(h, DentryRemove(s, p, x))
  {
    hide Guest, TablesWellFormed, DentryRemove, Surplus;
    RemovedBalanced(s, p, x);
    BalancedTables(s, DentryRemove(s, p, x));
    hide Balanced;
    forall k | k in Last(h).kinds ensures Surplus(DentryRemove(s, p, x), k) >= 0 {
      RemovedAccount(s, p, x, k);
    }
  }

  lemma RemoveCut(h: History, i: nat, s: Share)
    requires Guest(h) && i < |h.ops| && Cut(h, i, s) && h.ops[i].Unlink?
    ensures Cut(h, i + 1, DentryRemove(s, h.ops[i].parent, h.ops[i].name))
  {
    var p, x := h.ops[i].parent, h.ops[i].name;
    StatesWellShaped(h, i);
    StepSlots(h.states[i], h.ops[i], p, x);
    RemoveAccounted(h, s, p, x);
    hide Guest, Connected, Ranked, Sound, Legal, FsSlot, TouchedFrom, KindsRight, Accounted;
    var s1 := if x in Table(s, p) then Cleared(s, p, x) else s;
    if x in Table(s, p) {
      ClearedRetabled(s, p, x);
      RetabledKinds(h, s, s1, p, x, None);
      ClearedBalanced(s, p, x);
      BalancedTables(s, s1);
      LinkDecCollects(s1, Table(s, p)[x].node);
    } else {
      CollectedNothing(s);
    }
    assert Edited(s, s1, p, x) && Slot(s1, p, x) == None;
    hide Edited, Slot, TablesWellFormed, Cleared, Collected;
    EventShown(h, i, s, s1);
    CollectKeepsShown(h, i + 1, s1, DentryRemove(s, p, x));
  }

  // ---- records beside the names ------------------------------------------------------------------------

  lemma GentleCut(h: History, i: nat, s: Share, s': Share)
    requires Guest(h) && i <= |h.ops| && Cut(h, i, s) && Gentle(h, s, s')
    ensures Cut(h, i, s')
  {
    QuietSlots(s, s');
    forall k | k in Last(h).kinds ensures Surplus(s', k) >= 0 { QuietAccount(s, s', k); }
    hide Guest, Slot, FsSlot, TouchedFrom, Surplus, TablesWellFormed;
  }

  lemma StashGentle(h: History, s: Share, key: NodeKey, p: Pending)
    requires Guest(h) && (p.PendingAttr? ==> KindOk(h, key, Some(p.attr)))
    ensures Gentle(h, s, StashPending(s, key, p))
  {
    hide Guest, Quiet;
    PendingQuiet(s, StashPending(s, key, p).pending);
  }

  lemma ZeroLinksGentle(h: History, s: Share, key: NodeKey)
    requires Guest(h) && key in s.nodes
    ensures var s1 := s.(nodes := s.nodes[key := s.nodes[key].(links := 0)]);
            Retabled(s, s1, key, Name([]), Slot(s, key, Name([])))
  {}

  lemma SelfRemovedAccounted(h: History, s: Share, key: NodeKey)
    requires Guest(h) && TablesWellFormed(s) && Accounted(h, s) && key !in Last(h).kinds && key in s.nodes
    requires key != s.root
    ensures TablesWellFormed(ForceRemove(s, key)) && Accounted(h, ForceRemove(s, key))
  {
    hide Guest, TablesWellFormed, ForceRemove, Surplus;
    ForceRemoveBalanced(s, key);
    BalancedTables(s, ForceRemove(s, key));
    hide Balanced;
    forall k | k in Last(h).kinds ensures Surplus(ForceRemove(s, key), k) >= 0 { ForceRemoveAccount(s, key, k); }
  }

  /** Links alone do not show. */
  lemma RetabledShown(h: History, i: nat, s: Share, s': Share, p: NodeKey, x: Name)
    requires Guest(h) && i <= |h.ops| && Shown(h, i, s) && Retabled(s, s', p, x, Slot(s, p, x))
    ensures Shown(h, i, s')
  {
    RetabledKinds(h, s, s', p, x, Slot(s, p, x));
    hide Guest, Slot, FsSlot, KindsRight, TouchedFrom;
  }

  lemma SelfRemovedCut(h: History, i: nat, s: Share, key: NodeKey)
    requires Guest(h) && i <= |h.ops| && Cut(h, i, s) && key !in Last(h).kinds && key in s.nodes && key != s.root
    ensures Cut(h, i, ForceRemove(s, key))
  {
    hide Guest, Balanced, Collected, TablesWellFormed, RemoveNode, Accounted, Shown, Retabled;
    var s1 := s.(nodes := s.nodes[key := s.nodes[key].(links := 0)]);
    SelfRemovedAccounted(h, s, key);
    ZeroLinks(s, key);
    BalancedTables(s, s1);
    RemoveNodeCollects(s1, key);
    ZeroLinksGentle(h, s, key);
    RetabledShown(h, i, s, s1, key, Name([]));
    CollectKeepsShown(h, i, s1, ForceRemove(s, key));
  }

  lemma AsideCut(h: History, i: nat, s: Share, rec: Rec)
    requires Guest(h) && i <= |h.ops| && Cut(h, i, s) && Aside(h, rec)
    ensures Cut(h, i, ApplyRec(s, rec))
  {
    hide Guest, Cut, Gentle;
    match rec
    case SelfRemoved(k) =>
      if k in s.nodes && k != s.root { SelfRemovedCut(h, i, s, k); }
    case AttrChanged(k, a) =>
      UpdatePendingGentle(h, s, k, PendingAttr(a));
      StashGentle(h, s, k, PendingAttr(a));
      GentleCut(h, i, s, ApplyRec(s, rec));
    case Content(k, v, z, m) =>
      UpdatePendingGentle(h, s, k, PendingContent(v, z, m));
      StashGentle(h, s, k, PendingContent(v, z, m));
      GentleCut(h, i, s, ApplyRec(s, rec));
    case EchoMarker(_) =>
  }

  // ---- the whole replay ----------------------------------------------------------------------------------

  lemma {:induction false} ReplayCut(h: History, i: nat, j: nat, s: Share, items: seq<Item>)
    requires Guest(h) && i <= |h.ops| && Cut(h, i, s) && Tells(h, i, j, items)
    ensures j <= |h.ops| && Cut(h, j, ApplyRecs(s, RecordsOf(items)))
    decreases |items|
  {
    hide Guest, Cut, RecordOf, Aside, ApplyRec;
    if items != [] {
      var rest := RecordsOf(items[1..]);
      match items[0]
      case Change(rec) =>
        var s1 := if rec.Some? then ApplyRec(s, rec.value) else s;
        ChangeCut(h, i, s, rec);
        ReplayCut(h, i + 1, j, s1, items[1..]);
        if rec.Some? { assert RecordsOf(items) == [rec.value] + rest; } else { assert RecordsOf(items) == rest; }
      case Other(rec) =>
        AsideCut(h, i, s, rec);
        ReplayCut(h, i, j, ApplyRec(s, rec), items[1..]);
        assert RecordsOf(items) == [rec] + rest;
    }
  }

  lemma ChangeCut(h: History, i: nat, s: Share, rec: Option<Rec>)
    requires Guest(h) && i < |h.ops| && Cut(h, i, s) && RecordOf(h, i, rec)
    ensures Cut(h, i + 1, if rec.Some? then ApplyRec(s, rec.value) else s)
  {
    hide Cut;
    if !h.ops[i].Unlink? {
      match rec
      case None => MissedCut(h, i, s);
      case Some(r) => CreateCut(h, i, s, r);
    } else {
      assert Plain(h.ops[i]);
      RemoveCut(h, i, s);
    }
  }

  // ---- at the end of the history -------------------------------------------------------------------------

  /** One lookup in the finished replica answers as the guest would. */
  lemma CutLookup(h: History, s: Share, d: NodeKey, n: Name)
    requires Guest(h) && Cut(h, |h.ops|, s) && d in Last(h).kinds
    ensures Lookup(s, d, n) == Entry(Last(h).dirs, d, n)
    ensures Lookup(s, d, n).Some? ==> Lookup(s, d, n).value in Last(h).kinds
    ensures d in s.nodes && s.nodes[d].attr.kind == Last(h).kinds[d]
  {
    var fs := Last(h);
    assert Sound(fs) by { StatesWellShaped(h, |h.ops|); }
    assert s.root == fs.root && KindsRight(h, s) && SlotsAt(h, |h.ops|, s);
    CutPresent(h, s, d);
    assert d in s.nodes && s.nodes[d].attr.kind == fs.kinds[d] && (fs.kinds[d] == Dir <==> s.nodes[d].dir.Some?);
    assert d in fs.dirs ==> Slot(s, d, n) == FsSlot(fs, d, n) by { SettledSlot(h, s, d, n); }
    hide Guest, Cut, KindsRight, PresentAt, SlotsAt;
  }

  /** At the end every object is there: a directory because it lasts, any other because it is named. */
  lemma CutPresent(h: History, s: Share, k: NodeKey)
    requires Guest(h) && Cut(h, |h.ops|, s) && k in Last(h).kinds
    ensures k in s.nodes
  {
    StatesWellShaped(h, |h.ops|);
    if k !in Last(h).dirs {
      assert Reachable(Last(h), k);
      var path :| Walk(Last(h).dirs, Last(h).root, path) == Some(k);
      var d := FinalParent(h, path, k);
      SettledSlot(h, s, d, path[|path| - 1]);
      hide Guest, Surplus;
      NamedIsPresent(s, d, path[|path| - 1], k);
    }
  }

  lemma SettledSlot(h: History, s: Share, d: NodeKey, n: Name)
    requires Guest(h) && SlotsAt(h, |h.ops|, s)
    ensures d in Last(h).dirs ==> Slot(s, d, n) == FsSlot(Last(h), d, n)
  {
    hide Slot, FsSlot;
  }

  lemma {:induction false} CutPaths(h: History, s: Share, from: NodeKey, path: seq<Name>)
    requires Guest(h) && Cut(h, |h.ops|, s) && from in Last(h).kinds
    ensures Resolve(s, from, path) == Walk(Last(h).dirs, from, path)
    ensures Resolve(s, from, path).Some? ==>
              var k := Resolve(s, from, path).value;
              k in Last(h).kinds && k in s.nodes && s.nodes[k].attr.kind == Last(h).kinds[k]
    decreases |path|
  {
    hide Guest, Cut, Lookup, Entry;
    CutLookup(h, s, from, Name([]));
    if path != [] {
      CutLookup(h, s, from, path[0]);
      if Lookup(s, from, path[0]).Some? { CutPaths(h, s, Lookup(s, from, path[0]).value, path[1..]); }
    }
  }
}
