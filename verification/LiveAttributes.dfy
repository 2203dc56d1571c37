/** What live records do to attributes: the guest's last word stands, but for what the host took for its own
    changes, and a foreign change to a directory's names moves its times. */
module LiveAttributes {
  import opened Types
  import opened DirViews
  import opened Replicas
  import opened Collection
  import opened ReplicaInvariants
  import opened ReplicaRuns
  import opened FileTrees
  import opened Refinement
  import opened Attributes
  import opened LiveReplicas
  import A = Assemblies

  // ---- one record, whatever the replica holds ---------------------------------------------------------

  /** A live content record.  About a node the host has just changed itself it does nothing; otherwise a known file
      has the size, time and version of the record, and an unknown one waits for its record. */
  lemma LiveContent(s: Share, k: NodeKey, version: nat, size: nat, mtime: Ts, dirty: set<NodeKey>)
    ensures var s' := A.LiveRec(s, Content(k, version, size, mtime), dirty);
            && (k in dirty ==> s' == s)
            && (k !in dirty && k in s.nodes ==>
                  && s' == s.(nodes := s.nodes[k := s'.nodes[k]])
                  && s'.nodes[k] == s.nodes[k].(attr := s.nodes[k].attr.(
                       size := size, mtime := mtime, contentVersion := version)))
            && (k !in dirty && k !in s.nodes && Room(s, k) ==>
                  s'.nodes == s.nodes && Waiting(s', k) == Waiting(s, k) + [PendingContent(version, size, mtime)])
  {
    NoNudges(s, Content(k, version, size, mtime), dirty);
    if k !in s.nodes && Room(s, k) { StashOne(s, k, PendingContent(version, size, mtime)); }
  }

  /** A live attribute record, likewise; the content version belongs to content records. */
  lemma LiveAttr(s: Share, k: NodeKey, a: Attr, dirty: set<NodeKey>)
    ensures var s' := A.LiveRec(s, AttrChanged(k, a), dirty);
            && (k in dirty ==> s' == s)
            && (k !in dirty && k in s.nodes ==>
                  && s' == s.(nodes := s.nodes[k := s'.nodes[k]])
                  && s'.nodes[k] == s.nodes[k].(attr := a.(contentVersion := s.nodes[k].attr.contentVersion)))
            && (k !in dirty && k !in s.nodes && Room(s, k) ==>
                  s'.nodes == s.nodes && Waiting(s', k) == Waiting(s, k) + [PendingAttr(a)])
  {
    NoNudges(s, AttrChanged(k, a), dirty);
    if k !in s.nodes && Room(s, k) { StashOne(s, k, PendingAttr(a)); }
  }

  lemma NoNudges(s: Share, rec: Rec, dirty: set<NodeKey>)
    requires rec.Content? || rec.AttrChanged?
    ensures A.LiveRec(s, rec, dirty)
         == if (rec.Content? || rec.AttrChanged?) && rec.node in dirty then s else ApplyRec(s, rec)
  {}

  /** Exactly these directories, where they are known, have later times than before. */
  ghost predicate Nudged(s: Share, s': Share, ds: set<NodeKey>) {
    && s' == s.(nodes := s'.nodes) && s'.nodes.Keys == s.nodes.Keys
    && forall k :: k in s.nodes ==>
         if k in ds && s.nodes[k].attr.kind == Dir
         then && Earlier(s.nodes[k].attr.mtime, s'.nodes[k].attr.mtime)
              && var t := s'.nodes[k].attr.mtime;
                 s'.nodes[k] == s.nodes[k].(attr := s.nodes[k].attr.(mtime := t, ctime := t))
         else s'.nodes[k] == s.nodes[k]
  }

  lemma BumpNothing(s: Share)
    ensures Nudged(s, A.BumpAll(s, []), {})
  {}

  lemma BumpOne(s: Share, d: NodeKey)
    ensures Nudged(s, A.BumpAll(s, [d]), {d})
  {
    assert [d][1..] == [];
    assert A.BumpAll(s, [d]) == A.BumpAll(BumpDirAttr(s, d), []);
  }

  lemma BumpTwo(s: Share, d: NodeKey, e: NodeKey)
    ensures Nudged(s, A.BumpAll(s, [d, e]), {d, e})
  {
    assert [d, e][1..] == [e] && [e][1..] == [];
    var s1 := BumpDirAttr(s, d);
    assert A.BumpAll(s, [d, e]) == A.BumpAll(s1, [e]) == A.BumpAll(BumpDirAttr(s1, e), []);
  }

  /** Whose times a live record moves, beside what the record itself does: the directory of a name that a foreign
      object got or lost, and both directories of a rename between two the host has not just changed. */
  lemma LiveMovesTimes(s: Share, rec: Rec, dirty: set<NodeKey>)
    ensures var s1, s' := ApplyRec(s, rec), A.LiveRec(s, rec, dirty);
            match rec
            case Created(p, _, k, _) => Nudged(s1, s', if k in dirty then {} else {p})
            case CreatedBatch(p, es) => Nudged(s1, s', if es != [] && es[0].node in dirty then {} else {p})
            case Removed(p, n) =>
              var k := Lookup(s, p, n);
              Nudged(s1, s', if k.Some? && k.value in s.nodes && k.value in dirty then {} else {p})
            case Renamed(fp, _, tp, _) => Nudged(s1, s', if fp in dirty || tp in dirty then {} else {fp, tp})
            case Content(k, _, _, _) => s' == if k in dirty then s else s1
            case AttrChanged(k, _) => s' == if k in dirty then s else s1
            case _ => s' == s1
  {
    var s1 := ApplyRec(s, rec);
    hide ApplyRec, Nudged;
    BumpNothing(s1);
    match rec
    case Created(p, _, _, _) => BumpOne(s1, p);
    case CreatedBatch(p, _) => BumpOne(s1, p);
    case Removed(p, _) => BumpOne(s1, p);
    case Renamed(fp, _, tp, _) => BumpTwo(s1, fp, tp);
    case _ =>
  }

  // ---- along a history ---------------------------------------------------------------------------------

  /** A directory's times, one nanosecond on. */
  function Tick(t: Ts): Ts {
    if t.nsec >= 999_999_999 then Ts(t.sec + 1, 0) else Ts(t.sec, t.nsec + 1)
  }

  function Nudge(attrs: Attrs, d: NodeKey): Attrs {
    if d in attrs && attrs[d].kind == Dir then
      attrs[d := attrs[d].(mtime := Tick(attrs[d].mtime), ctime := Tick(attrs[d].mtime))]
    else attrs
  }

  /** What the host should say after a call of the guest, given the objects it has just changed itself. */
  ghost function Heard(fs: Fs, attrs: Attrs, op: Op, dirty: set<NodeKey>): Attrs
    requires Legal(fs, op)
  {
    match op
    case Make(p, _, k, a) => if k in dirty then attrs[k := a] else Nudge(attrs[k := a], p)
    case Link(p, _, k, _) => if k in dirty then Stated(attrs, op) else Nudge(Stated(attrs, op), p)
    case Unlink(p, n) => if fs.dirs[p][n] in dirty then attrs else Nudge(attrs, p)
    case Move(fp, _, tp, _) => if fp in dirty || tp in dirty then attrs else Nudge(Nudge(attrs, fp), tp)
    case Write(k, _, _, _) => if k in dirty then attrs else Stated(attrs, op)
    case Chmod(k, _) => if k in dirty then attrs else Stated(attrs, op)
  }

  lemma TickIs(t: Ts)
    requires t.nsec < 1_000_000_000
    ensures Tick(t).nsec < 1_000_000_000
    ensures Tick(t).sec * 1_000_000_000 + Tick(t).nsec == t.sec * 1_000_000_000 + t.nsec + 1
  {}

  lemma NudgeAgrees(attrs: Attrs, s: Share, d: NodeKey)
    requires Agrees(attrs, s)
    ensures Agrees(Nudge(attrs, d), BumpDirAttr(s, d))
  {}

  /** A nudge changes nothing that the tree is made of. */
  lemma BumpRefines(fs: Fs, s: Share, d: NodeKey)
    requires Refines(fs, s)
    ensures Refines(fs, BumpDirAttr(s, d))
  {
    var s' := BumpDirAttr(s, d);
    BumpMovesOn(s, d);
    BumpMirrors(fs, s, d);
    QuietBalanced(s, s');
    hide Mirrors, Quiet, TablesWellFormed, BumpDirAttr, Surplus, Balanced;
    BalancedTables(s, s');
    forall j ensures Surplus(s', j) == 0 {
      assert Surplus(s, j) == 0;
      QuietAccount(s, s', j);
    }
  }

  lemma BumpMirrors(fs: Fs, s: Share, d: NodeKey)
    requires Mirrors(fs, s)
    ensures Mirrors(fs, BumpDirAttr(s, d)) && BumpDirAttr(s, d).pending == s.pending
  {
    var s' := BumpDirAttr(s, d);
    assert s'.nodes.Keys == s.nodes.Keys;
    forall e, n ensures Slot(s', e, n) == Slot(s, e, n) { assert Table(s', e) == Table(s, e); }
    hide Slot, FsSlot;
  }

  /** The replica is up to date, and says of each object what it should. */
  ghost predicate Follows(fs: Fs, attrs: Attrs, s: Share) {
    Refines(fs, s) && Agrees(attrs, s)
  }

  lemma NudgeFollows(fs: Fs, attrs: Attrs, s: Share, d: NodeKey)
    requires Follows(fs, attrs, s)
    ensures Follows(fs, Nudge(attrs, d), BumpDirAttr(s, d))
  {
    hide Refines;
    BumpRefines(fs, s, d);
    NudgeAgrees(attrs, s, d);
  }

  /** What a live record is, by the call it comes from. */
  lemma LiveRecIs(fs: Fs, s: Share, op: Op, dirty: set<NodeKey>)
    requires Sound(fs) && Mirrors(fs, s) && Legal(fs, op)
    ensures var s1, s' := ApplyRec(s, RecOf(op)), A.LiveRec(s, RecOf(op), dirty);
            match op
            case Make(p, _, k, _) => s' == if k in dirty then s1 else BumpDirAttr(s1, p)
            case Link(p, _, k, _) => s' == if k in dirty then s1 else BumpDirAttr(s1, p)
            case Unlink(p, n) => s' == if fs.dirs[p][n] in dirty then s1 else BumpDirAttr(s1, p)
            case Move(fp, _, tp, _) =>
              s' == if fp in dirty || tp in dirty then s1 else BumpDirAttr(BumpDirAttr(s1, fp), tp)
            case Write(k, _, _, _) => s' == if k in dirty then s else s1
            case Chmod(k, _) => s' == if k in dirty then s else s1
  {
    if op.Unlink? { UnlinkKnown(fs, s, op.parent, op.name); }
    var s1 := ApplyRec(s, RecOf(op));
    hide ApplyRec, BumpDirAttr, Mirrors, Sound, Below;
    BumpLists(s1, if op.Move? then op.fromParent else s.root, if op.Move? then op.toParent else s.root);
    if op.Make? || op.Link? || op.Unlink? { BumpLists(s1, op.parent, op.parent); }
  }

  lemma UnlinkKnown(fs: Fs, s: Share, p: NodeKey, n: Name)
    requires Sound(fs) && Mirrors(fs, s) && p in fs.dirs && n in fs.dirs[p]
    ensures Lookup(s, p, n) == Some(fs.dirs[p][n]) && fs.dirs[p][n] in s.nodes
  {
    assert Slot(s, p, n) == FsSlot(fs, p, n);
  }

  lemma BumpLists(s: Share, d: NodeKey, e: NodeKey)
    ensures A.BumpAll(s, []) == s
    ensures A.BumpAll(s, [d]) == BumpDirAttr(s, d)
    ensures A.BumpAll(s, [d, e]) == BumpDirAttr(BumpDirAttr(s, d), e)
  {
    hide BumpDirAttr;
    assert [d, e][1..] == [e] && [e][1..] == [] && [d][1..] == [];
    var s1 := BumpDirAttr(s, d);
    assert A.BumpAll(s, [d]) == A.BumpAll(s1, []);
    assert A.BumpAll(s1, [e]) == A.BumpAll(BumpDirAttr(s1, e), []);
    assert A.BumpAll(s, [d, e]) == A.BumpAll(s1, [e]);
  }

  lemma LiveStepFollows(fs: Fs, attrs: Attrs, s: Share, op: Op, dirty: set<NodeKey>)
    requires WellShaped(fs) && Follows(fs, attrs, s) && Legal(fs, op)
    ensures Follows(FileTrees.Apply(fs, op), Heard(fs, attrs, op, dirty), A.LiveRec(s, RecOf(op), dirty))
  {
    var fs', s1 := FileTrees.Apply(fs, op), ApplyRec(s, RecOf(op));
    StepRefines(fs, s, op);
    StepAttrs(fs, s, attrs, op);
    LiveRecIs(fs, s, op, dirty);
    assert (op.Write? || op.Chmod?) ==> fs' == fs;
    assert !(op.Write? || op.Chmod?) ==> Follows(fs', Stated(attrs, op), s1);
    hide Refines, Agrees, WellShaped, Legal, FileTrees.Apply, ApplyRec, BumpDirAttr, Nudge;
    match op
    case Make(p, _, _, _) => NudgeFollows(fs', Stated(attrs, op), s1, p);
    case Link(p, _, _, _) => NudgeFollows(fs', Stated(attrs, op), s1, p);
    case Unlink(p, _) => NudgeFollows(fs', attrs, s1, p);
    case Move(fp, _, tp, _) =>
      NudgeFollows(fs', attrs, s1, fp);
      NudgeFollows(fs', Nudge(attrs, fp), BumpDirAttr(s1, fp), tp);
    case Write(_, _, _, _) =>
    case Chmod(_, _) =>
  }

  ghost function HeardAll(fs: Fs, attrs: Attrs, ops: seq<Op>, dirty: seq<set<NodeKey>>): Attrs
    requires LegalRun(fs, ops) && |dirty| == |ops|
    decreases |ops|
  {
    if ops == [] then attrs
    else HeardAll(FileTrees.Apply(fs, ops[0]), Heard(fs, attrs, ops[0], dirty[0]), ops[1..], dirty[1..])
  }

  lemma {:induction false} RecsLen(ops: seq<Op>)
    ensures |RecsOf(ops)| == |ops|
    decreases |ops|
  {
    if ops != [] { RecsLen(ops[1..]); }
  }

  /** Every legal history applied live, with any set of objects taken for the host's own at each record: the served
      replica is the guest's tree, each object's attributes are what the guest last stated in a record that was not
      taken for the host's own, and a directory's times have moved on with every foreign change to its names. */
  lemma {:induction false} LiveAttributesFollow(fs: Fs, attrs: Attrs, s: Share, ops: seq<Op>, dirty: seq<set<NodeKey>>)
    requires WellShaped(fs) && Follows(fs, attrs, s) && LegalRun(fs, ops) && |dirty| == |ops|
    ensures |RecsOf(ops)| == |ops|
    ensures Follows(ApplyAll(fs, ops), HeardAll(fs, attrs, ops, dirty), LiveReplay(s, RecsOf(ops), dirty))
    decreases |ops|
  {
    hide WellShaped, Follows, A.LiveRec, FileTrees.Apply, Legal, Heard;
    RecsLen(ops);
    if ops != [] {
      LiveStepFollows(fs, attrs, s, ops[0], dirty[0]);
      ApplyKeepsShape(fs, ops[0]);
      LiveAttributesFollow(FileTrees.Apply(fs, ops[0]), Heard(fs, attrs, ops[0], dirty[0]),
                           A.LiveRec(s, RecOf(ops[0]), dirty[0]), ops[1..], dirty[1..]);
      assert RecsOf(ops)[1..] == RecsOf(ops[1..]);
    }
  }
}
