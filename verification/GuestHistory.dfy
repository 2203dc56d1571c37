/** A guest file system changing while it is being walked: creates, hard links, and removes with
    everything below, in one order of events.  (Writes and attribute changes leave the tree alone.) */
module GuestHistories {
  import opened Types
  import opened FileTrees
  import opened Refinement

  /** The file system after each event, starting with the state when buffering began. */
  datatype History = History(states: seq<Fs>, ops: seq<Op>)

  predicate Plain(op: Op) {
    op.Make? || op.Link? || op.Unlink?
  }

  ghost predicate Happened(h: History) {
    && |h.states| == |h.ops| + 1
    && WellShaped(h.states[0])
    && (forall i :: 0 <= i < |h.ops| ==>
          Plain(h.ops[i]) && Legal(h.states[i], h.ops[i]) && h.states[i + 1] == FileTrees.Apply(h.states[i], h.ops[i]))
  }

  /** Node keys are never reused. */
  ghost predicate NeverReused(h: History)
    requires |h.states| == |h.ops| + 1
  {
    forall i, j :: 0 <= i <= j < |h.ops| && h.ops[j].Make? ==> h.ops[j].node !in h.states[i].kinds
  }

  ghost predicate Guest(h: History) {
    Happened(h) && NeverReused(h)
  }

  ghost function Last(h: History): Fs
    requires Guest(h)
  {
    h.states[|h.ops|]
  }

  /** This event names or unnames slot (d, x). */
  predicate Touches(op: Op, d: NodeKey, x: Name) {
    Plain(op) && op.parent == d && op.name == x
  }

  ghost predicate TouchedFrom(h: History, i: nat, d: NodeKey, x: Name) {
    exists j :: i <= j < |h.ops| && Touches(h.ops[j], d, x)
  }

  lemma {:induction false} StatesWellShaped(h: History, i: nat)
    requires Guest(h) && i <= |h.ops|
    ensures WellShaped(h.states[i])
  {
    if i > 0 {
      StatesWellShaped(h, i - 1);
      ApplyKeepsShape(h.states[i - 1], h.ops[i - 1]);
    }
  }

  lemma {:induction false} SameRoot(h: History, i: nat)
    requires Guest(h) && i <= |h.ops|
    ensures h.states[i].root == h.states[0].root
  {
    if i > 0 { SameRoot(h, i - 1); }
  }

  // ---- one event -----------------------------------------------------------------------------

  /** What one plain event does to a slot: a touched slot takes its new value, any other slot keeps
      its old one as long as its directory lives. */
  lemma StepSlots(fs: Fs, op: Op, d: NodeKey, x: Name)
    requires Sound(fs) && Legal(fs, op) && Plain(op)
    ensures var fs' := FileTrees.Apply(fs, op);
            && (!Touches(op, d, x) && (d in fs'.dirs || d !in fs.dirs) ==> FsSlot(fs', d, x) == FsSlot(fs, d, x))
            && (Touches(op, d, x) && !op.Unlink? ==> FsSlot(fs', d, x) == Some((op.node, op.attr.kind)))
            && (Touches(op, d, x) && op.Unlink? ==> FsSlot(fs', d, x) == None)
  {
    match op
    case Make(p, n, k, a) =>
    case Link(p, n, k, a) =>
    case Unlink(p, n) =>
      var cut := fs.(dirs := WithoutName(fs.dirs, p, n));
      if d in Prune(cut).dirs && x in Prune(cut).dirs[d] { BelowStep(cut.dirs, cut.root, d, x); }
  }

  /** Objects come only by being made, and never change kind. */
  lemma StepKinds(fs: Fs, op: Op, k: NodeKey)
    requires Sound(fs) && Legal(fs, op) && Plain(op)
    ensures var fs' := FileTrees.Apply(fs, op);
            && (k in fs'.kinds && k !in fs.kinds ==> op.Make? && op.node == k)
            && (k in fs'.kinds && k in fs.kinds ==> fs'.kinds[k] == fs.kinds[k])
            && (op.Make? ==> op.node in fs'.kinds && fs'.kinds[op.node] == op.attr.kind)
            && (!op.Unlink? && k in fs.kinds ==> k in fs'.kinds)
  {}

  // ---- what lasts to the end lasts throughout ----------------------------------------------------

  lemma {:induction false} NeverReturns(h: History, i: nat, j: nat, m: nat, k: NodeKey)
    requires Guest(h) && i <= j <= m <= |h.ops|
    requires k in h.states[i].kinds && k !in h.states[j].kinds
    ensures k !in h.states[m].kinds
    decreases m
  {
    hide Sound, Connected, Ranked, Legal, FileTrees.Apply;
    if j < m {
      NeverReturns(h, i, j, m - 1, k);
      StatesWellShaped(h, m - 1);
      StepKinds(h.states[m - 1], h.ops[m - 1], k);
    }
  }

  /** An object there at two moments is there, with the same kind, at every moment between. */
  lemma {:induction false} Lasts(h: History, i: nat, j: nat, k: NodeKey)
    requires Guest(h) && i <= j <= |h.ops|
    requires k in h.states[i].kinds && k in Last(h).kinds
    ensures k in h.states[j].kinds && h.states[j].kinds[k] == h.states[i].kinds[k]
    decreases j
  {
    hide Sound, Connected, Ranked, Legal, FileTrees.Apply;
    if i < j {
      Lasts(h, i, j - 1, k);
      if k !in h.states[j].kinds { NeverReturns(h, i, j, |h.ops|, k); }
      StatesWellShaped(h, j - 1);
      StepKinds(h.states[j - 1], h.ops[j - 1], k);
    }
  }

  lemma KindSettled(h: History, i: nat, k: NodeKey)
    requires Guest(h) && i <= |h.ops|
    requires k in h.states[i].kinds && k in Last(h).kinds
    ensures h.states[i].kinds[k] == Last(h).kinds[k]
  {
    Lasts(h, i, |h.ops|, k);
  }

  /** The name of a directory in the final tree, if the directory was already there at moment `i`, has
      been there untouched since then. */
  lemma {:induction false} NameLasts(h: History, i: nat, j: nat, d: NodeKey, x: Name, k: NodeKey)
    requires Guest(h) && i <= j <= |h.ops|
    requires Entry(Last(h).dirs, d, x) == Some(k) && k in Last(h).dirs && k in h.states[i].kinds
    ensures Entry(h.states[j].dirs, d, x) == Some(k) && !TouchedFrom(h, j, d, x)
    decreases |h.ops| - j
  {
    hide Connected, Ranked, FileTrees.Apply;
    if j < |h.ops| {
      NameLasts(h, i, j + 1, d, x, k);
      var fs, op := h.states[j], h.ops[j];
      StatesWellShaped(h, j);
      StatesWellShaped(h, j + 1);
      StatesWellShaped(h, |h.ops|);
      assert FsSlot(h.states[j + 1], d, x).Some?;
      StepSlots(fs, op, d, x);
      Lasts(h, i, j, k);
      KindSettled(h, i, k);
      forall m | j <= m < |h.ops| ensures !Touches(h.ops[m], d, x) {
        if m > j { assert !TouchedFrom(h, j + 1, d, x); }
      }
    }
  }

  /** A lasting directory's untouched slot never changes. */
  lemma {:induction false} UntouchedSlot(h: History, i: nat, d: NodeKey, x: Name)
    requires Guest(h) && i <= |h.ops|
    requires d in Last(h).dirs && !TouchedFrom(h, i, d, x)
    ensures FsSlot(h.states[i], d, x) == FsSlot(Last(h), d, x)
    decreases |h.ops| - i
  {
    if i < |h.ops| {
      UntouchedSlot(h, i + 1, d, x);
      assert !Touches(h.ops[i], d, x);
      DirLasts(h, i, d);
      StatesWellShaped(h, i);
      StepSlots(h.states[i], h.ops[i], d, x);
    }
  }

  lemma DirLasts(h: History, i: nat, d: NodeKey)
    requires Guest(h) && i < |h.ops| && d in Last(h).dirs
    ensures d in h.states[i].dirs ==> d in h.states[i + 1].dirs
  {
    StatesWellShaped(h, i);
    StatesWellShaped(h, i + 1);
    StatesWellShaped(h, |h.ops|);
    if d in h.states[i].dirs { Lasts(h, i, i + 1, d); }
  }

  /** A lasting object has a parent in the final tree, one path step closer to the root. */
  lemma FinalParent(h: History, path: seq<Name>, k: NodeKey) returns (d: NodeKey)
    requires Guest(h) && path != [] && Walk(Last(h).dirs, Last(h).root, path) == Some(k)
    ensures Walk(Last(h).dirs, Last(h).root, path[..|path| - 1]) == Some(d)
    ensures Entry(Last(h).dirs, d, path[|path| - 1]) == Some(k)
  {
    var q, n := path[..|path| - 1], path[|path| - 1];
    assert path == q + [n];
    WalkSnoc(Last(h).dirs, Last(h).root, q, n);
    d := Walk(Last(h).dirs, Last(h).root, q).value;
  }

  lemma FreshNodeHasOneName(h: History, i: nat, d: NodeKey, x: Name)
    requires Guest(h) && i < |h.ops| && h.ops[i].Make?
    requires Entry(h.states[i + 1].dirs, d, x) == Some(h.ops[i].node)
    ensures Touches(h.ops[i], d, x)
  {
    StatesWellShaped(h, i);
    StepSlots(h.states[i], h.ops[i], d, x);
  }
}
