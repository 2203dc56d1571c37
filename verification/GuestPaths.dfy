/** Paths in a history of a plain tree: a directory has one name and one path for as long as it
    lives, so reading a directory by path is reading the same directory, if it is still there. */
module GuestPaths {
  import opened Types
  import opened FileTrees
  import opened GuestHistories

  /** Hard links are of files: a directory has at most one name. */
  ghost predicate DirsNamedOnce(fs: Fs) {
    forall d, x, d', x' :: NamesDir(fs, d, x) && Entry(fs.dirs, d, x) == Entry(fs.dirs, d', x') ==>
      d == d' && x == x'
  }

  ghost predicate NamesDir(fs: Fs, d: NodeKey, x: Name) {
    Entry(fs.dirs, d, x).Some? && Entry(fs.dirs, d, x).value in fs.dirs
  }

  /** Every call keeps it so. */
  lemma StepNamedOnce(fs: Fs, op: Op)
    requires Sound(fs) && DirsNamedOnce(fs) && Legal(fs, op)
    ensures DirsNamedOnce(FileTrees.Apply(fs, op))
  {
    if op.Move? {
      MoveNamedOnce(fs, op);
    } else if Plain(op) {
      PlainNamedOnce(fs, op);
    }
  }

  lemma MoveNamedOnce(fs: Fs, op: Op)
    requires Sound(fs) && DirsNamedOnce(fs) && Legal(fs, op) && op.Move?
    ensures DirsNamedOnce(FileTrees.Apply(fs, op))
  {
    var fs', k := FileTrees.Apply(fs, op), fs.dirs[op.fromParent][op.fromName];
    forall d, x ensures Entry(fs'.dirs, d, x).Some? ==>
        if (d, x) == (op.toParent, op.toName) then Entry(fs'.dirs, d, x) == Some(k)
        else Entry(fs'.dirs, d, x) == Entry(fs.dirs, d, x) && (d, x) != (op.fromParent, op.fromName) {}
    assert Entry(fs.dirs, op.fromParent, op.fromName) == Some(k);
    forall d ensures d in fs'.dirs ==> d in fs.dirs {}
    hide FileTrees.Apply, Legal, Sound;
    forall d, x, d', x' | NamesDir(fs', d, x) && Entry(fs'.dirs, d, x) == Entry(fs'.dirs, d', x')
      ensures d == d' && x == x'
    {
      if (d, x) != (op.toParent, op.toName) {
        assert NamesDir(fs, d, x);
      } else {
        assert NamesDir(fs, op.fromParent, op.fromName);
      }
    }
  }

  lemma PlainNamedOnce(fs: Fs, op: Op)
    requires Sound(fs) && DirsNamedOnce(fs) && Legal(fs, op) && Plain(op)
    ensures DirsNamedOnce(FileTrees.Apply(fs, op))
  {
    var fs' := FileTrees.Apply(fs, op);
    forall d, x ensures Entry(fs'.dirs, d, x).Some? ==>
        Entry(fs'.dirs, d, x) == Entry(fs.dirs, d, x)
        || (!op.Unlink? && d == op.parent && x == op.name && Entry(fs'.dirs, d, x) == Some(op.node)) {}
    forall d, x ensures op.Make? ==> Entry(fs.dirs, d, x) != Some(op.node) {}
    forall k ensures k in fs'.dirs ==> k in fs.dirs || (op.Make? && k == op.node) {}
    assert op.Link? ==> op.node !in fs.dirs;
    hide FileTrees.Apply, Legal, Sound;
  }

  lemma {:induction false} AlwaysNamedOnce(h: History, i: nat)
    requires Guest(h) && DirsNamedOnce(h.states[0]) && i <= |h.ops|
    ensures DirsNamedOnce(h.states[i])
  {
    hide DirsNamedOnce, Sound, Legal, FileTrees.Apply;
    if i > 0 {
      AlwaysNamedOnce(h, i - 1);
      StatesWellShaped(h, i - 1);
      StepNamedOnce(h.states[i - 1], h.ops[i - 1]);
    }
  }

  lemma {:induction false} WalkRanks(fs: Fs, rank: map<NodeKey, nat>, from: NodeKey, path: seq<Name>)
    requires Ranked(fs, rank) && from in rank
    ensures Walk(fs.dirs, from, path).Some? ==>
              Walk(fs.dirs, from, path).value in rank && rank[from] + |path| <= rank[Walk(fs.dirs, from, path).value]
    decreases |path|
  {
    if path != [] && Entry(fs.dirs, from, path[0]).Some? {
      WalkRanks(fs, rank, Entry(fs.dirs, from, path[0]).value, path[1..]);
    }
  }

  lemma LastStep(dirs: map<NodeKey, Entries>, root: NodeKey, path: seq<Name>, k: NodeKey) returns (d: NodeKey)
    requires path != [] && Walk(dirs, root, path) == Some(k)
    ensures Walk(dirs, root, path[..|path| - 1]) == Some(d) && Entry(dirs, d, path[|path| - 1]) == Some(k)
  {
    var q, n := path[..|path| - 1], path[|path| - 1];
    assert path == q + [n];
    WalkSnoc(dirs, root, q, n);
    d := Walk(dirs, root, q).value;
  }

  lemma OnlyEmptyPath(fs: Fs, p: seq<Name>)
    requires WellShaped(fs) && Walk(fs.dirs, fs.root, p) == Some(fs.root)
    ensures p == []
  {
    var rank :| Ranked(fs, rank);
    WalkRanks(fs, rank, fs.root, p);
  }

  lemma {:induction false} WalkUnique(fs: Fs, p: seq<Name>, q: seq<Name>)
    requires WellShaped(fs) && DirsNamedOnce(fs)
    requires Walk(fs.dirs, fs.root, p).Some? && Walk(fs.dirs, fs.root, p) == Walk(fs.dirs, fs.root, q)
    requires Walk(fs.dirs, fs.root, p).value in fs.dirs
    ensures p == q
    decreases |p|
  {
    hide WellShaped;
    var k := Walk(fs.dirs, fs.root, p).value;
    if p == [] || q == [] {
      OnlyEmptyPath(fs, p);
      OnlyEmptyPath(fs, q);
    } else {
      var d := LastStep(fs.dirs, fs.root, p, k);
      var e := LastStep(fs.dirs, fs.root, q, k);
      assert NamesDir(fs, d, p[|p| - 1]);
      assert d == e && p[|p| - 1] == q[|q| - 1];
      hide DirsNamedOnce, Walk, Entry;
      WalkUnique(fs, p[..|p| - 1], q[..|q| - 1]);
      assert p == p[..|p| - 1] + [p[|p| - 1]] && q == q[..|q| - 1] + [q[|q| - 1]];
    }
  }

  lemma NamedIsThere(h: History, i: nat, d: NodeKey, x: Name)
    requires Guest(h) && i <= |h.ops| && Entry(h.states[i].dirs, d, x).Some?
    ensures d in h.states[i].kinds && Entry(h.states[i].dirs, d, x).value in h.states[i].kinds
  {
    StatesWellShaped(h, i);
  }

  /** The final path of a directory leads to it at every moment it is there. */
  lemma {:induction false} PathLasts(h: History, i: nat, j: nat, path: seq<Name>, k: NodeKey)
    requires Guest(h) && i <= j <= |h.ops|
    requires Walk(Last(h).dirs, Last(h).root, path) == Some(k) && k in Last(h).dirs && k in h.states[i].kinds
    ensures Walk(h.states[j].dirs, Last(h).root, path) == Some(k)
    decreases |path|
  {
    hide NeverReused, TouchedFrom, Legal, FileTrees.Apply, Sound, Connected, Ranked;
    if path != [] {
      var q, n := path[..|path| - 1], path[|path| - 1];
      var d := FinalParent(h, path, k);
      NameLasts(h, i, i, d, n, k);
      NameLasts(h, i, j, d, n, k);
      NamedIsThere(h, i, d, n);
      PathLasts(h, i, j, q, d);
      WalkSnoc(h.states[j].dirs, Last(h).root, q, n);
      assert path == q + [n];
    }
  }

  /** And the other way round: where a lasting directory is found is its final path. */
  lemma FoundAtFinalPath(h: History, t: nat, path: seq<Name>, k: NodeKey)
    requires Guest(h) && DirsNamedOnce(h.states[0]) && t <= |h.ops|
    requires Walk(h.states[t].dirs, Last(h).root, path) == Some(k) && k in Last(h).dirs && k in h.states[t].kinds
    ensures Walk(Last(h).dirs, Last(h).root, path) == Some(k)
  {
    StatesWellShaped(h, t);
    StatesWellShaped(h, |h.ops|);
    SameRoot(h, t);
    SameRoot(h, |h.ops|);
    AlwaysNamedOnce(h, t);
    hide NeverReused, DirsNamedOnce, Sound;
    assert Reachable(Last(h), k);
    var p :| Walk(Last(h).dirs, Last(h).root, p) == Some(k);
    PathLasts(h, t, t, p, k);
    KindSettled(h, t, k);
    WalkUnique(h.states[t], p, path);
  }

  /** A lasting directory found under a name keeps that name to the end. */
  lemma FoundUnderFinalName(h: History, t: nat, d: NodeKey, x: Name, k: NodeKey)
    requires Guest(h) && DirsNamedOnce(h.states[0]) && t <= |h.ops|
    requires Entry(h.states[t].dirs, d, x) == Some(k) && k in Last(h).dirs
    ensures Entry(Last(h).dirs, d, x) == Some(k)
  {
    StatesWellShaped(h, t);
    StatesWellShaped(h, |h.ops|);
    SameRoot(h, t);
    SameRoot(h, |h.ops|);
    AlwaysNamedOnce(h, t);
    assert k != Last(h).root by {
      var rank :| Ranked(h.states[t], rank);
      assert Reachable(h.states[t], d);
      var p :| Walk(h.states[t].dirs, h.states[t].root, p) == Some(d);
      WalkRanks(h.states[t], rank, h.states[t].root, p);
    }
    hide NeverReused, Sound;
    assert Reachable(Last(h), k);
    var p :| Walk(Last(h).dirs, Last(h).root, p) == Some(k);
    var e := FinalParent(h, p, k);
    NamedIsThere(h, t, d, x);
    NameLasts(h, t, t, e, p[|p| - 1], k);
    KindSettled(h, t, k);
    assert NamesDir(h.states[t], d, x) by { StatesWellShaped(h, t); }
  }
}
