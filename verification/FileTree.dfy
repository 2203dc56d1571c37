/** A plain file system: what the replica is a replica of. */
module FileTrees {
  import opened Types

  type Entries = map<Name, NodeKey>

  /** `dirs` holds the listing of every directory; `kinds` every object there is. */
  datatype Fs = Fs(root: NodeKey, kinds: map<NodeKey, Kind>, dirs: map<NodeKey, Entries>)

  function Entry(dirs: map<NodeKey, Entries>, d: NodeKey, n: Name): Option<NodeKey> {
    if d in dirs && n in dirs[d] then Some(dirs[d][n]) else None
  }

  function Walk(dirs: map<NodeKey, Entries>, from: NodeKey, path: seq<Name>): Option<NodeKey>
    decreases |path|
  {
    if path == [] then Some(from)
    else match Entry(dirs, from, path[0])
      case None => None
      case Some(k) => Walk(dirs, k, path[1..])
  }

  /** Some path leads from `from` to `k`. */
  ghost predicate Below(dirs: map<NodeKey, Entries>, from: NodeKey, k: NodeKey) {
    exists path :: Walk(dirs, from, path) == Some(k)
  }

  ghost predicate Reachable(fs: Fs, k: NodeKey) {
    Below(fs.dirs, fs.root, k)
  }

  /** Forget what no path from the root reaches. */
  ghost function Prune(fs: Fs): Fs {
    Fs(fs.root,
       map k | k in fs.kinds && Reachable(fs, k) :: fs.kinds[k],
       map d | d in fs.dirs && Reachable(fs, d) :: fs.dirs[d])
  }

  /** The calls a user makes. */
  datatype Op =
    | Make(parent: NodeKey, name: Name, node: NodeKey, attr: Attr)
    | Link(parent: NodeKey, name: Name, node: NodeKey, attr: Attr)
    | Unlink(parent: NodeKey, name: Name)
    | Move(fromParent: NodeKey, fromName: Name, toParent: NodeKey, toName: Name)
    | Write(node: NodeKey, version: nat, size: nat, mtime: Ts)
    | Chmod(node: NodeKey, attr: Attr)

  /** What a file system accepts: fresh objects under free names in known directories, hard links
      to anything but a directory, and moves that neither put a directory inside itself nor land
      on another name of the same object. */
  ghost predicate Legal(fs: Fs, op: Op) {
    match op
    case Make(p, n, k, a) => p in fs.dirs && n !in fs.dirs[p] && k !in fs.kinds
    case Link(p, n, k, a) =>
      p in fs.dirs && n !in fs.dirs[p] && k in fs.kinds && fs.kinds[k] == a.kind != Dir
    case Unlink(p, n) => p in fs.dirs && n in fs.dirs[p]
    case Move(fp, fnm, tp, tnm) =>
      && fp in fs.dirs && fnm in fs.dirs[fp] && tp in fs.dirs
      && (Entry(fs.dirs, tp, tnm) == Some(fs.dirs[fp][fnm]) ==> (fp, fnm) == (tp, tnm))
      && !Below(fs.dirs, fs.dirs[fp][fnm], tp)
    case Write(k, _, _, _) => k in fs.kinds
    case Chmod(k, a) => k in fs.kinds && a.kind == fs.kinds[k]
  }

  function WithName(dirs: map<NodeKey, Entries>, d: NodeKey, n: Name, k: NodeKey): map<NodeKey, Entries>
    requires d in dirs
  {
    dirs[d := dirs[d][n := k]]
  }

  function WithoutName(dirs: map<NodeKey, Entries>, d: NodeKey, n: Name): map<NodeKey, Entries>
    requires d in dirs
  {
    dirs[d := dirs[d] - {n}]
  }

  function Moved(dirs: map<NodeKey, Entries>, fp: NodeKey, fnm: Name, tp: NodeKey, tnm: Name): map<NodeKey, Entries>
    requires fp in dirs && fnm in dirs[fp] && tp in dirs
  {
    WithName(WithoutName(dirs, fp, fnm), tp, tnm, dirs[fp][fnm])
  }

  ghost function Apply(fs: Fs, op: Op): Fs
    requires Legal(fs, op)
  {
    match op
    case Make(p, n, k, a) =>
      var dirs := WithName(fs.dirs, p, n, k);
      Fs(fs.root, fs.kinds[k := a.kind], if a.kind == Dir then dirs[k := map[]] else dirs)
    case Link(p, n, k, _) => fs.(dirs := WithName(fs.dirs, p, n, k))
    case Unlink(p, n) => Prune(fs.(dirs := WithoutName(fs.dirs, p, n)))
    case Move(fp, fnm, tp, tnm) => Prune(fs.(dirs := Moved(fs.dirs, fp, fnm, tp, tnm)))
    case Write(_, _, _, _) => fs
    case Chmod(_, _) => fs
  }

  /** The journal record the guest emits for a call. */
  function RecOf(op: Op): Rec {
    match op
    case Make(p, n, k, a) => Created(p, n, k, Some(a))
    case Link(p, n, k, a) => Created(p, n, k, Some(a))
    case Unlink(p, n) => Removed(p, n)
    case Move(fp, fnm, tp, tnm) => Renamed(fp, fnm, tp, tnm)
    case Write(k, version, size, mtime) => Content(k, version, size, mtime)
    case Chmod(k, a) => AttrChanged(k, a)
  }

  // ---- shape ---------------------------------------------------------------------------------

  ghost predicate Sound(fs: Fs) {
    && fs.root in fs.dirs
    && (forall k :: k in fs.dirs <==> k in fs.kinds && fs.kinds[k] == Dir)
    && (forall d, n :: d in fs.dirs && n in fs.dirs[d] ==> fs.dirs[d][n] in fs.kinds)
  }

  /** Every listing only points to higher ranks, so no directory is inside itself. */
  ghost predicate Ranked(fs: Fs, rank: map<NodeKey, nat>) {
    && rank.Keys == fs.kinds.Keys
    && forall d, n :: d in fs.dirs && n in fs.dirs[d] ==>
         d in rank && fs.dirs[d][n] in rank && rank[d] < rank[fs.dirs[d][n]]
  }

  ghost predicate Connected(fs: Fs) {
    forall k :: k in fs.kinds ==> Reachable(fs, k)
  }

  ghost predicate WellShaped(fs: Fs) {
    Sound(fs) && Connected(fs) && exists rank :: Ranked(fs, rank)
  }

  lemma {:induction false} WalkSnoc(dirs: map<NodeKey, Entries>, from: NodeKey, path: seq<Name>, n: Name)
    ensures Walk(dirs, from, path + [n])
         == match Walk(dirs, from, path) case None => None case Some(d) => Entry(dirs, d, n)
    decreases |path|
  {
    if path == [] {
      assert path + [n] == [n];
    } else {
      assert (path + [n])[1..] == path[1..] + [n];
      match Entry(dirs, from, path[0])
      case None =>
      case Some(k) => WalkSnoc(dirs, k, path[1..], n);
    }
  }

  lemma BelowStep(dirs: map<NodeKey, Entries>, from: NodeKey, d: NodeKey, n: Name)
    requires Below(dirs, from, d) && d in dirs && n in dirs[d]
    ensures Below(dirs, from, dirs[d][n])
  {
    var path :| Walk(dirs, from, path) == Some(d);
    WalkSnoc(dirs, from, path, n);
    assert Walk(dirs, from, path + [n]) == Some(dirs[d][n]);
  }

  lemma BelowSelf(dirs: map<NodeKey, Entries>, k: NodeKey)
    ensures Below(dirs, k, k)
  {
    assert Walk(dirs, k, []) == Some(k);
  }

  /** Any property of the start that every listing passes on holds of all a path reaches. */
  lemma {:induction false} WalkKeeps(dirs: map<NodeKey, Entries>, from: NodeKey, path: seq<Name>, good: set<NodeKey>)
    requires from in good
    requires forall d, n :: d in good && d in dirs && n in dirs[d] ==> dirs[d][n] in good
    ensures Walk(dirs, from, path).Some? ==> Walk(dirs, from, path).value in good
    decreases |path|
  {
    if path != [] {
      match Entry(dirs, from, path[0])
      case None =>
      case Some(k) => WalkKeeps(dirs, k, path[1..], good);
    }
  }

  /** Pruning loses no path. */
  lemma {:induction false} PruneWalk(fs: Fs, from: NodeKey, path: seq<Name>)
    requires Reachable(fs, from)
    ensures Walk(Prune(fs).dirs, from, path) == Walk(fs.dirs, from, path)
    decreases |path|
  {
    if path != [] {
      assert Entry(Prune(fs).dirs, from, path[0]) == Entry(fs.dirs, from, path[0]);
      match Entry(fs.dirs, from, path[0])
      case None =>
      case Some(k) =>
        BelowStep(fs.dirs, fs.root, from, path[0]);
        PruneWalk(fs, k, path[1..]);
    }
  }

  lemma PruneShape(fs: Fs, rank: map<NodeKey, nat>)
    requires Sound(fs) && Ranked(fs, rank)
    ensures WellShaped(Prune(fs))
  {
    var p := Prune(fs);
    BelowSelf(fs.dirs, fs.root);
    forall d, n | d in p.dirs && n in p.dirs[d] ensures p.dirs[d][n] in p.kinds {
      BelowStep(fs.dirs, fs.root, d, n);
    }
    forall k | k in p.kinds ensures Reachable(p, k) {
      var path :| Walk(fs.dirs, fs.root, path) == Some(k);
      PruneWalk(fs, fs.root, path);
      assert Walk(p.dirs, p.root, path) == Some(k);
    }
    var rank' := map k | k in p.kinds :: rank[k];
    assert Ranked(p, rank');
  }

  /** The ranks after a move: everything below the moved object goes above its new parent. */
  lemma MovedRanked(fs: Fs, rank: map<NodeKey, nat>, fp: NodeKey, fnm: Name, tp: NodeKey, tnm: Name)
    returns (rank': map<NodeKey, nat>)
    requires Sound(fs) && Ranked(fs, rank)
    requires fp in fs.dirs && fnm in fs.dirs[fp] && tp in fs.dirs
    requires !Below(fs.dirs, fs.dirs[fp][fnm], tp)
    ensures Ranked(fs.(dirs := Moved(fs.dirs, fp, fnm, tp, tnm)), rank')
  {
    var x := fs.dirs[fp][fnm];
    BelowSelf(fs.dirs, x);
    rank' := map k | k in rank :: if Below(fs.dirs, x, k) then rank[k] + rank[tp] + 1 else rank[k];
    var dirs' := Moved(fs.dirs, fp, fnm, tp, tnm);
    forall d, n | d in dirs' && n in dirs'[d]
      ensures d in rank' && dirs'[d][n] in rank' && rank'[d] < rank'[dirs'[d][n]]
    {
      if !(d == tp && n == tnm) {
        assert d in fs.dirs && n in fs.dirs[d] && dirs'[d][n] == fs.dirs[d][n];
        if Below(fs.dirs, x, d) { BelowStep(fs.dirs, x, d, n); }
      }
    }
  }

  lemma ApplyKeepsShape(fs: Fs, op: Op)
    requires WellShaped(fs) && Legal(fs, op)
    ensures WellShaped(Apply(fs, op))
  {
    var rank :| Ranked(fs, rank);
    assert forall k :: k in fs.dirs <==> k in fs.kinds && fs.kinds[k] == Dir;
    hide Sound, Connected, Ranked, Prune, Below, WellShaped;
    match op
    case Make(p, n, k, a) => GrowKeepsShape(fs, rank, Apply(fs, op), p, n, k);
    case Link(p, n, k, _) => GrowKeepsShape(fs, rank, Apply(fs, op), p, n, k);
    case Unlink(p, n) =>
      CutKeepsRank(fs, rank, p, n);
      PruneShape(fs.(dirs := WithoutName(fs.dirs, p, n)), rank);
    case Move(fp, fnm, tp, tnm) =>
      var rank' := MovedRanked(fs, rank, fp, fnm, tp, tnm);
      MovedSound(fs, fp, fnm, tp, tnm);
      PruneShape(fs.(dirs := Moved(fs.dirs, fp, fnm, tp, tnm)), rank');
    case Write(_, _, _, _) =>
    case Chmod(_, _) =>
  }

  lemma CutKeepsRank(fs: Fs, rank: map<NodeKey, nat>, p: NodeKey, n: Name)
    requires Sound(fs) && Ranked(fs, rank) && p in fs.dirs
    ensures Sound(fs.(dirs := WithoutName(fs.dirs, p, n))) && Ranked(fs.(dirs := WithoutName(fs.dirs, p, n)), rank)
  {}

  lemma MovedSound(fs: Fs, fp: NodeKey, fnm: Name, tp: NodeKey, tnm: Name)
    requires Sound(fs) && fp in fs.dirs && fnm in fs.dirs[fp] && tp in fs.dirs
    ensures Sound(fs.(dirs := Moved(fs.dirs, fp, fnm, tp, tnm)))
  {
    var dirs' := Moved(fs.dirs, fp, fnm, tp, tnm);
    assert dirs'.Keys == fs.dirs.Keys;
    forall d, n | d in dirs' && n in dirs'[d] ensures dirs'[d][n] in fs.kinds {
      if !(d == tp && n == tnm) { assert n in fs.dirs[d]; }
    }
  }

  /** Adding one name keeps every old path. */
  lemma {:induction false} GrowWalk(dirs: map<NodeKey, Entries>, dirs': map<NodeKey, Entries>, from: NodeKey,
                                    path: seq<Name>)
    requires forall d, n :: Entry(dirs, d, n).Some? ==> Entry(dirs', d, n) == Entry(dirs, d, n)
    requires Walk(dirs, from, path).Some?
    ensures Walk(dirs', from, path) == Walk(dirs, from, path)
    decreases |path|
  {
    if path != [] {
      assert Entry(dirs, from, path[0]).Some?;
      GrowWalk(dirs, dirs', Entry(dirs, from, path[0]).value, path[1..]);
    }
  }

  /** `fs'` is `fs` with the new name `n` in `p` for `k`, which may itself be new. */
  ghost predicate Grown(fs: Fs, fs': Fs, p: NodeKey, n: Name, k: NodeKey) {
    && p in fs.dirs && n !in fs.dirs[p] && k !in fs.dirs
    && fs'.root == fs.root && fs'.kinds.Keys == fs.kinds.Keys + {k}
    && (forall j :: j in fs.kinds ==> fs'.kinds[j] == fs.kinds[j])
    && fs'.dirs == if fs'.kinds[k] == Dir then WithName(fs.dirs, p, n, k)[k := map[]] else WithName(fs.dirs, p, n, k)
  }

  lemma GrownSound(fs: Fs, fs': Fs, p: NodeKey, n: Name, k: NodeKey)
    requires Sound(fs) && Grown(fs, fs', p, n, k)
    ensures Sound(fs')
  {}

  lemma GrownRanked(fs: Fs, rank: map<NodeKey, nat>, fs': Fs, p: NodeKey, n: Name, k: NodeKey)
    requires Sound(fs) && Ranked(fs, rank) && Grown(fs, fs', p, n, k)
    ensures Ranked(fs', rank[k := (if k in rank then rank[k] else 0) + rank[p] + 1])
  {
    var rank' := rank[k := (if k in rank then rank[k] else 0) + rank[p] + 1];
    forall d, m | d in fs'.dirs && m in fs'.dirs[d]
      ensures d in rank' && fs'.dirs[d][m] in rank' && rank'[d] < rank'[fs'.dirs[d][m]]
    {
      assert d != k;
      if !(d == p && m == n) { assert m in fs.dirs[d]; }
    }
  }

  lemma GrownEntries(fs: Fs, fs': Fs, p: NodeKey, n: Name, k: NodeKey)
    requires Grown(fs, fs', p, n, k)
    ensures forall d, m :: Entry(fs.dirs, d, m).Some? ==> Entry(fs'.dirs, d, m) == Entry(fs.dirs, d, m)
    ensures p != k ==> Entry(fs'.dirs, p, n) == Some(k)
  {}

  lemma GrownConnected(fs: Fs, fs': Fs, p: NodeKey, n: Name, k: NodeKey)
    requires Connected(fs) && p in fs.kinds && Grown(fs, fs', p, n, k)
    ensures Connected(fs')
  {
    GrownEntries(fs, fs', p, n, k);
    hide Walk;
    forall j | j in fs'.kinds ensures Reachable(fs', j) {
      var path :| Walk(fs.dirs, fs.root, path) == Some(if j in fs.kinds then j else p);
      GrowWalk(fs.dirs, fs'.dirs, fs.root, path);
      WalkSnoc(fs'.dirs, fs'.root, path, n);
      assert Walk(fs'.dirs, fs'.root, if j in fs.kinds then path else path + [n]) == Some(j);
    }
  }

  lemma GrowKeepsShape(fs: Fs, rank: map<NodeKey, nat>, fs': Fs, p: NodeKey, n: Name, k: NodeKey)
    requires Sound(fs) && Connected(fs) && Ranked(fs, rank) && Grown(fs, fs', p, n, k)
    ensures WellShaped(fs')
  {
    assert p in fs.kinds;
    hide Sound, Connected, Ranked, Grown;
    GrownSound(fs, fs', p, n, k);
    GrownRanked(fs, rank, fs', p, n, k);
    GrownConnected(fs, fs', p, n, k);
  }

  // ---- histories -----------------------------------------------------------------------------

  ghost predicate LegalRun(fs: Fs, ops: seq<Op>)
    decreases |ops|
  {
    ops == [] || (Legal(fs, ops[0]) && LegalRun(Apply(fs, ops[0]), ops[1..]))
  }

  ghost function ApplyAll(fs: Fs, ops: seq<Op>): Fs
    requires LegalRun(fs, ops)
    decreases |ops|
  {
    if ops == [] then fs else ApplyAll(Apply(fs, ops[0]), ops[1..])
  }

  function RecsOf(ops: seq<Op>): seq<Rec>
    decreases |ops|
  {
    if ops == [] then [] else [RecOf(ops[0])] + RecsOf(ops[1..])
  }
}
