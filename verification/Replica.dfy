/** The host's replica of one share, as a value: what each snapshot or journal record does to
    the node map, the link counts and the counters. */
module Replicas {
  import opened Types
  import opened DirViews

  /** A record that arrived before the node it talks about. */
  datatype Pending = PendingAttr(attr: Attr) | PendingContent(version: nat, size: nat, mtime: Ts)

  /** `links` counts the dentries naming this node; `dir` is present for a directory. */
  datatype Node = Node(attr: Attr, parent: NodeKey, links: nat, dir: Option<DirView>)

  datatype Share = Share(
    root: NodeKey,
    nodes: map<NodeKey, Node>,
    pending: map<NodeKey, seq<Pending>>,
    nodeCount: int,
    dirCount: int,
    entryCount: int)

  const MAX_PENDING := 65536

  function NewShare(root: NodeKey): Share {
    Share(root, map[], map[], 0, 0, 0)
  }

  predicate HasDir(s: Share, k: NodeKey) {
    k in s.nodes && s.nodes[k].dir.Some?
  }

  function Table(s: Share, d: NodeKey): map<Name, Dentry> {
    if HasDir(s, d) then s.nodes[d].dir.value.table else map[]
  }

  // ---- nodes ---------------------------------------------------------------------------

  /** Attributes replace each other; the content version belongs to Content records. */
  function SetAttr(n: Node, a: Attr): Node {
    n.(attr := a.(contentVersion := n.attr.contentVersion))
  }

  function UpsertNode(s: Share, key: NodeKey, attr: Attr, parent: NodeKey): Share {
    if key in s.nodes then
      var n := SetAttr(s.nodes[key], attr).(parent := parent);
      if attr.kind == Dir && n.dir.None? then
        s.(nodes := s.nodes[key := n.(dir := Some(EMPTY))], dirCount := s.dirCount + 1)
      else
        s.(nodes := s.nodes[key := n])
    else if attr.kind == Dir then
      s.(nodes := s.nodes[key := Node(attr, parent, 0, Some(EMPTY))],
         nodeCount := s.nodeCount + 1, dirCount := s.dirCount + 1)
    else
      s.(nodes := s.nodes[key := Node(attr, parent, 0, None)], nodeCount := s.nodeCount + 1)
  }

  function UpdateAttr(s: Share, key: NodeKey, attr: Attr): Share {
    if key in s.nodes then s.(nodes := s.nodes[key := SetAttr(s.nodes[key], attr)]) else s
  }

  function UpdateContent(s: Share, key: NodeKey, version: nat, size: nat, mtime: Ts): Share {
    if key in s.nodes then
      var n := s.nodes[key];
      s.(nodes := s.nodes[key := n.(attr := n.attr.(size := size, mtime := mtime, contentVersion := version))])
    else
      s
  }

  function UpdatePending(s: Share, key: NodeKey, p: Pending): Share {
    match p
    case PendingAttr(a) => UpdateAttr(s, key, a)
    case PendingContent(version, size, mtime) => UpdateContent(s, key, version, size, mtime)
  }

  function StashPending(s: Share, key: NodeKey, p: Pending): Share {
    var pend := if |s.pending| >= MAX_PENDING then map[] else s.pending;
    s.(pending := pend[key := (if key in pend then pend[key] else []) + [p]])
  }

  function UpdateAllPending(s: Share, key: NodeKey, ps: seq<Pending>): Share
    decreases |ps|
  {
    if ps == [] then s else UpdateAllPending(UpdatePending(s, key, ps[0]), key, ps[1..])
  }

  function DrainPending(s: Share, key: NodeKey): Share {
    if key in s.pending then
      UpdateAllPending(s.(pending := s.pending - {key}), key, s.pending[key])
    else
      s
  }

  function SetDir(s: Share, d: NodeKey, v: DirView): Share
    requires d in s.nodes
  {
    s.(nodes := s.nodes[d := s.nodes[d].(dir := Some(v))])
  }

  function MarkDirComplete(s: Share, key: NodeKey): Share {
    if HasDir(s, key) then SetDir(s, key, s.nodes[key].dir.value.(complete := true)) else s
  }

  // ---- links and collection ------------------------------------------------------------

  function LinkInc(s: Share, key: NodeKey): Share {
    if key in s.nodes then
      s.(nodes := s.nodes[key := s.nodes[key].(links := s.nodes[key].links + 1)])
    else
      s
  }

  function Unlinked(s: Share, key: NodeKey): Share
    requires key in s.nodes
  {
    var links := s.nodes[key].links;
    s.(nodes := s.nodes[key := s.nodes[key].(links := if links == 0 then 0 else links - 1)])
  }

  /** Drop one link; a node other than the root goes when its last link goes. */
  ghost function LinkDec(s: Share, key: NodeKey): (r: Share)
    ensures |r.nodes| <= |s.nodes|
    decreases |s.nodes|, 1
  {
    if key !in s.nodes then s
    else
      var s1 := Unlinked(s, key);
      assert s1.nodes.Keys == s.nodes.Keys;
      if s1.nodes[key].links == 0 && key != s.root then RemoveNode(s1, key) else s1
  }

  /** Take a node out, then drop the links its own dentries held, in cookie order. */
  ghost function RemoveNode(s: Share, key: NodeKey): (r: Share)
    ensures |r.nodes| <= |s.nodes|
    decreases |s.nodes|, 0
  {
    if key !in s.nodes then s
    else
      var s1 := WithoutNode(s, key);
      assert s1.nodes.Keys == s.nodes.Keys - {key};
      var t := Table(s, key);
      ByCookieWithin(t);
      DropLinks(s1, t, ByCookie(t))
  }

  function WithoutNode(s: Share, key: NodeKey): Share
    requires key in s.nodes
  {
    s.(nodes := s.nodes - {key},
       nodeCount := s.nodeCount - 1,
       dirCount := s.dirCount - (if s.nodes[key].dir.Some? then 1 else 0))
  }

  ghost function DropLinks(s: Share, t: map<Name, Dentry>, names: seq<Name>): (r: Share)
    requires forall n :: n in names ==> n in t
    ensures |r.nodes| <= |s.nodes|
    decreases |s.nodes|, |names| + 2
  {
    if names == [] then s
    else
      DropLinks(LinkDec(s.(entryCount := s.entryCount - 1), t[names[0]].node), t, names[1..])
  }

  // ---- dentries ------------------------------------------------------------------------

  ghost function DropDisplaced(s: Share, displaced: Option<NodeKey>): Share {
    match displaced
    case None => s
    case Some(k) => LinkDec(s, k)
  }

  /** Put a dentry into a known directory; an unknown parent drops it. */
  ghost function DentrySet(s: Share, parent: NodeKey, name: Name, node: NodeKey, kind: Kind): Share {
    if !HasDir(s, parent) then s
    else
      var (v, u) := Upsert(s.nodes[parent].dir.value, name, node, kind);
      var s1 := SetDir(s, parent, v).(entryCount := s.entryCount + u.delta);
      var s2 := if u.gainedLink then LinkInc(s1, node) else s1;
      DropDisplaced(s2, u.displaced)
  }

  ghost function DentryRemove(s: Share, parent: NodeKey, name: Name): Share {
    if name !in Table(s, parent) then s
    else
      var (v, k) := Remove(s.nodes[parent].dir.value, name);
      LinkDec(SetDir(s, parent, v).(entryCount := s.entryCount - 1), Table(s, parent)[name].node)
  }

  /** Take a dentry away but keep the link it stood for: the first half of a rename. */
  function DentryTake(s: Share, parent: NodeKey, name: Name): (Share, Option<(NodeKey, Kind)>) {
    if name !in Table(s, parent) then (s, None)
    else
      var v := s.nodes[parent].dir.value;
      (SetDir(s, parent, Remove(v, name).0).(entryCount := s.entryCount - 1), Get(v, name))
  }

  /** The second half: the moved node brings its link with it; a clobbered node loses its own. */
  ghost function DentryRelink(s: Share, parent: NodeKey, name: Name, node: NodeKey, kind: Kind): Share {
    if !HasDir(s, parent) then s
    else
      var (v, u) := Upsert(s.nodes[parent].dir.value, name, node, kind);
      var s1 := SetDir(s, parent, v).(entryCount := s.entryCount + u.delta);
      SetParent(DropDisplaced(s1, u.displaced), node, parent)
  }

  function SetParent(s: Share, key: NodeKey, parent: NodeKey): Share {
    if key in s.nodes then s.(nodes := s.nodes[key := s.nodes[key].(parent := parent)]) else s
  }

  // ---- records -------------------------------------------------------------------------

  function PlaceholderAttr(kind: Kind): Attr {
    Attr(kind, if kind == Dir then 0x1ed else 0x1a4, 1, 0, 0, 0, 0, Ts(0, 0), Ts(0, 0), 0)
  }

  function AttrKind(attr: Option<Attr>): Kind {
    if attr.Some? then attr.value.kind else Reg
  }

  /** The node half of a Created record. */
  function Introduce(s: Share, parent: NodeKey, node: NodeKey, attr: Option<Attr>): Share {
    var s1 := match attr
      case Some(a) => DrainPending(UpsertNode(s, node, a, parent), node)
      case None => if node in s.nodes then s else UpsertNode(s, node, PlaceholderAttr(Reg), parent);
    if AttrKind(attr) == Dir then MarkDirComplete(s1, node) else s1
  }

  ghost function ApplyCreated(s: Share, parent: NodeKey, name: Name, node: NodeKey, attr: Option<Attr>): Share {
    DentrySet(Introduce(s, parent, node, attr), parent, name, node, AttrKind(attr))
  }

  ghost function ApplyCreatedAll(s: Share, parent: NodeKey, es: seq<SnapEntry>): Share
    decreases |es|
  {
    if es == [] then s
    else ApplyCreatedAll(ApplyCreated(s, parent, es[0].name, es[0].node, Some(es[0].attr)), parent, es[1..])
  }

  ghost function ApplyRenamed(s: Share, fromParent: NodeKey, fromName: Name, toParent: NodeKey, toName: Name): Share {
    var (s1, moved) := DentryTake(s, fromParent, fromName);
    match moved
    case None => s1
    case Some((node, kind)) => DentryRelink(s1, toParent, toName, node, kind)
  }

  ghost function ApplyRec(s: Share, rec: Rec): Share {
    match rec
    case Created(parent, name, node, attr) => ApplyCreated(s, parent, name, node, attr)
    case CreatedBatch(parent, es) => ApplyCreatedAll(s, parent, es)
    case Removed(parent, name) => DentryRemove(s, parent, name)
    case Renamed(fp, fnm, tp, tnm) => ApplyRenamed(s, fp, fnm, tp, tnm)
    case AttrChanged(node, attr) =>
      if node in s.nodes then UpdateAttr(s, node, attr) else StashPending(s, node, PendingAttr(attr))
    case Content(node, version, size, mtime) =>
      if node in s.nodes then UpdateContent(s, node, version, size, mtime)
      else StashPending(s, node, PendingContent(version, size, mtime))
    case SelfRemoved(node) =>
      if node in s.nodes && node != s.root then ForceRemove(s, node) else s
    case Overflow => s
    case EchoMarker(_) => s
  }

  ghost function ForceRemove(s: Share, key: NodeKey): Share
    requires key in s.nodes
  {
    RemoveNode(s.(nodes := s.nodes[key := s.nodes[key].(links := 0)]), key)
  }

  ghost function ApplyRecs(s: Share, recs: seq<Rec>): Share
    decreases |recs|
  {
    if recs == [] then s else ApplyRecs(ApplyRec(s, recs[0]), recs[1..])
  }

  function NeedsResync(rec: Rec): bool {
    rec.Overflow?
  }

  /** A namespace change moves its directory's times forward by one nanosecond. */
  function BumpDirAttr(s: Share, d: NodeKey): Share {
    if d in s.nodes && s.nodes[d].attr.kind == Dir then
      var a := s.nodes[d].attr;
      var t := if a.mtime.nsec >= 999_999_999 then Ts(a.mtime.sec + 1, 0) else Ts(a.mtime.sec, a.mtime.nsec + 1);
      s.(nodes := s.nodes[d := s.nodes[d].(attr := a.(mtime := t, ctime := t))])
    else
      s
  }

  // ---- snapshot records ----------------------------------------------------------------

  function UpsertEntryNodes(s: Share, parent: NodeKey, es: seq<SnapEntry>): Share
    decreases |es|
  {
    if es == [] then s else UpsertEntryNodes(UpsertNode(s, es[0].node, es[0].attr, parent), parent, es[1..])
  }

  /** What one directory's table becomes, and the link changes it asks for. */
  datatype Listed = Listed(view: DirView, delta: int, link: seq<NodeKey>, unlink: seq<NodeKey>)

  function ListEntry(l: Listed, e: SnapEntry): Listed {
    var (v, u) := Upsert(l.view, e.name, e.node, e.attr.kind);
    Listed(v, l.delta + u.delta,
           if u.gainedLink then l.link + [e.node] else l.link,
           if u.displaced.Some? then l.unlink + [u.displaced.value] else l.unlink)
  }

  function ListEntries(l: Listed, es: seq<SnapEntry>): Listed
    decreases |es|
  {
    if es == [] then l else ListEntries(ListEntry(l, es[0]), es[1..])
  }

  function LinkIncAll(s: Share, ks: seq<NodeKey>): Share
    decreases |ks|
  {
    if ks == [] then s else LinkIncAll(LinkInc(s, ks[0]), ks[1..])
  }

  ghost function LinkDecAll(s: Share, ks: seq<NodeKey>): Share
    decreases |ks|
  {
    if ks == [] then s else LinkDecAll(LinkDec(s, ks[0]), ks[1..])
  }

  function FillDir(s: Share, d: NodeKey, l: Listed, last: bool): Share
    requires HasDir(s, d)
  {
    SetDir(s, d, l.view.(complete := l.view.complete || last)).(entryCount := s.entryCount + l.delta)
  }

  /** One snapshot record: the directory, its children, then its dentries; link changes are
      made once the table is done. */
  ghost function ApplySnapDir(s: Share, r: SnapDir): Share
    requires r.dirAttr.kind == Dir
  {
    var s0 := UpsertNode(s, r.dir, r.dirAttr, r.parent);
    UpsertsKeepDir(s0, r.dir, r.entries, r.dir);
    var s1 := UpsertEntryNodes(s0, r.dir, r.entries);
    var l := ListEntries(Listed(s1.nodes[r.dir].dir.value, 0, [], []), r.entries);
    LinkDecAll(LinkIncAll(FillDir(s1, r.dir, l, r.last), l.link), l.unlink)
  }

  lemma {:induction false} UpsertsKeepDir(s: Share, parent: NodeKey, es: seq<SnapEntry>, d: NodeKey)
    requires HasDir(s, d)
    ensures HasDir(UpsertEntryNodes(s, parent, es), d)
    ensures UpsertEntryNodes(s, parent, es).nodes[d].dir == s.nodes[d].dir
    decreases |es|
  {
    if es != [] { UpsertsKeepDir(UpsertNode(s, es[0].node, es[0].attr, parent), parent, es[1..], d); }
  }

  ghost function ApplySnapDirs(s: Share, rs: seq<SnapDir>): Share
    requires forall i :: 0 <= i < |rs| ==> rs[i].dirAttr.kind == Dir
    decreases |rs|
  {
    if rs == [] then s else ApplySnapDirs(ApplySnapDir(s, rs[0]), rs[1..])
  }

  // ---- path lookup ---------------------------------------------------------------------

  function Lookup(s: Share, d: NodeKey, name: Name): Option<NodeKey> {
    if name in Table(s, d) then Some(Table(s, d)[name].node) else None
  }

  /** Walk a path from a node, one directory lookup per component. */
  function Resolve(s: Share, from: NodeKey, path: seq<Name>): Option<NodeKey>
    decreases |path|
  {
    if path == [] then
      if from in s.nodes then Some(from) else None
    else
      match Lookup(s, from, path[0])
      case None => None
      case Some(k) => Resolve(s, k, path[1..])
  }
}
