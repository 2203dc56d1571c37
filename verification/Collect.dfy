/** What collection does.  Removing a directory turns its dentries into links still owed; each
    step pays one off.  Counting live and owed dentries together, every count that matters
    stays put. */
module Collection {
  import opened Types
  import opened DirViews
  import opened Replicas

  /** A live dentry: `dir` names `to` as `name`. */
  datatype Edge = Edge(dir: NodeKey, name: Name, to: NodeKey)

  ghost predicate HasEdge(s: Share, e: Edge) {
    e.name in Table(s, e.dir) && Table(s, e.dir)[e.name].node == e.to
  }

  ghost function EdgesOf(d: NodeKey, t: map<Name, Dentry>): set<Edge> {
    set n | n in t :: Edge(d, n, t[n].node)
  }

  ghost function Edges(s: Share): set<Edge> {
    set d, n | d in s.nodes && n in Table(s, d) :: Edge(d, n, Table(s, d)[n].node)
  }

  ghost function Into(es: set<Edge>, k: NodeKey): set<Edge> {
    set e | e in es && e.to == k
  }

  /** How many dentries of the set name `k`. */
  ghost function Refs(es: set<Edge>, k: NodeKey): nat {
    |Into(es, k)|
  }

  ghost function Dirs(s: Share): set<NodeKey> {
    set k | k in s.nodes && s.nodes[k].dir.Some?
  }

  ghost predicate TablesWellFormed(s: Share) {
    forall d :: HasDir(s, d) ==> WellFormed(s.nodes[d].dir.value)
  }

  lemma EdgesAre(s: Share)
    ensures forall e :: e in Edges(s) <==> HasEdge(s, e)
  {}

  lemma RefsAdd(es: set<Edge>, e: Edge, k: NodeKey)
    requires e !in es
    ensures Refs(es + {e}, k) == Refs(es, k) + if e.to == k then 1 else 0
  {
    if e.to == k {
      assert Into(es + {e}, k) == Into(es, k) + {e};
    } else {
      assert Into(es + {e}, k) == Into(es, k);
    }
  }

  lemma RefsSum(a: set<Edge>, b: set<Edge>, k: NodeKey)
    requires a !! b
    ensures Refs(a + b, k) == Refs(a, k) + Refs(b, k)
  {
    assert Into(a + b, k) == Into(a, k) + Into(b, k);
  }

  /** Same nodes with the same tables give the same dentries. */
  lemma EdgesSame(s: Share, s': Share)
    requires s.nodes.Keys == s'.nodes.Keys
    requires forall d :: d in s.nodes ==> Table(s, d) == Table(s', d)
    ensures Edges(s) == Edges(s')
  {}

  lemma EdgesWithoutNode(s: Share, x: NodeKey)
    requires x in s.nodes
    ensures Edges(s) == Edges(WithoutNode(s, x)) + EdgesOf(x, Table(s, x))
    ensures Edges(WithoutNode(s, x)) !! EdgesOf(x, Table(s, x))
  {
    var s1 := WithoutNode(s, x);
    assert forall d :: d != x ==> Table(s1, d) == Table(s, d);
  }

  lemma EdgesOfMinus(d: NodeKey, t: map<Name, Dentry>, n: Name)
    requires n in t
    ensures EdgesOf(d, t) == EdgesOf(d, t - {n}) + {Edge(d, n, t[n].node)}
    ensures Edge(d, n, t[n].node) !in EdgesOf(d, t - {n})
  {
    forall e | e in EdgesOf(d, t) ensures e in EdgesOf(d, t - {n}) + {Edge(d, n, t[n].node)} {
      if e.name != n { assert e.name in t - {n}; }
    }
    forall e | e in EdgesOf(d, t - {n}) ensures e in EdgesOf(d, t) && e.name != n {
      assert e.name in t - {n};
    }
  }

  lemma {:induction false} EdgesOfSize(d: NodeKey, t: map<Name, Dentry>)
    ensures |EdgesOf(d, t)| == |t|
    decreases |t|
  {
    if |t| == 0 {
      assert EdgesOf(d, t) == {};
    } else {
      var n :| n in t;
      var t' := t - {n};
      assert t'.Keys == t.Keys - {n};
      EdgesOfSize(d, t');
      EdgesOfMinus(d, t, n);
    }
  }

  // ---- what survives, whatever the links say ---------------------------------------------

  /** Collection only removes nodes and lowers links; the root stays; each counter keeps its
      distance from the true count.  `owed` dentries have left their table but not the entry
      counter. */
  ghost predicate Collected(s: Share, s': Share, owed: nat) {
    && s'.root == s.root
    && s'.pending == s.pending
    && s'.nodes.Keys <= s.nodes.Keys
    && (forall k :: k in s'.nodes ==> s'.nodes[k] == s.nodes[k].(links := s'.nodes[k].links))
    && (s.root in s.nodes ==> s.root in s'.nodes)
    && (forall k :: k in s'.nodes && k != s.root && s'.nodes[k].links == 0 ==> s.nodes[k].links == 0)
    && s'.nodeCount - |s'.nodes| == s.nodeCount - |s.nodes|
    && s'.dirCount - |Dirs(s')| == s.dirCount - |Dirs(s)|
    && s'.entryCount - |Edges(s')| == s.entryCount - |Edges(s)| - owed
  }

  lemma CollectedThen(s: Share, s1: Share, s2: Share, owed1: nat, owed2: nat)
    requires Collected(s, s1, owed1) && Collected(s1, s2, owed2)
    ensures Collected(s, s2, owed1 + owed2)
  {}

  lemma CollectedNothing(s: Share)
    ensures Collected(s, s, 0)
  {}

  lemma EntryOwed(s: Share)
    ensures Collected(s, s.(entryCount := s.entryCount - 1), 1)
    ensures TablesWellFormed(s) ==> TablesWellFormed(s.(entryCount := s.entryCount - 1))
  {
    var s1 := s.(entryCount := s.entryCount - 1);
    EdgesSame(s, s1);
    assert Dirs(s) == Dirs(s1);
    forall d | HasDir(s1, d) ensures HasDir(s, d) {}
  }

  lemma CollectedKeepsTables(s: Share, s': Share, owed: nat)
    requires Collected(s, s', owed)
    ensures s'.root == s.root && s'.pending == s.pending
    ensures s'.nodes.Keys <= s.nodes.Keys
    ensures TablesWellFormed(s) ==> TablesWellFormed(s')
    ensures forall d :: d in s'.nodes ==> Table(s', d) == Table(s, d)
    ensures Edges(s') <= Edges(s)
  {
    forall d | d in s'.nodes ensures s'.nodes[d].dir == s.nodes[d].dir {}
    EdgesAre(s);
    EdgesAre(s');
  }

  lemma UnlinkedStep(s: Share, key: NodeKey)
    requires key in s.nodes
    requires s.nodes[key].links > 1 || key == s.root
    ensures Collected(s, Unlinked(s, key), 0)
  {
    var s1 := Unlinked(s, key);
    assert s1.nodes.Keys == s.nodes.Keys;
    assert Dirs(s1) == Dirs(s);
    EdgesSame(s, s1);
  }

  lemma WithoutNodeStep(s: Share, key: NodeKey)
    requires key in s.nodes && key != s.root
    ensures var s1, n := WithoutNode(s, key), |Table(s, key)|;
            && s1.entryCount - |Edges(s1)| == s.entryCount - |Edges(s)| + n
            && s1.nodeCount - |s1.nodes| == s.nodeCount - |s.nodes|
            && s1.dirCount - |Dirs(s1)| == s.dirCount - |Dirs(s)|
  {
    var s1 := WithoutNode(s, key);
    assert s1.nodes.Keys == s.nodes.Keys - {key};
    assert Dirs(s1) == Dirs(s) - {key};
    EdgesWithoutNode(s, key);
    EdgesOfSize(key, Table(s, key));
  }

  lemma UnlinkedLast(s: Share, key: NodeKey)
    requires key in s.nodes
    ensures var s1 := Unlinked(s, key);
            Dirs(s1) == Dirs(s) && Edges(s1) == Edges(s) && (TablesWellFormed(s) ==> TablesWellFormed(s1))
  {
    var s1 := Unlinked(s, key);
    assert s1.nodes.Keys == s.nodes.Keys;
    EdgesSame(s, s1);
    forall d | HasDir(s1, d) ensures HasDir(s, d) && s1.nodes[d].dir == s.nodes[d].dir {}
  }

  /** Dropping the last link and then the node is collecting it. */
  lemma LastUnlinkCollects(s: Share, key: NodeKey, s': Share)
    requires key in s.nodes && key != s.root && Collected(Unlinked(s, key), s', 0) && key !in s'.nodes
    ensures Collected(s, s', 0)
  {
    UnlinkedLast(s, key);
    hide Edges, Dirs;
    assert Unlinked(s, key).nodes.Keys == s.nodes.Keys;
  }

  lemma {:induction false} LinkDecCollects(s: Share, key: NodeKey)
    requires TablesWellFormed(s)
    ensures Collected(s, LinkDec(s, key), 0)
    decreases |s.nodes|, 1
  {
    hide TablesWellFormed, Collected, RemoveNode;
    if key !in s.nodes {
      CollectedNothing(s);
    } else {
      var s1 := Unlinked(s, key);
      assert s1.nodes.Keys == s.nodes.Keys;
      if s1.nodes[key].links == 0 && key != s.root {
        UnlinkedLast(s, key);
        RemoveNodeCollects(s1, key);
        LastUnlinkCollects(s, key, RemoveNode(s1, key));
      } else {
        UnlinkedStep(s, key);
      }
    }
  }

  lemma {:induction false} RemoveNodeCollects(s: Share, key: NodeKey)
    requires TablesWellFormed(s)
    requires key != s.root
    ensures Collected(s, RemoveNode(s, key), 0)
    ensures key !in RemoveNode(s, key).nodes
    decreases |s.nodes|, 0
  {
    if key !in s.nodes {
      CollectedNothing(s);
    } else {
      var s1, t := WithoutNode(s, key), Table(s, key);
      assert s1.nodes.Keys == s.nodes.Keys - {key};
      ByCookieWithin(t);
      ByCookieSorts(t);
      WithoutNodeStep(s, key);
      DropLinksCollects(s1, t, ByCookie(t));
    }
  }

  lemma {:induction false} DropLinksCollects(s: Share, t: map<Name, Dentry>, names: seq<Name>)
    requires TablesWellFormed(s)
    requires forall n :: n in names ==> n in t
    ensures Collected(s, DropLinks(s, t, names), |names|)
    decreases |s.nodes|, |names| + 2
  {
    hide Collected, TablesWellFormed, LinkDec;
    if names == [] {
      CollectedNothing(s);
    } else {
      var s1 := s.(entryCount := s.entryCount - 1);
      assert names[0] in names && forall n :: n in names[1..] ==> n in names;
      EntryOwed(s);
      var s2 := LinkDec(s1, t[names[0]].node);
      LinkDecCollects(s1, t[names[0]].node);
      CollectedThen(s, s1, s2, 1, 0);
      CollectedKeepsTables(s, s2, 1);
      DropLinksCollects(s2, t, names[1..]);
      CollectedThen(s, s2, DropLinks(s2, t, names[1..]), 1, |names| - 1);
    }
  }

  // ---- one node's account ----------------------------------------------------------------

  /** Links held less claims on them: the dentries that name `k`, and the links still owed.
      An unknown node holds none, so its account is negative as soon as anything names it. */
  ghost function Account(s: Share, owed: multiset<NodeKey>, k: NodeKey): int {
    (if k in s.nodes then s.nodes[k].links else 0) - Refs(Edges(s), k) - owed[k]
  }

  /** The entry counter is not part of any node's account. */
  lemma AccountsIgnoreEntries(s: Share, owed: multiset<NodeKey>, k: NodeKey)
    ensures Account(s.(entryCount := s.entryCount - 1), owed, k) == Account(s, owed, k)
  {
    EdgesSame(s, s.(entryCount := s.entryCount - 1));
  }

  /** Dropping a link, with all the collection it sets off, balances every sound account. */
  lemma {:induction false} LinkDecBalances(s: Share, key: NodeKey, owed: multiset<NodeKey>, k: NodeKey)
    requires TablesWellFormed(s)
    requires Account(s, owed + multiset{key}, k) >= 0
    ensures Account(LinkDec(s, key), owed, k) == Account(s, owed + multiset{key}, k)
    decreases |s.nodes|, 1
  {
    if key in s.nodes {
      var s1 := Unlinked(s, key);
      assert s1.nodes.Keys == s.nodes.Keys;
      EdgesSame(s, s1);
      if s1.nodes[key].links == 0 && key != s.root {
        RemoveNodeBalances(s1, key, owed, k);
      }
    }
  }

  lemma {:induction false} RemoveNodeBalances(s: Share, x: NodeKey, owed: multiset<NodeKey>, k: NodeKey)
    requires TablesWellFormed(s)
    requires x in s.nodes ==> s.nodes[x].links == 0
    requires Account(s, owed, k) >= 0
    ensures Account(RemoveNode(s, x), owed, k) == Account(s, owed, k)
    decreases |s.nodes|, 0
  {
    if x in s.nodes {
      var s1, t := WithoutNode(s, x), Table(s, x);
      assert s1.nodes.Keys == s.nodes.Keys - {x};
      ByCookieWithin(t);
      EdgesWithoutNode(s, x);
      RefsSum(Edges(s1), EdgesOf(x, t), k);
      TargetsAreRefs(x, t, k);
      DropLinksBalances(s1, t, ByCookie(t), owed, k);
    }
  }

  /** The links a removed directory's dentries held. */
  ghost function Targets(t: map<Name, Dentry>, names: seq<Name>): multiset<NodeKey>
    requires forall n :: n in names ==> n in t
  {
    if names == [] then multiset{} else multiset{t[names[0]].node} + Targets(t, names[1..])
  }

  lemma {:induction false} TargetsWithin(t: map<Name, Dentry>, t': map<Name, Dentry>, names: seq<Name>)
    requires forall n :: n in names ==> n in t && n in t' && t[n] == t'[n]
    ensures Targets(t, names) == Targets(t', names)
  {
    if names != [] { TargetsWithin(t, t', names[1..]); }
  }

  lemma {:induction false} TargetsAreRefs(d: NodeKey, t: map<Name, Dentry>, k: NodeKey)
    ensures forall n :: n in ByCookie(t) ==> n in t
    ensures Targets(t, ByCookie(t))[k] == Refs(EdgesOf(d, t), k)
    decreases |t|
  {
    ByCookieWithin(t);
    if |t| == 0 {
      assert EdgesOf(d, t) == {} && Into(EdgesOf(d, t), k) == {};
    } else {
      var first, rest := ByCookie(t)[0], ByCookie(t)[1..];
      var t' := t - {first};
      assert t'.Keys == t.Keys - {first};
      assert rest == ByCookie(t');
      ByCookieWithin(t');
      TargetsAreRefs(d, t', k);
      TargetsWithin(t, t', rest);
      EdgesOfMinus(d, t, first);
      RefsAdd(EdgesOf(d, t'), Edge(d, first, t[first].node), k);
    }
  }

  lemma {:induction false} DropLinksBalances(s: Share, t: map<Name, Dentry>, names: seq<Name>,
                                             owed: multiset<NodeKey>, k: NodeKey)
    requires TablesWellFormed(s)
    requires forall n :: n in names ==> n in t
    requires Account(s, owed + Targets(t, names), k) >= 0
    ensures Account(DropLinks(s, t, names), owed, k) == Account(s, owed + Targets(t, names), k)
    decreases |s.nodes|, |names| + 2
  {
    hide TablesWellFormed, Collected, Account;
    if names == [] {
      assert owed + Targets(t, names) == owed;
    } else {
      var key, rest := t[names[0]].node, names[1..];
      var o1 := owed + Targets(t, rest);
      assert owed + Targets(t, names) == o1 + multiset{key};
      var s1 := s.(entryCount := s.entryCount - 1);
      EntryOwed(s);
      AccountsIgnoreEntries(s, o1 + multiset{key}, k);
      LinkDecBalances(s1, key, o1, k);
      LinkDecCollects(s1, key);
      CollectedKeepsTables(s1, LinkDec(s1, key), 0);
      DropLinksBalances(LinkDec(s1, key), t, rest, owed, k);
    }
  }
}
