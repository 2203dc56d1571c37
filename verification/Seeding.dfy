/** Assembling a snapshot whose pieces were read at different moments: what lasts through the
    whole history is in place before the replay begins. */
module Seeding {
  import opened Types
  import opened DirViews
  import opened Replicas
  import opened Collection
  import opened ReplicaInvariants
  import opened ReplicaRuns
  import opened FileTrees
  import opened Refinement
  import opened GuestHistories
  import opened ConsistentCuts

  // ---- collection never enters a sealed set --------------------------------------------------------

  /** Nothing outside `safe` names anything inside. */
  ghost predicate Sealed(s: Share, safe: set<NodeKey>) {
    forall d, n :: n in Table(s, d) && Table(s, d)[n].node in safe ==> d in safe
  }

  ghost predicate Spared(s: Share, s': Share, safe: set<NodeKey>) {
    && (forall k :: k in safe && k in s.nodes ==> k in s'.nodes && s'.nodes[k] == s.nodes[k])
    && (forall d :: d in s'.nodes ==> d in s.nodes && s'.nodes[d].dir == s.nodes[d].dir)
  }

  lemma SparedThen(s: Share, s1: Share, s2: Share, safe: set<NodeKey>)
    requires Spared(s, s1, safe) && Spared(s1, s2, safe)
    ensures Spared(s, s2, safe)
  {}

  lemma SparedNothing(s: Share, safe: set<NodeKey>)
    ensures Spared(s, s, safe)
  {}

  lemma SparedSealed(s: Share, s': Share, safe: set<NodeKey>)
    requires Spared(s, s', safe) && Sealed(s, safe)
    ensures Sealed(s', safe)
  {
    forall d, n | n in Table(s', d) && Table(s', d)[n].node in safe ensures d in safe {
      assert Table(s', d) == Table(s, d);
    }
  }

  lemma {:induction false} LinkDecSpares(s: Share, key: NodeKey, safe: set<NodeKey>)
    requires Sealed(s, safe) && key !in safe
    ensures Spared(s, LinkDec(s, key), safe)
    decreases |s.nodes|, 1
  {
    if key in s.nodes {
      var s1 := Unlinked(s, key);
      assert s1.nodes.Keys == s.nodes.Keys;
      assert Spared(s, s1, safe);
      SparedSealed(s, s1, safe);
      if s1.nodes[key].links == 0 && key != s.root {
        hide Spared, Sealed;
        RemoveNodeSpares(s1, key, safe);
        SparedThen(s, s1, LinkDec(s, key), safe);
      }
    }
  }

  lemma {:induction false} RemoveNodeSpares(s: Share, key: NodeKey, safe: set<NodeKey>)
    requires Sealed(s, safe) && key !in safe
    ensures Spared(s, RemoveNode(s, key), safe)
    decreases |s.nodes|, 0
  {
    if key in s.nodes {
      var s1, t := WithoutNode(s, key), Table(s, key);
      assert s1.nodes.Keys == s.nodes.Keys - {key};
      assert Spared(s, s1, safe);
      SparedSealed(s, s1, safe);
      ByCookieWithin(t);
      assert forall n :: n in t ==> t[n].node !in safe;
      hide Spared, Sealed;
      DropLinksSpares(s1, t, ByCookie(t), safe);
      SparedThen(s, s1, RemoveNode(s, key), safe);
    }
  }

  lemma {:induction false} DropLinksSpares(s: Share, t: map<Name, Dentry>, names: seq<Name>, safe: set<NodeKey>)
    requires Sealed(s, safe) && (forall n :: n in names ==> n in t && t[n].node !in safe)
    ensures Spared(s, DropLinks(s, t, names), safe)
    decreases |s.nodes|, |names| + 2
  {
    if names != [] {
      var s1 := s.(entryCount := s.entryCount - 1);
      assert Spared(s, s1, safe);
      SparedSealed(s, s1, safe);
      var s2 := LinkDec(s1, t[names[0]].node);
      LinkDecSpares(s1, t[names[0]].node, safe);
      SparedSealed(s1, s2, safe);
      hide Spared, Sealed;
      SparedThen(s, s1, s2, safe);
      DropLinksSpares(s2, t, names[1..], safe);
      SparedThen(s, s2, DropLinks(s, t, names), safe);
    }
  }

  lemma {:induction false} LinkDecAllSpares(s: Share, ks: seq<NodeKey>, safe: set<NodeKey>)
    requires TablesWellFormed(s) && Sealed(s, safe) && (forall i :: 0 <= i < |ks| ==> ks[i] !in safe)
    ensures Spared(s, LinkDecAll(s, ks), safe) && Collected(s, LinkDecAll(s, ks), 0)
    decreases |ks|
  {
    hide Spared, Sealed, TablesWellFormed, Collected, LinkDec;
    if ks == [] {
      SparedNothing(s, safe);
      CollectedNothing(s);
    } else {
      var s1 := LinkDec(s, ks[0]);
      LinkDecSpares(s, ks[0], safe);
      SparedSealed(s, s1, safe);
      LinkDecCollects(s, ks[0]);
      CollectedKeepsTables(s, s1, 0);
      LinkDecAllSpares(s1, ks[1..], safe);
      SparedThen(s, s1, LinkDecAll(s, ks), safe);
      CollectedThen(s, s1, LinkDecAll(s, ks), 0, 0);
    }
  }

  // ---- entries that tell the truth about what lasts -------------------------------------------------

  /** Directories there before the first event and still there after the last. */
  ghost function Steady(h: History): set<NodeKey>
    requires Guest(h)
  {
    set k | k in h.states[0].dirs && k in Last(h).dirs
  }

  /** A lasting directory's untouched slot is told right, and a steady directory is only ever found
      under a name it keeps. */
  ghost predicate Admissible(h: History, d: NodeKey, x: Name, slot: (NodeKey, Kind))
    requires Guest(h)
  {
    && (d in Last(h).dirs && !TouchedFrom(h, 0, d, x) ==> Some(slot) == FsSlot(h.states[0], d, x))
    && (slot.0 in Steady(h) ==> Entry(Last(h).dirs, d, x) == Some(slot.0))
  }

  ghost predicate AllAdmissible(h: History, s: Share)
    requires Guest(h)
  {
    forall d, x :: Slot(s, d, x).Some? ==> Admissible(h, d, x, Slot(s, d, x).value)
  }

  /** The name of a steady directory is in a steady directory, untouched from the start. */
  lemma SteadyName(h: History, d: NodeKey, x: Name, k: NodeKey)
    requires Guest(h) && k in Steady(h) && Entry(Last(h).dirs, d, x) == Some(k)
    ensures d in Steady(h) && d in Last(h).dirs && d in h.states[0].dirs
    ensures !TouchedFrom(h, 0, d, x) && Entry(h.states[0].dirs, d, x) == Some(k)
  {
    NameLasts(h, 0, 0, d, x, k);
    DirsAreKinds(h, 0, d);
    DirsAreKinds(h, |h.ops|, d);
  }

  /** Two admissible readings of one slot: a steady directory is never displaced by another object. */
  lemma NeverDisplaced(h: History, d: NodeKey, x: Name, a: (NodeKey, Kind), b: (NodeKey, Kind))
    requires Guest(h) && Admissible(h, d, x, a) && Admissible(h, d, x, b) && a.0 in Steady(h)
    ensures b.0 == a.0
  {
    SteadyName(h, d, x, a.0);
  }

  lemma AdmissibleSealed(h: History, s: Share)
    requires Guest(h) && AllAdmissible(h, s)
    ensures Sealed(s, Steady(h))
  {
    forall d, n | n in Table(s, d) && Table(s, d)[n].node in Steady(h) ensures d in Steady(h) {
      assert Slot(s, d, n).Some?;
      SteadyName(h, d, n, Table(s, d)[n].node);
    }
  }

  // ---- one record --------------------------------------------------------------------------------------

  ghost predicate GoodRecord(h: History, r: SnapDir)
    requires Guest(h)
  {
    && r.dirAttr.kind == Dir && KindOk(h, r.dir, Some(r.dirAttr))
    && GoodEntries(h, r.dir, r.entries)
  }

  ghost predicate GoodEntries(h: History, d: NodeKey, es: seq<SnapEntry>)
    requires Guest(h)
  {
    forall i :: 0 <= i < |es| ==>
      KindOk(h, es[i].node, Some(es[i].attr)) && Admissible(h, d, es[i].name, (es[i].node, es[i].attr.kind))
  }

  ghost predicate GoodView(h: History, d: NodeKey, t: map<Name, Dentry>)
    requires Guest(h)
  {
    forall x :: x in t ==> Admissible(h, d, x, (t[x].node, t[x].kind))
  }

  /** Listing the entries keeps the table truthful, lists every one of them, forgets no name, and
      displaces nothing steady. */
  lemma {:induction false} ListEntriesGood(h: History, d: NodeKey, l: Listed, es: seq<SnapEntry>)
    requires Guest(h) && GoodEntries(h, d, es) && GoodView(h, d, l.view.table)
    requires forall i :: 0 <= i < |l.unlink| ==> l.unlink[i] !in Steady(h)
    ensures var l' := ListEntries(l, es);
            && GoodView(h, d, l'.view.table)
            && (forall i :: 0 <= i < |l'.unlink| ==> l'.unlink[i] !in Steady(h))
            && (forall i :: 0 <= i < |es| ==> es[i].name in l'.view.table)
            && l.view.table.Keys <= l'.view.table.Keys
            && l'.view.complete == l.view.complete
    decreases |es|
  {
    hide Guest, Steady;
    if es != [] {
      var e := es[0];
      var l1 := ListEntry(l, e);
      if e.name in l.view.table && l.view.table[e.name].node in Steady(h) {
        NeverDisplaced(h, d, e.name, (l.view.table[e.name].node, l.view.table[e.name].kind), (e.node, e.attr.kind));
      }
      hide Admissible;
      assert GoodView(h, d, l1.view.table);
      ListEntriesGood(h, d, l1, es[1..]);
      forall i | 0 <= i < |es| ensures es[i].name in ListEntries(l, es).view.table {
        if i > 0 { assert es[i] == es[1..][i - 1]; }
      }
    }
  }

  lemma {:induction false} UpsertEntryNodesGentle(h: History, s: Share, parent: NodeKey, es: seq<SnapEntry>)
    requires Guest(h) && GoodEntries(h, parent, es)
    ensures Gentle(h, s, UpsertEntryNodes(s, parent, es))
    decreases |es|
  {
    hide Guest, Gentle, Admissible, UpsertNode;
    if es == [] {
      GentleNothing(h, s);
    } else {
      var s1 := UpsertNode(s, es[0].node, es[0].attr, parent);
      UpsertNodeGentle(h, s, es[0].node, es[0].attr, parent);
      UpsertEntryNodesGentle(h, s1, parent, es[1..]);
      GentleThen(h, s, s1, UpsertEntryNodes(s, parent, es));
    }
  }

  /** What holds of the staging replica between records. */
  ghost predicate Seeded(h: History, s: Share)
    requires Guest(h)
  {
    TablesWellFormed(s) && s.root == Last(h).root && Accounted(h, s) && KindsRight(h, s) && AllAdmissible(h, s)
  }

  /** Steady directories stay, forget no name and stay complete. */
  ghost predicate Grows(s: Share, s': Share, safe: set<NodeKey>) {
    && (forall k :: k in safe && k in s.nodes ==> k in s'.nodes)
    && (forall d :: d in safe && HasDir(s, d) ==>
          && HasDir(s', d) && Table(s, d).Keys <= Table(s', d).Keys
          && (s.nodes[d].dir.value.complete ==> s'.nodes[d].dir.value.complete))
  }

  lemma GrowsThen(s: Share, s1: Share, s2: Share, safe: set<NodeKey>)
    requires Grows(s, s1, safe) && Grows(s1, s2, safe)
    ensures Grows(s, s2, safe)
  {
    hide Table;
  }

  lemma GentleGrows(h: History, s: Share, s': Share, safe: set<NodeKey>)
    requires Guest(h) && Gentle(h, s, s')
    ensures Grows(s, s', safe)
  {
    hide KindsRight;
    forall d ensures Table(s', d) == Table(s, d) {}
  }

  lemma SparedGrows(s: Share, s': Share, safe: set<NodeKey>)
    requires Spared(s, s', safe)
    ensures Grows(s, s', safe)
  {}

  /** A record has taken hold: its directory is there with every name it lists. */
  ghost predicate Took(s: Share, r: SnapDir, safe: set<NodeKey>) {
    && (r.dir in safe ==>
          && HasDir(s, r.dir) && (r.last ==> s.nodes[r.dir].dir.value.complete)
          && forall i :: 0 <= i < |r.entries| ==> r.entries[i].name in Table(s, r.dir))
    && (forall i :: 0 <= i < |r.entries| && r.entries[i].node in safe ==> r.entries[i].node in s.nodes)
  }

  lemma TookStays(s: Share, s': Share, r: SnapDir, safe: set<NodeKey>)
    requires Took(s, r, safe) && Grows(s, s', safe)
    ensures Took(s', r, safe)
  {
    hide Table;
  }

  lemma SnapNodesGentle(h: History, s: Share, r: SnapDir)
    requires Guest(h) && GoodRecord(h, r)
    ensures Gentle(h, s, SnapNodes(s, r))
  {
    hide Guest, Gentle, GoodEntries, KindOk;
    UpsertNodeGentle(h, s, r.dir, r.dirAttr, r.parent);
    UpsertEntryNodesGentle(h, UpsertNode(s, r.dir, r.dirAttr, r.parent), r.dir, r.entries);
    GentleThen(h, s, UpsertNode(s, r.dir, r.dirAttr, r.parent), SnapNodes(s, r));
  }

  /** Links aside, the same replica. */
  ghost predicate SameButLinks(s: Share, s': Share) {
    && s'.root == s.root && s'.pending == s.pending && s'.nodes.Keys == s.nodes.Keys
    && forall k :: k in s.nodes ==> s'.nodes[k] == s.nodes[k].(links := s'.nodes[k].links)
  }

  lemma {:induction false} LinkIncAllSame(s: Share, ks: seq<NodeKey>)
    ensures SameButLinks(s, LinkIncAll(s, ks))
    decreases |ks|
  {
    if ks != [] {
      var s1 := LinkInc(s, ks[0]);
      assert SameButLinks(s, s1);
      LinkIncAllSame(s1, ks[1..]);
    }
  }

  /** The directory filled and links counted up, before anything is dropped. */
  ghost function Filled(s: Share, r: SnapDir): Share
    requires HasDir(s, r.dir)
  {
    LinkIncAll(FillDir(s, r.dir, SnapListed(s, r), r.last), SnapListed(s, r).link)
  }

  lemma FilledIs(s: Share, r: SnapDir)
    requires HasDir(s, r.dir)
    ensures var s', v := Filled(s, r), SnapListed(s, r).view;
            && s'.root == s.root && s'.pending == s.pending && s'.nodes.Keys == s.nodes.Keys
            && (forall k :: k in s.nodes ==>
                  s'.nodes[k].attr == s.nodes[k].attr && s'.nodes[k].parent == s.nodes[k].parent)
            && (forall k :: k in s.nodes && k != r.dir ==> s'.nodes[k].dir == s.nodes[k].dir)
            && s'.nodes[r.dir].dir == Some(v.(complete := v.complete || r.last))
  {
    LinkIncAllSame(FillDir(s, r.dir, SnapListed(s, r), r.last), SnapListed(s, r).link);
    hide LinkIncAll, ListEntries;
  }

  lemma FilledGood(h: History, s: Share, r: SnapDir)
    requires Guest(h) && GoodRecord(h, r) && HasDir(s, r.dir) && KindsRight(h, s) && AllAdmissible(h, s)
    requires forall i :: 0 <= i < |r.entries| ==> r.entries[i].node in s.nodes
    ensures var s' := Filled(s, r);
            && KindsRight(h, s') && AllAdmissible(h, s') && Grows(s, s', Steady(h)) && Took(s', r, Steady(h))
            && (forall i :: 0 <= i < |SnapListed(s, r).unlink| ==> SnapListed(s, r).unlink[i] !in Steady(h))
  {
    hide Guest, Steady, Admissible, KindOk;
    var d, l := r.dir, SnapListed(s, r);
    var v := s.nodes[d].dir.value;
    forall x | x in v.table ensures Admissible(h, d, x, (v.table[x].node, v.table[x].kind)) {
      assert Slot(s, d, x) == Some((v.table[x].node, v.table[x].kind));
    }
    ListEntriesGood(h, d, Listed(v, 0, [], []), r.entries);
    FilledIs(s, r);
    hide Filled, SnapListed, GoodEntries;
    var s' := Filled(s, r);
    forall e, x | Slot(s', e, x).Some? ensures Admissible(h, e, x, Slot(s', e, x).value) {
      if e != d { assert Slot(s', e, x) == Slot(s, e, x); }
    }
    assert KindsRight(h, s') by { hide Slot, AllAdmissible; }
  }

  lemma SnapAccounted(h: History, s: Share, r: SnapDir)
    requires Guest(h) && TablesWellFormed(s) && Accounted(h, s) && r.dirAttr.kind == Dir
    ensures TablesWellFormed(ApplySnapDir(s, r)) && Accounted(h, ApplySnapDir(s, r))
  {
    hide Guest, TablesWellFormed, ApplySnapDir, Surplus;
    SnapBalanced(s, r);
    BalancedTables(s, ApplySnapDir(s, r));
    hide Balanced;
    forall k | k in Last(h).kinds ensures Surplus(ApplySnapDir(s, r), k) >= 0 { SnapAccount(s, r, k); }
  }

  lemma FilledTables(s: Share, r: SnapDir)
    requires TablesWellFormed(s) && HasDir(s, r.dir)
    ensures TablesWellFormed(Filled(s, r))
  {
    hide Balanced, TablesWellFormed, LinkIncAll, FillDir, SnapListed;
    var s2 := FillDir(s, r.dir, SnapListed(s, r), r.last);
    SnapFilled(s, r, r.dir);
    BalancedTables(s, s2);
    LinkIncAllBalanced(s2, SnapListed(s, r).link);
    BalancedTables(s2, Filled(s, r));
  }

  lemma QuietAdmissible(h: History, s: Share, s': Share)
    requires Guest(h) && AllAdmissible(h, s) && Quiet(s, s')
    ensures AllAdmissible(h, s')
  {
    QuietSlots(s, s');
    hide Guest, Slot, Admissible, Quiet;
  }

  lemma SparedAdmissible(h: History, s: Share, s': Share)
    requires Guest(h) && AllAdmissible(h, s) && Spared(s, s', Steady(h))
    ensures AllAdmissible(h, s')
  {
    hide Guest, Admissible, Steady;
    forall d, x | Slot(s', d, x).Some? ensures Admissible(h, d, x, Slot(s', d, x).value) {
      assert Slot(s', d, x) == Slot(s, d, x);
    }
  }

  lemma SnapParts(s: Share, r: SnapDir)
    requires r.dirAttr.kind == Dir
    ensures HasDir(SnapNodes(s, r), r.dir)
    ensures var s1 := SnapNodes(s, r); ApplySnapDir(s, r) == LinkDecAll(Filled(s1, r), SnapListed(s1, r).unlink)
  {
    SnapNodesQuiet(s, r);
    hide LinkDecAll, LinkIncAll, ListEntries, UpsertEntryNodes, UpsertNode, Quiet;
  }

  /** One snapshot record, whenever its entries were read. */
  lemma SnapSeeds(h: History, s: Share, r: SnapDir)
    requires Guest(h) && Seeded(h, s) && GoodRecord(h, r)
    ensures var s' := ApplySnapDir(s, r);
            Seeded(h, s') && Grows(s, s', Steady(h)) && Took(s', r, Steady(h))
  {
    hide Guest, TablesWellFormed, AllAdmissible, KindsRight, Accounted, Gentle, Quiet, Grows, Took, Spared, Sealed,
         Collected, ApplySnapDir, Filled, SnapListed, SnapNodes, LinkDecAll, GoodEntries, KindOk, Steady;
    var safe := Steady(h);
    SnapParts(s, r);
    SnapAccounted(h, s, r);
    var s1 := SnapNodes(s, r);
    SnapNodesQuiet(s, r);
    QuietAdmissible(h, s, s1);
    QuietBalanced(s, s1);
    BalancedTables(s, s1);
    SnapNodesGentle(h, s, r);
    GentleKinds(h, s, s1);
    GentleGrows(h, s, s1, safe);
    var s2 := Filled(s1, r);
    FilledGood(h, s1, r);
    FilledTables(s1, r);
    FilledRoot(s, r);
    GrowsThen(s, s1, s2, safe);
    var s3 := ApplySnapDir(s, r);
    AdmissibleSealed(h, s2);
    LinkDecAllSpares(s2, SnapListed(s1, r).unlink, safe);
    SparedAdmissible(h, s2, s3);
    CollectKeepsKinds(h, 0, s2, s3);
    CollectedKeepsTables(s2, s3, 0);
    SparedGrows(s2, s3, safe);
    GrowsThen(s, s2, s3, safe);
    TookStays(s2, s3, r, safe);
  }

  lemma FilledRoot(s: Share, r: SnapDir)
    requires r.dirAttr.kind == Dir && HasDir(SnapNodes(s, r), r.dir)
    ensures Filled(SnapNodes(s, r), r).root == s.root
  {
    SnapNodesQuiet(s, r);
    FilledIs(SnapNodes(s, r), r);
    hide SnapNodes, Filled, SnapListed;
  }

  // ---- all records -----------------------------------------------------------------------------------

  ghost predicate GoodRecords(h: History, rs: seq<SnapDir>)
    requires Guest(h)
  {
    forall i :: 0 <= i < |rs| ==> rs[i].dirAttr.kind == Dir && GoodRecord(h, rs[i])
  }

  /** Any order of records, any split of a directory into records, any repeats. */
  lemma {:induction false} SnapsSeed(h: History, s: Share, rs: seq<SnapDir>)
    requires Guest(h) && Seeded(h, s) && GoodRecords(h, rs)
    ensures var s' := ApplySnapDirs(s, rs);
            && Seeded(h, s') && Grows(s, s', Steady(h))
            && forall i :: 0 <= i < |rs| ==> Took(s', rs[i], Steady(h))
    decreases |rs|
  {
    hide Guest, Seeded, Steady, Grows, Took, GoodEntries, KindOk, ApplySnapDir;
    if rs == [] {
      GrowsNothing(s, Steady(h));
    } else {
      var s1, s' := ApplySnapDir(s, rs[0]), ApplySnapDirs(s, rs);
      SnapSeeds(h, s, rs[0]);
      SnapsSeed(h, s1, rs[1..]);
      GrowsThen(s, s1, s', Steady(h));
      forall i | 0 <= i < |rs| ensures Took(s', rs[i], Steady(h)) {
        if i == 0 { TookStays(s1, s', rs[0], Steady(h)); } else { assert rs[i] == rs[1..][i - 1]; }
      }
    }
  }

  lemma GrowsNothing(s: Share, safe: set<NodeKey>)
    ensures Grows(s, s, safe)
  {}

  /** What the records must cover: each steady directory ends, and lists what it kept throughout. */
  ghost predicate Covers(h: History, rs: seq<SnapDir>)
    requires Guest(h)
  {
    && (forall d :: d in Steady(h) && d in h.states[0].dirs ==> Ends(rs, d))
    && (forall d, x :: d in Steady(h) && d in h.states[0].dirs && x in h.states[0].dirs[d] && !TouchedFrom(h, 0, d, x)
          ==> Lists(rs, d, x, h.states[0].dirs[d][x]))
  }

  ghost predicate Ends(rs: seq<SnapDir>, d: NodeKey) {
    exists i :: 0 <= i < |rs| && rs[i].dir == d && rs[i].last
  }

  ghost predicate Lists(rs: seq<SnapDir>, d: NodeKey, x: Name, k: NodeKey) {
    exists i, j :: 0 <= i < |rs| && 0 <= j < |rs[i].entries| && Entered(rs[i], j, d, x, k)
  }

  ghost predicate Entered(r: SnapDir, j: nat, d: NodeKey, x: Name, k: NodeKey)
    requires j < |r.entries|
  {
    r.dir == d && r.entries[j].name == x && r.entries[j].node == k
  }

  lemma NewShareSeeded(h: History)
    requires Guest(h)
    ensures Seeded(h, NewShare(Last(h).root))
  {
    var s := NewShare(Last(h).root);
    NewShareIsClean(Last(h).root);
    hide Guest, Surplus;
    assert forall d, x :: Slot(s, d, x) == None;
  }

  lemma SteadyPresent(h: History, s: Share, rs: seq<SnapDir>, k: NodeKey)
    requires Guest(h) && Covers(h, rs) && k in Steady(h)
    requires forall i :: 0 <= i < |rs| ==> Took(s, rs[i], Steady(h))
    ensures k in s.nodes
  {
    StatesWellShaped(h, |h.ops|);
    StatesWellShaped(h, 0);
    SameRoot(h, |h.ops|);
    hide Ranked, Sound;
    if k == Last(h).root {
      DirsAreKinds(h, 0, k);
      assert h.states[0].root in h.states[0].dirs by { StatesWellShaped(h, 0); }
      assert Ends(rs, k);
    } else {
      assert Reachable(Last(h), k);
      var path :| Walk(Last(h).dirs, Last(h).root, path) == Some(k);
      var d := FinalParent(h, path, k);
      var x := path[|path| - 1];
      SteadyName(h, d, x, k);
      assert Lists(rs, d, x, k);
      var i, j :| 0 <= i < |rs| && 0 <= j < |rs[i].entries| && Entered(rs[i], j, d, x, k);
      assert Took(s, rs[i], Steady(h));
    }
  }

  lemma SteadyListed(h: History, s: Share, rs: seq<SnapDir>, d: NodeKey, x: Name)
    requires Guest(h) && Covers(h, rs) && AllAdmissible(h, s)
    requires forall i :: 0 <= i < |rs| ==> Took(s, rs[i], Steady(h))
    requires d in Last(h).dirs && !TouchedFrom(h, 0, d, x)
    ensures Slot(s, d, x) == FsSlot(h.states[0], d, x)
  {
    hide TouchedFrom;
    if FsSlot(h.states[0], d, x).Some? {
      DirsAreKinds(h, 0, d);
      DirsAreKinds(h, |h.ops|, d);
      var k := h.states[0].dirs[d][x];
      assert Lists(rs, d, x, k);
      var i, j :| 0 <= i < |rs| && 0 <= j < |rs[i].entries| && Entered(rs[i], j, d, x, k);
      hide Guest;
      assert Took(s, rs[i], Steady(h));
      assert x in Table(s, d);
    }
    if Slot(s, d, x).Some? { assert Admissible(h, d, x, Slot(s, d, x).value); }
  }

  /** The assembled snapshot is right about everything that the replay will not touch. */
  lemma SeedCut(h: History, rs: seq<SnapDir>)
    requires Guest(h) && GoodRecords(h, rs) && Covers(h, rs)
    ensures Cut(h, 0, ApplySnapDirs(NewShare(Last(h).root), rs))
  {
    var s0 := NewShare(Last(h).root);
    var s := ApplySnapDirs(s0, rs);
    NewShareSeeded(h);
    SnapsSeed(h, s0, rs);
    hide Guest, ApplySnapDirs, GoodRecords, Admissible, KindsRight, Accounted, TablesWellFormed, TouchedFrom, Grows;
    forall k | k in Last(h).dirs && k in h.states[0].dirs ensures k in s.nodes { SteadyPresent(h, s, rs, k); }
    forall d, x | d in Last(h).dirs ensures Slot(s, d, x) == FsSlot(h.states[0], d, x) || TouchedFrom(h, 0, d, x) {
      if !TouchedFrom(h, 0, d, x) { SteadyListed(h, s, rs, d, x); }
    }
    forall d | d in Last(h).dirs && d in h.states[0].dirs ensures HasDir(s, d) && s.nodes[d].dir.value.complete {
      DirsAreKinds(h, 0, d);
      DirsAreKinds(h, |h.ops|, d);
      assert Ends(rs, d);
      var i :| 0 <= i < |rs| && rs[i].dir == d && rs[i].last;
      assert Took(s, rs[i], Steady(h));
    }
  }

  /** The whole of it: assemble the racing walk's records, replay the buffered journal, and every
      path answers as it does at the guest, with the same objects and kinds. */
  lemma ConsistentCut(h: History, rs: seq<SnapDir>, items: seq<Item>, path: seq<Name>)
    requires Guest(h) && GoodRecords(h, rs) && Covers(h, rs) && Tells(h, 0, |h.ops|, items)
    ensures var s := ApplyRecs(ApplySnapDirs(NewShare(Last(h).root), rs), RecordsOf(items));
            && Resolve(s, s.root, path) == Walk(Last(h).dirs, Last(h).root, path)
            && (Resolve(s, s.root, path).Some? ==>
                  var k := Resolve(s, s.root, path).value;
                  && k in Last(h).kinds && k in s.nodes && s.nodes[k].attr.kind == Last(h).kinds[k]
                  && (k in Last(h).dirs ==> HasDir(s, k) && s.nodes[k].dir.value.complete))
  {
    var s0 := ApplySnapDirs(NewShare(Last(h).root), rs);
    SeedCut(h, rs);
    ReplayCut(h, 0, |h.ops|, s0, items);
    assert Last(h).root in Last(h).kinds by { StatesWellShaped(h, |h.ops|); }
    hide Guest, GoodRecords, Covers, Tells, ApplySnapDirs, Accounted, TablesWellFormed, SlotsAt, KindsRight;
    CutPaths(h, ApplyRecs(s0, RecordsOf(items)), Last(h).root, path);
  }
}
