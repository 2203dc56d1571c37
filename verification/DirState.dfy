/** The stored form of a directory: names in an append-only arena, entries in a cookie-sorted
    vector with tombstones, and an index of the live slots.  Every operation is tied to the
    plain map it stands for (module DirViews). */
module DirStates {
  import opened Types
  import opened DirViews

  datatype CEnt = CEnt(cookie: nat, node: NodeKey, nameOff: nat, nameLen: nat, kind: Kind, dead: bool)

  function NameAt(arena: seq<byte>, e: CEnt): Name
    requires e.nameOff + e.nameLen <= |arena|
  {
    Name(arena[e.nameOff..e.nameOff + e.nameLen])
  }

  function DentryOf(e: CEnt): Dentry {
    Dentry(e.node, e.kind, e.cookie)
  }

  /** `names` spells out every slot of the vector, tombstones included. */
  ghost predicate Spells(arena: seq<byte>, ents: seq<CEnt>, names: seq<Name>) {
    && |names| == |ents|
    && forall i :: 0 <= i < |ents| ==>
         ents[i].nameOff + ents[i].nameLen <= |arena| && NameAt(arena, ents[i]) == names[i]
  }

  predicate CookiesSorted(ents: seq<CEnt>, nextCookie: nat) {
    && FIRST_COOKIE <= nextCookie
    && (forall i, j :: 0 <= i < j < |ents| ==> ents[i].cookie < ents[j].cookie)
    && (forall i :: 0 <= i < |ents| ==> FIRST_COOKIE <= ents[i].cookie < nextCookie)
  }

  /** `index` holds exactly the live slots. */
  predicate IndexesLive(ents: seq<CEnt>, index: set<nat>) {
    && (forall i :: i in index ==> i < |ents| && !ents[i].dead)
    && (forall i :: 0 <= i < |ents| && !ents[i].dead ==> i in index)
  }

  /** `slotOf` finds the one live slot of each name. */
  ghost predicate FindsSlots(names: seq<Name>, index: set<nat>, slotOf: map<Name, nat>) {
    && (forall i :: i in index ==> i < |names| && names[i] in slotOf && slotOf[names[i]] == i)
    && (forall n :: n in slotOf ==> slotOf[n] in index && names[slotOf[n]] == n)
    && |index| == |slotOf|
  }

  /** `table` is what the live slots say. */
  ghost predicate Means(ents: seq<CEnt>, slotOf: map<Name, nat>, table: map<Name, Dentry>) {
    && table.Keys == slotOf.Keys
    && forall n :: n in slotOf ==> slotOf[n] < |ents| && table[n] == DentryOf(ents[slotOf[n]])
  }

  /** All the stored fields at one moment, with what they stand for. */
  datatype Store = Store(
    arena: seq<byte>, ents: seq<CEnt>, index: set<nat>, dead: nat, nextCookie: nat,
    names: seq<Name>, slotOf: map<Name, nat>, table: map<Name, Dentry>)

  ghost predicate Shape(s: Store) {
    && Spells(s.arena, s.ents, s.names)
    && CookiesSorted(s.ents, s.nextCookie)
    && IndexesLive(s.ents, s.index)
    && FindsSlots(s.names, s.index, s.slotOf)
    && Means(s.ents, s.slotOf, s.table)
    && |s.index| + s.dead == |s.ents|
  }

  // ---- one lemma per change of the stored form ------------------------------------------

  lemma SpellsAppend(arena: seq<byte>, ents: seq<CEnt>, names: seq<Name>, name: Name, e: CEnt)
    requires Spells(arena, ents, names)
    requires e.nameOff == |arena| && e.nameLen == |name.bytes|
    ensures |names| == |ents| && Spells(arena + name.bytes, ents + [e], names + [name])
  {
    var arena', ents' := arena + name.bytes, ents + [e];
    forall i | 0 <= i < |ents| ensures NameAt(arena', ents'[i]) == names[i] {
      var s := ents[i];
      assert arena'[s.nameOff..s.nameOff + s.nameLen] == arena[s.nameOff..s.nameOff + s.nameLen];
    }
    assert arena'[e.nameOff..e.nameOff + e.nameLen] == name.bytes;
  }

  lemma SlotsInsert(names: seq<Name>, index: set<nat>, slotOf: map<Name, nat>, name: Name)
    requires FindsSlots(names, index, slotOf)
    requires name !in slotOf
    ensures FindsSlots(names + [name], index + {|names|}, slotOf[name := |names|])
    ensures |index + {|names|}| == |index| + 1
  {}

  lemma SlotsKill(names: seq<Name>, index: set<nat>, slotOf: map<Name, nat>, i: nat)
    requires FindsSlots(names, index, slotOf)
    requires i in index
    ensures FindsSlots(names, index - {i}, slotOf - {names[i]})
    ensures |index - {i}| == |index| - 1
  {
    assert (slotOf - {names[i]}).Keys == slotOf.Keys - {names[i]};
  }

  lemma MeansKill(names: seq<Name>, ents: seq<CEnt>, index: set<nat>, slotOf: map<Name, nat>,
                  table: map<Name, Dentry>, i: nat)
    requires FindsSlots(names, index, slotOf) && Means(ents, slotOf, table)
    requires i in index && i < |ents|
    ensures Means(ents[i := ents[i].(dead := true)], slotOf - {names[i]}, table - {names[i]})
  {
    assert (slotOf - {names[i]}).Keys == slotOf.Keys - {names[i]};
    assert (table - {names[i]}).Keys == table.Keys - {names[i]};
  }

  ghost function Inserted(s: Store, name: Name, node: NodeKey, kind: Kind): Store {
    Store(s.arena + name.bytes,
          s.ents + [CEnt(s.nextCookie, node, |s.arena|, |name.bytes|, kind, false)],
          s.index + {|s.ents|}, s.dead, s.nextCookie + 1,
          s.names + [name], s.slotOf[name := |s.ents|],
          s.table[name := Dentry(node, kind, s.nextCookie)])
  }

  lemma VectorAppend(ents: seq<CEnt>, index: set<nat>, nextCookie: nat, e: CEnt)
    requires CookiesSorted(ents, nextCookie) && IndexesLive(ents, index)
    requires e.cookie == nextCookie && !e.dead
    ensures CookiesSorted(ents + [e], nextCookie + 1) && IndexesLive(ents + [e], index + {|ents|})
  {}

  lemma MeansInsert(ents: seq<CEnt>, slotOf: map<Name, nat>, table: map<Name, Dentry>, e: CEnt, name: Name)
    requires Means(ents, slotOf, table)
    ensures Means(ents + [e], slotOf[name := |ents|], table[name := DentryOf(e)])
    ensures name in slotOf <==> name in table
  {}

  lemma InsertedShape(s: Store, name: Name, node: NodeKey, kind: Kind)
    requires Shape(s) && name !in s.table
    ensures Shape(Inserted(s, name, node, kind))
  {
    hide Spells, CookiesSorted, IndexesLive, FindsSlots, Means;
    var e := CEnt(s.nextCookie, node, |s.arena|, |name.bytes|, kind, false);
    SpellsAppend(s.arena, s.ents, s.names, name, e);
    VectorAppend(s.ents, s.index, s.nextCookie, e);
    MeansInsert(s.ents, s.slotOf, s.table, e, name);
    SlotsInsert(s.names, s.index, s.slotOf, name);
  }

  ghost function Killed(s: Store, i: nat): Store
    requires Shape(s) && i in s.index
  {
    s.(ents := s.ents[i := s.ents[i].(dead := true)], index := s.index - {i}, dead := s.dead + 1,
       slotOf := s.slotOf - {s.names[i]}, table := s.table - {s.names[i]})
  }

  /** A slot may change its kind or die without moving. */
  lemma VectorEdit(arena: seq<byte>, ents: seq<CEnt>, names: seq<Name>, nextCookie: nat, i: nat, e: CEnt)
    requires Spells(arena, ents, names) && CookiesSorted(ents, nextCookie) && i < |ents|
    requires e.cookie == ents[i].cookie && e.nameOff == ents[i].nameOff && e.nameLen == ents[i].nameLen
    ensures Spells(arena, ents[i := e], names) && CookiesSorted(ents[i := e], nextCookie)
  {}

  lemma IndexKill(ents: seq<CEnt>, index: set<nat>, i: nat, e: CEnt)
    requires IndexesLive(ents, index) && i < |ents| && e.dead
    ensures IndexesLive(ents[i := e], index - {i})
  {}

  lemma LiveSlotIsNamed(s: Store, i: nat)
    requires Shape(s) && i in s.index
    ensures i < |s.ents| == |s.names| && !s.ents[i].dead
    ensures s.names[i] in s.table && s.table[s.names[i]] == DentryOf(s.ents[i])
    ensures NameAt(s.arena, s.ents[i]) == s.names[i]
  {}

  lemma KilledShape(s: Store, i: nat)
    requires Shape(s) && i in s.index
    ensures i < |s.ents| == |s.names|
    ensures Shape(Killed(s, i))
  {
    LiveSlotIsNamed(s, i);
    hide Spells, CookiesSorted, IndexesLive, FindsSlots, Means;
    var e := s.ents[i].(dead := true);
    VectorEdit(s.arena, s.ents, s.names, s.nextCookie, i, e);
    IndexKill(s.ents, s.index, i, e);
    SlotsKill(s.names, s.index, s.slotOf, i);
    MeansKill(s.names, s.ents, s.index, s.slotOf, s.table, i);
  }

  ghost function Rekinded(s: Store, i: nat, kind: Kind): Store
    requires Shape(s) && i in s.index
  {
    LiveSlotIsNamed(s, i);
    s.(ents := s.ents[i := s.ents[i].(kind := kind)],
       table := s.table[s.names[i] := s.table[s.names[i]].(kind := kind)])
  }

  lemma RekindedShape(s: Store, i: nat, kind: Kind)
    requires Shape(s) && i in s.index
    ensures Shape(Rekinded(s, i, kind))
  {
    hide Spells, CookiesSorted, IndexesLive, FindsSlots, Means;
    LiveSlotIsNamed(s, i);
    var e := s.ents[i].(kind := kind);
    VectorEdit(s.arena, s.ents, s.names, s.nextCookie, i, e);
    IndexKeep(s.ents, s.index, i, e);
    MeansEdit(s.names, s.ents, s.index, s.slotOf, s.table, i, e);
  }

  lemma IndexKeep(ents: seq<CEnt>, index: set<nat>, i: nat, e: CEnt)
    requires IndexesLive(ents, index) && i in index && i < |ents| && !e.dead
    ensures IndexesLive(ents[i := e], index)
  {}

  lemma MeansEdit(names: seq<Name>, ents: seq<CEnt>, index: set<nat>, slotOf: map<Name, nat>, table: map<Name, Dentry>,
                  i: nat, e: CEnt)
    requires FindsSlots(names, index, slotOf) && Means(ents, slotOf, table)
    requires i in index && i < |ents|
    ensures Means(ents[i := e], slotOf, table[names[i] := DentryOf(e)])
  {}

  /** A cookie-sorted vector with distinct live names is a well-formed directory. */
  lemma TableIsWellFormed(s: Store)
    requires Shape(s)
    ensures DistinctCookies(s.table)
    ensures forall n :: n in s.table ==> FIRST_COOKIE <= s.table[n].cookie < s.nextCookie
    ensures |s.table| == |s.index|
  {
    forall m, n | m in s.table && n in s.table && s.table[m].cookie == s.table[n].cookie ensures m == n {
      assert s.ents[s.slotOf[m]].cookie == s.ents[s.slotOf[n]].cookie;
    }
    assert |s.table.Keys| == |s.slotOf.Keys|;
  }

  class DirState {
    var arena: seq<byte>
    var ents: seq<CEnt>
    var byName: set<nat>
    var dead: nat
    var nextCookie: nat
    var dirgen: nat
    var complete: bool
    ghost var names: seq<Name>
    ghost var slotOf: map<Name, nat>
    ghost var table: map<Name, Dentry>

    ghost function Stored(): Store
      reads this
    {
      Store(arena, ents, byName, dead, nextCookie, names, slotOf, table)
    }

    /** Tombstones never outnumber live entries once there are sixteen of them. */
    ghost predicate Valid()
      reads this
    {
      Shape(Stored()) && (dead <= LiveLen() || dead <= 15)
    }

    ghost function View(): DirView
      reads this
    {
      DirView(table, nextCookie, dirgen, complete)
    }

    function LiveLen(): int
      reads this
    {
      |ents| - dead
    }

    constructor ()
      ensures Valid()
      ensures View() == EMPTY
    {
      arena, ents, byName, dead := [], [], {}, 0;
      nextCookie, dirgen, complete := FIRST_COOKIE, 0, false;
      names, slotOf, table := [], map[], map[];
    }

    /** The view is a well-formed directory, and the vector never holds more than
        max(2 * live, live + 15) slots. */
    lemma ViewFacts()
      requires Valid()
      ensures WellFormed(View())
      ensures |View().table| == LiveLen()
      ensures |ents| <= 2 * LiveLen() || |ents| <= LiveLen() + 15
    {
      TableIsWellFormed(Stored());
    }

    /** The probe of the name index: a live slot with this name, if there is one. */
    method FindIdx(name: Name) returns (r: Option<nat>)
      requires Valid()
      ensures r.None? <==> name !in table
      ensures r.Some? ==> r.value in byName && r.value < |ents| == |names| && names[r.value] == name
      ensures r.Some? ==> name in table && table[name] == DentryOf(ents[r.value])
    {
      if exists i :: i in byName && !ents[i].dead && NameAt(arena, ents[i]) == name {
        var i :| i in byName && !ents[i].dead && NameAt(arena, ents[i]) == name;
        return Some(i);
      }
      return None;
    }

    method Find(name: Name) returns (r: Option<(NodeKey, Kind)>)
      requires Valid()
      ensures r == Get(View(), name)
    {
      var i := FindIdx(name);
      match i
      case None => return None;
      case Some(k) => return Some((ents[k].node, ents[k].kind));
    }

    method UpsertName(name: Name, node: NodeKey, kind: Kind) returns (r: UpsertResult)
      requires Valid()
      modifies this
      ensures Valid()
      ensures (View(), r) == Upsert(old(View()), name, node, kind)
    {
      hide Shape;
      var found := FindIdx(name);
      ghost var v := View();
      match found {
        case None =>
          InsertNew(name, node, kind);
          r := UpsertResult(true, None, 1);
        case Some(i) =>
          if ents[i].node == node {
            SetKind(i, kind);
            return UpsertResult(false, None, 0);
          }
          var displaced := ents[i].node;
          Kill(i);
          InsertNew(name, node, kind);
          ghost var d := Dentry(node, kind, v.nextCookie);
          assert (v.table - {name})[name := d] == v.table[name := d];
          r := UpsertResult(true, Some(displaced), 0);
      }
    }

    method SetKind(i: nat, kind: Kind)
      requires Valid() && i in byName && i < |ents| == |names|
      modifies this
      ensures Valid()
      ensures var v, name := old(View()), old(names[i]);
              name in v.table && View() == v.(table := v.table[name := v.table[name].(kind := kind)])
    {
      hide Shape;
      LiveSlotIsNamed(Stored(), i);
      RekindedShape(Stored(), i, kind);
      ents := ents[i := ents[i].(kind := kind)];
      table := table[names[i] := table[names[i]].(kind := kind)];
    }

    method InsertNew(name: Name, node: NodeKey, kind: Kind)
      requires Valid() && name !in table
      modifies this
      ensures Valid()
      ensures var v := old(View());
              View() == v.(table := v.table[name := Dentry(node, kind, v.nextCookie)],
                           nextCookie := v.nextCookie + 1, dirgen := v.dirgen + 1)
    {
      hide Shape;
      ghost var s := Stored();
      InsertedShape(s, name, node, kind);
      var cookie := nextCookie;
      nextCookie := nextCookie + 1;
      dirgen := dirgen + 1;
      var nameOff := |arena|;
      arena := arena + name.bytes;
      var idx := |ents|;
      ents := ents + [CEnt(cookie, node, nameOff, |name.bytes|, kind, false)];
      byName := byName + {idx};
      names, slotOf, table := names + [name], slotOf[name := idx], table[name := Dentry(node, kind, cookie)];
      assert Stored() == Inserted(s, name, node, kind);
    }

    /** Tombstone slot `i`, drop it from the index, and compact when more than half is dead. */
    method Kill(i: nat)
      requires Valid() && i in byName && i < |ents| == |names|
      modifies this
      ensures Valid()
      ensures View() == old(View()).(table := old(table) - {old(names[i])})
    {
      hide Shape;
      ghost var s := Stored();
      KilledShape(s, i);
      byName := byName - {i};
      slotOf, table := slotOf - {names[i]}, table - {names[i]};
      ents := ents[i := ents[i].(dead := true)];
      dead := dead + 1;
      assert Stored() == Killed(s, i);
      if dead > |ents| / 2 && dead >= 16 {
        Compact();
      }
    }

    /** Rebuild from the live slots.  Cookies and meaning are unchanged; no tombstone is left. */
    method Compact()
      requires Shape(Stored())
      modifies this
      ensures Valid() && dead == 0
      ensures View() == old(View())
    {
      hide Spells, CookiesSorted, IndexesLive, FindsSlots, Means;
      ghost var s := Stored();
      var arena', ents', index' := CompactedVectors(arena, ents, names);
      ghost var s' := CompactedShape(s, arena', ents', index');
      arena, ents, byName, dead := arena', ents', index', 0;
      names, slotOf := s'.names, s'.slotOf;
    }

    method RemoveName(name: Name) returns (r: Option<NodeKey>)
      requires Valid()
      modifies this
      ensures Valid()
      ensures (View(), r) == Remove(old(View()), name)
    {
      hide Shape;
      var found := FindIdx(name);
      match found {
        case None => return None;
        case Some(i) =>
          var node := ents[i].node;
          dirgen := dirgen + 1;
          Kill(i);
          return Some(node);
      }
    }

    /** One readdir page: live slots above the cookie, at most `max` of them, and eof exactly
        when none was left behind. */
    method ReadPage(after: nat, max: nat) returns (page: ReadDirPage)
      requires Valid()
      ensures WellFormed(View()) && page == Page(View(), after, max)
    {
      hide CookiesSorted, IndexesLive, FindsSlots, Means;
      ViewFacts();
      var start := PartitionPoint(ents, nextCookie, after);
      AllLiveEntries(Stored(), View(), after, start);
      var entries := [];
      for k := start to |ents|
        invariant |entries| <= max
        invariant entries == LiveEntries(ents, names, start, k)
      {
        if !ents[k].dead {
          if |entries| >= max {
            LiveEntriesSplit(ents, names, start, k, |ents|);
            LiveEntriesSplit(ents, names, k, k + 1, |ents|);
            return ReadDirPage(entries, false, dirgen);
          }
          entries := entries + [ReadDirEntry(ents[k].cookie, NameAt(arena, ents[k]), ents[k].node, ents[k].kind)];
        }
      }
      return ReadDirPage(entries, true, dirgen);
    }
  }

  /** First slot whose cookie is above `after`. */
  method PartitionPoint(ents: seq<CEnt>, nextCookie: nat, after: nat) returns (p: nat)
    requires CookiesSorted(ents, nextCookie)
    ensures p <= |ents|
    ensures forall i :: 0 <= i < |ents| ==> (ents[i].cookie <= after <==> i < p)
  {
    var lo, hi := 0, |ents|;
    while lo < hi
      invariant 0 <= lo <= hi <= |ents|
      invariant forall i :: 0 <= i < lo ==> ents[i].cookie <= after
      invariant forall i :: hi <= i < |ents| ==> after < ents[i].cookie
    {
      var mid := (lo + hi) / 2;
      if ents[mid].cookie <= after { lo := mid + 1; } else { hi := mid; }
    }
    p := lo;
  }

  // ---- compaction -------------------------------------------------------------------------

  /** The live slots, in order, with their names moved into a fresh arena. */
  ghost function LiveOnly(ents: seq<CEnt>, names: seq<Name>, k: nat): (seq<byte>, seq<CEnt>, seq<Name>)
    requires k <= |ents| == |names|
  {
    if k == 0 then ([], [], [])
    else
      var (a, es, ns) := LiveOnly(ents, names, k - 1);
      if ents[k - 1].dead then (a, es, ns)
      else (a + names[k - 1].bytes, es + [ents[k - 1].(nameOff := |a|)], ns + [names[k - 1]])
  }

  method CompactedVectors(arena: seq<byte>, ents: seq<CEnt>, ghost names: seq<Name>)
    returns (arena': seq<byte>, ents': seq<CEnt>, index': set<nat>)
    requires Spells(arena, ents, names)
    ensures arena' == LiveOnly(ents, names, |ents|).0
    ensures ents' == LiveOnly(ents, names, |ents|).1
    ensures forall j :: j in index' <==> 0 <= j < |ents'|
    ensures |index'| == |ents'|
  {
    arena', ents' := [], [];
    for k := 0 to |ents|
      invariant arena' == LiveOnly(ents, names, k).0
      invariant ents' == LiveOnly(ents, names, k).1
    {
      if !ents[k].dead {
        var nameOff := |arena'|;
        arena' := arena' + NameAt(arena, ents[k]).bytes;
        ents' := ents' + [ents[k].(nameOff := nameOff)];
      }
    }
    index' := {};
    for i := 0 to |ents'|
      invariant forall j :: j in index' <==> 0 <= j < i
      invariant |index'| == i
    {
      index' := index' + {i};
    }
  }

  lemma {:induction false} LiveOnlySpells(arena: seq<byte>, ents: seq<CEnt>, names: seq<Name>, k: nat)
    requires Spells(arena, ents, names) && k <= |ents|
    ensures var (a, es, ns) := LiveOnly(ents, names, k); Spells(a, es, ns)
  {
    if k > 0 {
      LiveOnlySpells(arena, ents, names, k - 1);
      var (a, es, ns) := LiveOnly(ents, names, k - 1);
      if !ents[k - 1].dead {
        assert NameAt(arena, ents[k - 1]) == names[k - 1];
        SpellsAppend(a, es, ns, names[k - 1], ents[k - 1].(nameOff := |a|));
      }
    }
  }

  lemma {:induction false} LiveOnlySorted(ents: seq<CEnt>, names: seq<Name>, nextCookie: nat, k: nat)
    requires CookiesSorted(ents, nextCookie) && k <= |ents| == |names|
    ensures var (a, es, ns) := LiveOnly(ents, names, k);
            && CookiesSorted(es, nextCookie)
            && (forall j :: 0 <= j < |es| ==> !es[j].dead)
            && (k < |ents| ==> forall j :: 0 <= j < |es| ==> es[j].cookie < ents[k].cookie)
  {
    if k > 0 { LiveOnlySorted(ents, names, nextCookie, k - 1); }
  }

  /** Where each name of the first `k` slots has moved. */
  ghost function LiveOnlySlot(ents: seq<CEnt>, names: seq<Name>, k: nat): map<Name, nat>
    requires k <= |ents| == |names|
  {
    if k == 0 then map[]
    else
      var before := LiveOnlySlot(ents, names, k - 1);
      if ents[k - 1].dead then before else before[names[k - 1] := |LiveOnly(ents, names, k - 1).1|]
  }

  lemma {:induction false} LiveOnlyDomain(ents: seq<CEnt>, names: seq<Name>, index: set<nat>,
                                          slotOf: map<Name, nat>, k: nat)
    requires IndexesLive(ents, index) && FindsSlots(names, index, slotOf) && k <= |ents| == |names|
    ensures forall n :: n in LiveOnlySlot(ents, names, k) <==> n in slotOf && slotOf[n] < k
  {
    if k > 0 {
      LiveOnlyDomain(ents, names, index, slotOf, k - 1);
      if ents[k - 1].dead {
        forall n | n in slotOf ensures slotOf[n] != k - 1 {
          assert slotOf[n] in index;
        }
      } else {
        assert k - 1 in index;
      }
    }
  }

  lemma SlotOfLive(ents: seq<CEnt>, names: seq<Name>, index: set<nat>, slotOf: map<Name, nat>, i: nat)
    requires IndexesLive(ents, index) && FindsSlots(names, index, slotOf)
    requires i < |ents| == |names| && !ents[i].dead
    ensures names[i] in slotOf && slotOf[names[i]] == i
  {
    assert i in index;
  }

  lemma {:induction false} LiveOnlyMeans(ents: seq<CEnt>, names: seq<Name>, index: set<nat>,
                                         slotOf: map<Name, nat>, k: nat)
    requires IndexesLive(ents, index) && FindsSlots(names, index, slotOf) && k <= |ents| == |names|
    ensures var es, slot' := LiveOnly(ents, names, k).1, LiveOnlySlot(ents, names, k);
            forall n :: n in slot' ==> n in slotOf && slotOf[n] < |ents| && slot'[n] < |es|
                                       && DentryOf(es[slot'[n]]) == DentryOf(ents[slotOf[n]])
  {
    hide IndexesLive, FindsSlots;
    if k > 0 {
      LiveOnlyMeans(ents, names, index, slotOf, k - 1);
      if !ents[k - 1].dead {
        SlotOfLive(ents, names, index, slotOf, k - 1);
        var es := LiveOnly(ents, names, k - 1).1;
        assert LiveOnly(ents, names, k).1[..|es|] == es;
      }
    }
  }

  ghost function Upto(n: nat): set<nat> {
    if n == 0 then {} else Upto(n - 1) + {n - 1}
  }

  lemma {:induction false} UptoIs(n: nat)
    ensures forall j :: j in Upto(n) <==> 0 <= j < n
  {
    if n > 0 { UptoIs(n - 1); }
  }

  lemma FindsNothing()
    ensures FindsSlots([], {}, map[])
  {}

  lemma {:induction false} LiveOnlyFinds(ents: seq<CEnt>, names: seq<Name>, index: set<nat>,
                                         slotOf: map<Name, nat>, k: nat)
    requires IndexesLive(ents, index) && FindsSlots(names, index, slotOf) && k <= |ents| == |names|
    ensures var (a, es, ns) := LiveOnly(ents, names, k);
            |ns| == |es| && FindsSlots(ns, Upto(|es|), LiveOnlySlot(ents, names, k))
  {
    hide IndexesLive, FindsSlots;
    if k == 0 {
      FindsNothing();
    } else {
      LiveOnlyFinds(ents, names, index, slotOf, k - 1);
      if !ents[k - 1].dead {
        var (a, es, ns) := LiveOnly(ents, names, k - 1);
        LiveOnlyDomain(ents, names, index, slotOf, k - 1);
        SlotOfLive(ents, names, index, slotOf, k - 1);
        SlotsInsert(ns, Upto(|es|), LiveOnlySlot(ents, names, k - 1), names[k - 1]);
      }
    }
  }

  lemma AllLiveIndexed(ents: seq<CEnt>, index: set<nat>)
    requires forall j :: 0 <= j < |ents| ==> !ents[j].dead
    requires forall j :: j in index <==> 0 <= j < |ents|
    ensures IndexesLive(ents, index)
  {}

  lemma CompactedShape(s: Store, arena': seq<byte>, ents': seq<CEnt>, index': set<nat>) returns (s': Store)
    requires Shape(s)
    requires arena' == LiveOnly(s.ents, s.names, |s.ents|).0
    requires ents' == LiveOnly(s.ents, s.names, |s.ents|).1
    requires forall j :: j in index' <==> 0 <= j < |ents'|
    requires |index'| == |ents'|
    ensures Shape(s')
    ensures s' == s.(arena := arena', ents := ents', index := index', dead := 0, names := s'.names, slotOf := s'.slotOf)
  {
    hide CookiesSorted, IndexesLive, FindsSlots;
    var n := |s.ents|;
    var names', slot' := LiveOnly(s.ents, s.names, n).2, LiveOnlySlot(s.ents, s.names, n);
    LiveOnlySpells(s.arena, s.ents, s.names, n);
    LiveOnlySorted(s.ents, s.names, s.nextCookie, n);
    LiveOnlyDomain(s.ents, s.names, s.index, s.slotOf, n);
    LiveOnlyMeans(s.ents, s.names, s.index, s.slotOf, n);
    LiveOnlyFinds(s.ents, s.names, s.index, s.slotOf, n);
    UptoIs(|ents'|);
    assert index' == Upto(|ents'|);
    assert IndexesLive(ents', index') by { AllLiveIndexed(ents', index'); }
    assert slot'.Keys == s.slotOf.Keys;
    s' := s.(arena := arena', ents := ents', index := index', dead := 0, names := names', slotOf := slot');
  }

  // ---- the scan behind a page ------------------------------------------------------------

  ghost function LiveSlots(ents: seq<CEnt>, lo: nat, hi: nat): seq<nat>
    requires lo <= hi <= |ents|
    decreases hi
  {
    if lo == hi then []
    else LiveSlots(ents, lo, hi - 1) + (if ents[hi - 1].dead then [] else [hi - 1])
  }

  ghost function ListedAs(e: CEnt, name: Name): ReadDirEntry {
    ReadDirEntry(e.cookie, name, e.node, e.kind)
  }

  ghost function LiveEntries(ents: seq<CEnt>, names: seq<Name>, lo: nat, hi: nat): seq<ReadDirEntry>
    requires lo <= hi <= |ents| == |names|
    decreases hi
  {
    if lo == hi then []
    else
      LiveEntries(ents, names, lo, hi - 1)
      + (if ents[hi - 1].dead then [] else [ListedAs(ents[hi - 1], names[hi - 1])])
  }

  lemma {:induction false} LiveEntriesSplit(ents: seq<CEnt>, names: seq<Name>, lo: nat, mid: nat, hi: nat)
    requires lo <= mid <= hi <= |ents| == |names|
    ensures LiveEntries(ents, names, lo, hi) == LiveEntries(ents, names, lo, mid) + LiveEntries(ents, names, mid, hi)
    decreases hi
  {
    if mid < hi { LiveEntriesSplit(ents, names, lo, mid, hi - 1); }
  }

  lemma {:induction false} LiveSlotsAre(ents: seq<CEnt>, lo: nat, hi: nat)
    requires lo <= hi <= |ents|
    ensures var s := LiveSlots(ents, lo, hi);
            && (forall i :: i in s <==> lo <= i < hi && !ents[i].dead)
            && (forall i, j :: 0 <= i < j < |s| ==> s[i] < s[j])
    decreases hi
  {
    if lo < hi {
      LiveSlotsAre(ents, lo, hi - 1);
      var s := LiveSlots(ents, lo, hi - 1);
      assert forall i :: 0 <= i < |s| ==> s[i] in s;
    }
  }

  lemma {:induction false} LiveEntriesFollowSlots(ents: seq<CEnt>, names: seq<Name>, lo: nat, hi: nat)
    requires lo <= hi <= |ents| == |names|
    ensures var s, es := LiveSlots(ents, lo, hi), LiveEntries(ents, names, lo, hi);
            && |s| == |es|
            && (forall i :: 0 <= i < |s| ==> s[i] < |ents| && es[i] == ListedAs(ents[s[i]], names[s[i]]))
    decreases hi
  {
    if lo < hi { LiveEntriesFollowSlots(ents, names, lo, hi - 1); }
  }

  /** The names of the live slots from `start` on, in slot order. */
  ghost function NamesAt(names: seq<Name>, slots: seq<nat>): seq<Name>
    requires forall i :: 0 <= i < |slots| ==> slots[i] < |names|
  {
    if slots == [] then [] else NamesAt(names, slots[..|slots| - 1]) + [names[slots[|slots| - 1]]]
  }

  lemma {:induction false} NamesAtIs(names: seq<Name>, slots: seq<nat>)
    requires forall i :: 0 <= i < |slots| ==> slots[i] < |names|
    ensures |NamesAt(names, slots)| == |slots|
    ensures forall i :: 0 <= i < |slots| ==> NamesAt(names, slots)[i] == names[slots[i]]
  {
    if slots != [] { NamesAtIs(names, slots[..|slots| - 1]); }
  }

  lemma SlotsEnumerate(st: Store, after: nat, start: nat, s: seq<nat>, ns: seq<Name>)
    requires Shape(st) && start <= |st.ents|
    requires forall i :: 0 <= i < |st.ents| ==> (st.ents[i].cookie <= after <==> i < start)
    requires forall i :: i in s <==> start <= i < |st.ents| && !st.ents[i].dead
    requires forall i, j :: 0 <= i < j < |s| ==> s[i] < s[j]
    requires |ns| == |s| && forall i :: 0 <= i < |s| ==> s[i] < |st.names| && ns[i] == st.names[s[i]]
    ensures var t := Newer(st.table, after);
            && (forall n :: n in ns <==> n in t)
            && Sorted(t, ns)
            && (forall i :: 0 <= i < |s| ==> s[i] < |st.ents| && t[ns[i]] == DentryOf(st.ents[s[i]]))
  {
    hide Spells;
    var t := Newer(st.table, after);
    forall i | 0 <= i < |s| ensures s[i] < |st.ents| && ns[i] in t && t[ns[i]] == DentryOf(st.ents[s[i]]) {
      assert s[i] in s;
      assert s[i] in st.index;
    }
    forall n | n in t ensures n in ns {
      assert st.slotOf[n] in st.index;
      assert st.slotOf[n] in s;
      var i :| 0 <= i < |s| && s[i] == st.slotOf[n];
      assert ns[i] == n;
    }
  }

  lemma AllLiveEntries(st: Store, v: DirView, after: nat, start: nat)
    requires Shape(st) && WellFormed(v) && v.table == st.table && start <= |st.ents|
    requires forall i :: 0 <= i < |st.ents| ==> (st.ents[i].cookie <= after <==> i < start)
    ensures |st.names| == |st.ents|
    ensures LiveEntries(st.ents, st.names, start, |st.ents|) == EntriesAfter(v, after)
  {
    hide CookiesSorted, IndexesLive, FindsSlots, Means;
    var s, es := LiveSlots(st.ents, start, |st.ents|), LiveEntries(st.ents, st.names, start, |st.ents|);
    LiveSlotsAre(st.ents, start, |st.ents|);
    LiveEntriesFollowSlots(st.ents, st.names, start, |st.ents|);
    NamesAtIs(st.names, s);
    SlotsEnumerate(st, after, start, s, NamesAt(st.names, s));
    SlotsListed(st, v, after, s, NamesAt(st.names, s), es);
  }

  lemma SlotsListed(st: Store, v: DirView, after: nat, s: seq<nat>, ns: seq<Name>, es: seq<ReadDirEntry>)
    requires DistinctCookies(v.table) && v.table == st.table && |s| == |ns| == |es|
    requires var t := Newer(st.table, after);
             && (forall n :: n in ns <==> n in t)
             && Sorted(t, ns)
             && (forall i :: 0 <= i < |s| ==> s[i] < |st.ents| && t[ns[i]] == DentryOf(st.ents[s[i]]))
    requires forall i :: 0 <= i < |s| ==> s[i] < |st.ents| && es[i] == ListedAs(st.ents[s[i]], ns[i])
    ensures es == EntriesAfter(v, after)
  {
    hide DistinctCookies, Sorted;
    forall i | 0 <= i < |ns| ensures ns[i] in v.table && es[i] == EntryOf(v.table, ns[i]) {
      assert ns[i] in ns;
    }
    EntriesFollowNames(v, after, ns, es);
  }

  lemma EntriesFollowNames(v: DirView, after: nat, ns: seq<Name>, es: seq<ReadDirEntry>)
    requires DistinctCookies(v.table) && |es| == |ns|
    requires var t := Newer(v.table, after);
             (forall n :: n in ns <==> n in t) && Sorted(t, ns)
    requires forall i :: 0 <= i < |ns| ==> ns[i] in v.table && es[i] == EntryOf(v.table, ns[i])
    ensures es == EntriesAfter(v, after)
  {
    hide DistinctCookies, Sorted;
    NewerDistinct(v.table, after);
    SortedEnumerationUnique(Newer(v.table, after), ns);
    assert forall i :: 0 <= i < |ns| ==> ns[i] in ns;
  }
}
