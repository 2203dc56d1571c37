/** What eviction promises, in terms of what was stored and read when. */
module EvictionPromises {
  import opened CachedReads
  import opened Evictions
  import opened ContentStores

  /** Used within the last ten minutes. */
  ghost predicate Hot(rows: map<Hash, Stored>, recency: map<Hash, nat>, now: nat, h: Hash) {
    exists t: nat :: UsedAt(rows, recency, h, t) && Less(now, t) < 600
  }

  /** The last use is a use, and no use is later. */
  lemma LastUseIs(rows: map<Hash, Stored>, recency: map<Hash, nat>, h: Hash)
    requires h in rows
    ensures UsedAt(rows, recency, h, LastUse(rows, recency, h))
    ensures forall t: nat :: UsedAt(rows, recency, h, t) ==> t <= LastUse(rows, recency, h)
  {}

  lemma RowIs(rows: map<Hash, Stored>, recency: map<Hash, nat>, order: seq<Row>, h: Hash) returns (i: nat)
    requires IsOrder(rows, recency, order) && h in rows
    ensures i < |order| && order[i] == Row(h, rows[h].len, LastUse(rows, recency, h))
  {
    InHashSet(order, h);
    hide HashSet, Oldest, Distinct;
    i :| 0 <= i < |order| && order[i].hash == h;
  }

  lemma HotIs(rows: map<Hash, Stored>, recency: map<Hash, nat>, order: seq<Row>, now: nat, i: nat)
    requires IsOrder(rows, recency, order) && i < |order|
    ensures Protected(order[i], now) <==> Hot(rows, recency, now, order[i].hash)
  {
    var h := order[i].hash;
    hide HashSet, Oldest, Distinct;
    assert h in rows;
    LastUseIs(rows, recency, h);
    hide UsedAt, LastUse;
  }

  /** Oldest first: whatever is given up was used no later than anything kept. */
  lemma OldestGoFirst(rows: map<Hash, Stored>, recency: map<Hash, nat>, limit: nat, target: nat, max: nat, now: nat,
                      order: seq<Row>, victims: seq<Row>, rows': map<Hash, Stored>, recency': map<Hash, nat>,
                      h: Hash, g: Hash, t: nat)
    requires MadeRoom(rows, recency, limit, target, max, now, order, victims, rows', recency')
    requires h in rows && h !in rows' && g in rows' && UsedAt(rows, recency, h, t)
    ensures exists u: nat :: UsedAt(rows, recency, g, u) && t <= u
  {
    hide HashSet, IsChoice, TotalOf, UsedAt, LastUse, Distinct, Oldest;
    if victims == [] { NothingGone(rows, recency); }
    assert victims != [] && IsOrder(rows, recency, order);
    assert IsChoice(order, TotalOf(rows.Keys), target, max, now, victims);
    ChosenPrefix(order, TotalOf(rows.Keys), target, max, now, victims);
    var i := GivenUp(rows, recency, order, victims, h);
    var j := Kept(rows, recency, order, victims, g);
    assert order[i].last <= order[j].last by { assert Oldest(order); OldestAt(order, i, j); }
    LastUseIs(rows, recency, h);
    LastUseIs(rows, recency, g);
  }

  lemma OldestAt(order: seq<Row>, i: nat, j: nat)
    requires Oldest(order) && i <= j < |order|
    ensures order[i].last <= order[j].last
  {}

  lemma GivenUp(rows: map<Hash, Stored>, recency: map<Hash, nat>, order: seq<Row>, victims: seq<Row>, h: Hash)
    returns (i: nat)
    requires IsOrder(rows, recency, order) && |victims| <= |order| && victims == order[..|victims|]
    requires h in rows && h in HashSet(victims)
    ensures i < |victims| && order[i] == Row(h, rows[h].len, LastUse(rows, recency, h))
  {
    InHashSet(victims, h);
    hide HashSet, Oldest, Distinct;
    i :| 0 <= i < |victims| && victims[i].hash == h;
    assert order[i] == victims[i];
  }

  lemma Kept(rows: map<Hash, Stored>, recency: map<Hash, nat>, order: seq<Row>, victims: seq<Row>, g: Hash)
    returns (j: nat)
    requires IsOrder(rows, recency, order) && |victims| <= |order| && victims == order[..|victims|]
    requires g in rows && g !in HashSet(victims)
    ensures |victims| <= j < |order| && order[j] == Row(g, rows[g].len, LastUse(rows, recency, g))
  {
    j := RowIs(rows, recency, order, g);
    InHashSet(victims, g);
    hide HashSet, Oldest, Distinct;
    assert forall k :: 0 <= k < |victims| ==> victims[k] == order[k];
  }

  // ---- sets of chunks and lists of rows ---------------------------------------------------------------

  /** From a place in the order on, the rows are these chunks. */
  lemma TailTotal(rows: map<Hash, Stored>, recency: map<Hash, nat>, order: seq<Row>, u: nat, hs: set<Hash>)
    requires IsOrder(rows, recency, order) && u <= |order| && (forall h :: h in rows ==> rows[h].len == |h.of|)
    requires forall i :: 0 <= i < |order| ==> (i >= u <==> order[i].hash in hs)
    requires hs <= rows.Keys
    ensures TotalOf(hs) == Less(TotalOf(rows.Keys), Sum(order[..u]))
  {
    var a := order[..u];
    assert Sized(order);
    hide TotalOf, Sum, Sized, LastUse;
    GiveUp(order, a, rows.Keys);
    hide Distinct, Oldest, HashSet;
    forall h ensures h in hs <==> h in rows.Keys - HashSet(a) {
      if h in rows { InTail(rows, recency, order, u, h); }
    }
    assert hs == rows.Keys - HashSet(a);
  }

  lemma InTail(rows: map<Hash, Stored>, recency: map<Hash, nat>, order: seq<Row>, u: nat, h: Hash)
    requires IsOrder(rows, recency, order) && u <= |order| && h in rows
    ensures exists i :: 0 <= i < |order| && order[i].hash == h && (i >= u <==> h !in HashSet(order[..u]))
  {
    var i := RowIs(rows, recency, order, h);
    InHashSet(order[..u], h);
    hide HashSet, Oldest, LastUse;
    if i < u { assert order[..u][i].hash == h; }
    if k :| 0 <= k < u && order[..u][k].hash == h { SamePlace(order, i, k); }
  }

  lemma SamePlace(order: seq<Row>, i: nat, k: nat)
    requires Distinct(order) && i < |order| && k < |order| && order[i].hash == order[k].hash
    ensures i == k
  {}

  ghost function HotSet(rows: map<Hash, Stored>, recency: map<Hash, nat>, now: nat): set<Hash> {
    set h | h in rows && Hot(rows, recency, now, h)
  }

  /** A chunk used within the last ten minutes goes only if such chunks alone are more than the hard limit. */
  lemma HotGoOnlyIfForced(rows: map<Hash, Stored>, recency: map<Hash, nat>, limit: nat, target: nat, max: nat, now: nat,
                          order: seq<Row>, victims: seq<Row>, rows': map<Hash, Stored>, recency': map<Hash, nat>,
                          h: Hash)
    requires MadeRoom(rows, recency, limit, target, max, now, order, victims, rows', recency')
    requires (forall g :: g in rows ==> rows[g].len == |g.of|) && h in rows && h !in rows' && Hot(rows, recency, now, h)
    ensures TotalOf(HotSet(rows, recency, now)) > max
  {
    hide HashSet, IsChoice, TotalOf, UsedAt, LastUse, Distinct, Oldest, IsCold, Hot, Sum;
    if victims == [] { NothingGone(rows, recency); }
    assert victims != [] && IsOrder(rows, recency, order);
    assert IsChoice(order, TotalOf(rows.Keys), target, max, now, victims);
    ChosenPrefix(order, TotalOf(rows.Keys), target, max, now, victims);
    var i := GivenUp(rows, recency, order, victims, h);
    HotIs(rows, recency, order, now, i);
    assert victims[i] == order[i];
    ProtectedOnlyIfForced(order, TotalOf(rows.Keys), target, max, now, victims, i);
    var u: nat :| IsCold(order, now, u) && u <= i && Less(TotalOf(rows.Keys), Sum(order[..u])) > max;
    ColdTotal(rows, recency, order, now, u);
  }

  lemma ColdTotal(rows: map<Hash, Stored>, recency: map<Hash, nat>, order: seq<Row>, now: nat, u: nat)
    requires IsOrder(rows, recency, order) && IsCold(order, now, u) && (forall g :: g in rows ==> rows[g].len == |g.of|)
    ensures u <= |order| && TotalOf(HotSet(rows, recency, now)) == Less(TotalOf(rows.Keys), Sum(order[..u]))
  {
    var hs := HotSet(rows, recency, now);
    forall i | 0 <= i < |order| ensures i >= u <==> order[i].hash in hs {
      HotIs(rows, recency, order, now, i);
      assert order[i].hash in rows;
    }
    hide HashSet, Distinct, Oldest, TotalOf, Sum, Hot;
    TailTotal(rows, recency, order, u, hs);
  }

  /** How far it goes: nowhere from within the limit, otherwise down to the target; or, if everything left was used
      within the last ten minutes, at least to the hard limit. */
  lemma EvictionReaches(rows: map<Hash, Stored>, recency: map<Hash, nat>, limit: nat, target: nat, max: nat, now: nat,
                        order: seq<Row>, victims: seq<Row>, rows': map<Hash, Stored>, recency': map<Hash, nat>)
    requires MadeRoom(rows, recency, limit, target, max, now, order, victims, rows', recency')
    requires (forall g :: g in rows ==> rows[g].len == |g.of|) && target <= limit <= max
    ensures if TotalOf(rows.Keys) <= limit then rows' == rows
            else || TotalOf(rows'.Keys) <= target
                 || (TotalOf(rows'.Keys) <= max && forall g :: g in rows' ==> Hot(rows, recency, now, g))
  {
    hide HashSet, IsChoice, TotalOf, UsedAt, LastUse, Distinct, Oldest, IsCold, Hot, Sum, IsShortest;
    if TotalOf(rows.Keys) <= limit {
      NothingGone(rows, recency);
    } else {
      ReachesTarget(rows, recency, target, max, now, order, victims);
      MinusKeys(rows, HashSet(victims));
    }
  }

  lemma ReachesTarget(rows: map<Hash, Stored>, recency: map<Hash, nat>, target: nat, max: nat, now: nat,
                      order: seq<Row>, victims: seq<Row>)
    requires IsOrder(rows, recency, order) && IsChoice(order, TotalOf(rows.Keys), target, max, now, victims)
    requires (forall g :: g in rows ==> rows[g].len == |g.of|) && target <= max
    ensures var left := rows.Keys - HashSet(victims);
            || TotalOf(left) <= target
            || (TotalOf(left) <= max && forall g :: g in left ==> Hot(rows, recency, now, g))
  {
    hide TotalOf, UsedAt, LastUse, Distinct, Oldest, Hot, Sum, HashSet, Sized, IsCold;
    var total := TotalOf(rows.Keys);
    var n: nat, u: nat :| IsShortest(order, total, target, n) && IsCold(order, now, u)
             && victims == order[..if n <= u || Less(total, Sum(order[..u])) > max then n else u];
    ColdWithin(order, now, u);
    OrderSized(rows, recency, order);
    GiveUp(order, victims, rows.Keys);
    assert order[..|order|] == order;
    if |victims| == u && n > u {
      forall g | g in rows.Keys - HashSet(victims) ensures Hot(rows, recency, now, g) {
        var j := Kept(rows, recency, order, victims, g);
        assert Protected(order[j], now) by { ColdAt(order, now, u, j); }
        HotIs(rows, recency, order, now, j);
      }
    }
  }

  lemma ColdAt(order: seq<Row>, now: nat, u: nat, j: nat)
    requires IsCold(order, now, u) && u <= j < |order|
    ensures Protected(order[j], now)
  {}

  lemma OrderSized(rows: map<Hash, Stored>, recency: map<Hash, nat>, order: seq<Row>)
    requires IsOrder(rows, recency, order) && forall g :: g in rows ==> rows[g].len == |g.of|
    ensures Sized(order)
  {
    hide Distinct, Oldest, HashSet, LastUse;
  }

  /** Nor further than it must: with one chunk fewer given up, more than the target would be left. */
  lemma NoneNeedlessly(rows: map<Hash, Stored>, recency: map<Hash, nat>, limit: nat, target: nat, max: nat, now: nat,
                       order: seq<Row>, victims: seq<Row>, rows': map<Hash, Stored>, recency': map<Hash, nat>)
    requires MadeRoom(rows, recency, limit, target, max, now, order, victims, rows', recency')
    requires (forall g :: g in rows ==> rows[g].len == |g.of|) && rows' != rows
    ensures exists h :: h in rows && h !in rows' && TotalOf(rows'.Keys) + |h.of| > target
  {
    hide HashSet, IsChoice, TotalOf, UsedAt, LastUse, Distinct, Oldest, Sum;
    NothingGone(rows, recency);
    MinusKeys(rows, HashSet(victims));
    assert victims != [];
    var h := LastTaken(rows, recency, target, max, now, order, victims);
    assert h in rows && h !in rows';
  }

  lemma LastTaken(rows: map<Hash, Stored>, recency: map<Hash, nat>, target: nat, max: nat, now: nat,
                  order: seq<Row>, victims: seq<Row>) returns (h: Hash)
    requires IsOrder(rows, recency, order) && IsChoice(order, TotalOf(rows.Keys), target, max, now, victims)
    requires (forall g :: g in rows ==> rows[g].len == |g.of|) && victims != []
    ensures h in rows && h in HashSet(victims) && TotalOf(rows.Keys - HashSet(victims)) + |h.of| > target
  {
    hide TotalOf, UsedAt, LastUse, Distinct, Oldest, Sum, HashSet, Sized, IsCold;
    var total, m := TotalOf(rows.Keys), |victims| - 1;
    var n: nat, u: nat :| IsShortest(order, total, target, n) && IsCold(order, now, u)
             && victims == order[..if n <= u || Less(total, Sum(order[..u])) > max then n else u];
    ColdWithin(order, now, u);
    OrderSized(rows, recency, order);
    GiveUp(order, victims, rows.Keys);
    h := order[m].hash;
    InHashSet(victims, h);
    assert victims[m] == order[m];
    assert victims == order[..m + 1] && m < n;
    SumStep(order, m);
    assert Less(total, Sum(order[..m])) > target;
    assert order[m].len == |h.of| by { SizedAt(order, m); }
  }

  lemma SizedAt(order: seq<Row>, m: nat)
    requires Sized(order) && m < |order|
    ensures order[m].len == |order[m].hash.of|
  {}

  /** Keeping chunks is a use of each of them, and of no other. */
  lemma {:induction false} KeepingIsUse(rows: map<Hash, Stored>, recency: map<Hash, nat>, refs: seq<ChunkRef>, now: nat,
                                        h: Hash)
    ensures var rows', recency' := RowsWith(rows, refs, now), Marked(recency, refs, now);
            if exists i :: 0 <= i < |refs| && refs[i].hash == h
            then h in rows' && rows'[h].at == now && h in recency' && recency'[h] == now
            else && (h in rows' <==> h in rows) && (h in rows ==> rows'[h] == rows[h])
                 && (h in recency' <==> h in recency) && (h in recency ==> recency'[h] == recency[h])
    decreases |refs|
  {
    if refs != [] {
      var n := |refs| - 1;
      KeepingIsUse(rows, recency, refs[..n], now, h);
      if i :| 0 <= i < n && refs[i].hash == h { assert refs[..n][i].hash == h; }
    }
  }
}
