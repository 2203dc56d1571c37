/** Which chunks the content store gives up: the least recently used, down to a target, sparing what was
    used a moment ago unless the hard limit leaves no choice. */
module Evictions {
  import opened CachedReads

  /** Seconds during which a chunk just used is spared. */
  const PROTECTION: nat := 600

  /** A chunk as the evictor sees it. */
  datatype Row = Row(hash: Hash, len: nat, last: nat)

  /** Subtraction that stops at zero. */
  function Less(a: nat, b: nat): nat {
    if b < a then a - b else 0
  }

  predicate Protected(row: Row, now: nat) {
    Less(now, row.last) < PROTECTION
  }

  function Sum(rows: seq<Row>): nat
    decreases |rows|
  {
    if rows == [] then 0 else Sum(rows[..|rows| - 1]) + rows[|rows| - 1].len
  }

  /** Least recently used first. */
  predicate Oldest(rows: seq<Row>) {
    forall i, j :: 0 <= i < j < |rows| ==> rows[i].last <= rows[j].last
  }

  predicate Distinct(rows: seq<Row>) {
    forall i, j :: 0 <= i < j < |rows| ==> rows[i].hash != rows[j].hash
  }

  // ---- the rule -----------------------------------------------------------------------------------

  /** How many of the oldest must go for the rest to fit the target: no fewer will do. */
  ghost predicate IsShortest(rows: seq<Row>, total: nat, target: nat, n: nat) {
    && n <= |rows|
    && (n < |rows| ==> Less(total, Sum(rows[..n])) <= target)
    && forall m :: 0 <= m < n ==> Less(total, Sum(rows[..m])) > target
  }

  /** How many are not protected: they all come before those that are. */
  ghost predicate IsCold(rows: seq<Row>, now: nat, u: nat) {
    && u <= |rows|
    && (forall i :: 0 <= i < u ==> !Protected(rows[i], now))
    && (forall i :: u <= i < |rows| ==> Protected(rows[i], now))
  }

  /** The rule: the shortest prefix that reaches the target; if that would take protected chunks, only its
      unprotected part, unless what is left then is above the hard limit. */
  ghost predicate IsChoice(rows: seq<Row>, total: nat, target: nat, max: nat, now: nat, victims: seq<Row>) {
    exists n: nat, u: nat :: IsShortest(rows, total, target, n) && IsCold(rows, now, u)
                && victims == rows[..if n <= u || Less(total, Sum(rows[..u])) > max then n else u]
  }

  lemma {:induction false} ColdExists(rows: seq<Row>, now: nat) returns (u: nat)
    requires Oldest(rows)
    ensures IsCold(rows, now, u)
    decreases |rows|
  {
    if rows == [] {
      u := 0;
    } else {
      var init, last := rows[..|rows| - 1], rows[|rows| - 1];
      u := ColdExists(init, now);
      if !Protected(last, now) {
        forall i | 0 <= i < |rows| ensures !Protected(rows[i], now) {
          if i < |init| { assert rows[i].last <= last.last; }
        }
        u := |rows|;
      }
    }
  }

  lemma SumStep(rows: seq<Row>, i: nat)
    requires i < |rows|
    ensures Sum(rows[..i + 1]) == Sum(rows[..i]) + rows[i].len
  {
    assert rows[..i + 1][..i] == rows[..i];
  }

  /** The first pass takes unprotected chunks, oldest first, until the target is reached. */
  method FirstPass(rows: seq<Row>, total: nat, target: nat, now: nat, ghost u: nat)
    returns (victims: seq<Row>, freed: nat)
    requires IsCold(rows, now, u)
    ensures |victims| <= u && victims == rows[..|victims|] && freed == Sum(victims)
    ensures forall m :: 0 <= m < |victims| ==> Less(total, Sum(rows[..m])) > target
    ensures Less(total, freed) <= target || |victims| == u
  {
    victims, freed := [], 0;
    var i := 0;
    while i < |rows| && Less(total, freed) > target
      invariant 0 <= i <= |rows|
      invariant |victims| == (if i <= u then i else u) && victims == rows[..|victims|] && freed == Sum(victims)
      invariant forall m :: 0 <= m < |victims| ==> Less(total, Sum(rows[..m])) > target
    {
      SumStep(rows, i);
      if !Protected(rows[i], now) {
        victims := victims + [rows[i]];
        freed := freed + rows[i].len;
      }
      i := i + 1;
    }
  }

  /** If the hard limit is still exceeded after the first pass, a second takes the rest in the same order. */
  method ChooseVictims(rows: seq<Row>, total: nat, target: nat, max: nat, now: nat)
    returns (victims: seq<Row>, freed: nat)
    requires Oldest(rows) && Distinct(rows) && target <= max
    ensures IsChoice(rows, total, target, max, now, victims) && freed == Sum(victims)
  {
    hide Oldest, Distinct, IsShortest, IsCold;
    ghost var u := ColdExists(rows, now);
    assert u <= |rows| by { ColdWithin(rows, now, u); }
    victims, freed := FirstPass(rows, total, target, now, u);
    ghost var k := |victims|;
    if Less(total, freed) > max {
      victims, freed := SecondPass(rows, total, target, victims, freed);
    } else {
      ghost var n := ShortestFrom(rows, total, target, k);
    }
  }

  lemma ColdWithin(rows: seq<Row>, now: nat, u: nat)
    requires IsCold(rows, now, u)
    ensures u <= |rows|
  {}

  method SecondPass(rows: seq<Row>, total: nat, target: nat, first: seq<Row>, freed0: nat)
    returns (victims: seq<Row>, freed: nat)
    requires Distinct(rows) && |first| <= |rows| && first == rows[..|first|] && freed0 == Sum(first)
    requires forall m :: 0 <= m < |first| ==> Less(total, Sum(rows[..m])) > target
    requires Less(total, freed0) > target
    ensures |victims| <= |rows| && victims == rows[..|victims|] && freed == Sum(victims)
    ensures IsShortest(rows, total, target, |victims|)
  {
    hide Distinct, Sum;
    var chosen := HashesOf(first);
    victims, freed := first, freed0;
    var i := 0;
    while i < |rows| && Less(total, freed) > target
      invariant 0 <= i <= |rows|
      invariant |victims| == (if i < |first| then |first| else i) && victims == rows[..|victims|]
      invariant freed == Sum(victims)
      invariant forall m :: 0 <= m < |victims| ==> Less(total, Sum(rows[..m])) > target
    {
      SumStep(rows, i);
      InPrefix(rows, |first|, i);
      if rows[i].hash !in chosen {
        victims := victims + [rows[i]];
        freed := freed + rows[i].len;
      }
      i := i + 1;
    }
  }

  lemma InPrefix(rows: seq<Row>, n: nat, i: nat)
    requires Distinct(rows) && n <= |rows| && i < |rows|
    ensures (exists j :: 0 <= j < n && rows[..n][j].hash == rows[i].hash) <==> i < n
  {
    if i < n { assert rows[..n][i].hash == rows[i].hash; }
    if j :| 0 <= j < n && rows[..n][j].hash == rows[i].hash { assert rows[j].hash == rows[i].hash; }
  }

  method HashesOf(rows: seq<Row>) returns (hs: set<Hash>)
    ensures forall h :: h in hs <==> exists j :: 0 <= j < |rows| && rows[j].hash == h
  {
    hs := {};
    var i := 0;
    while i < |rows|
      invariant 0 <= i <= |rows|
      invariant forall h :: h in hs <==> exists j :: 0 <= j < i && rows[j].hash == h
    {
      hs := hs + {rows[i].hash};
      i := i + 1;
    }
  }

  /** The shortest prefix, searched on from one known too short or just right. */
  lemma {:induction false} ShortestFrom(rows: seq<Row>, total: nat, target: nat, k: nat) returns (n: nat)
    requires k <= |rows| && forall m :: 0 <= m < k ==> Less(total, Sum(rows[..m])) > target
    ensures IsShortest(rows, total, target, n) && n >= k
    ensures n == k <==> k == |rows| || Less(total, Sum(rows[..k])) <= target
    decreases |rows| - k
  {
    if k == |rows| || Less(total, Sum(rows[..k])) <= target {
      n := k;
    } else {
      n := ShortestFrom(rows, total, target, k + 1);
    }
  }

  // ---- what the rule means --------------------------------------------------------------------------

  /** A protected chunk goes only if giving up every unprotected one leaves more than the hard limit. */
  lemma ProtectedOnlyIfForced(rows: seq<Row>, total: nat, target: nat, max: nat, now: nat, victims: seq<Row>, i: nat)
    requires IsChoice(rows, total, target, max, now, victims) && i < |victims| && Protected(victims[i], now)
    ensures exists u: nat :: IsCold(rows, now, u) && u <= i && Less(total, Sum(rows[..u])) > max
  {
    var n: nat, u: nat :| IsShortest(rows, total, target, n) && IsCold(rows, now, u)
             && victims == rows[..if n <= u || Less(total, Sum(rows[..u])) > max then n else u];
    assert victims[i] == rows[i];
  }

  /** With the store's total exact, what is left never exceeds the hard limit. */
  lemma ChoiceFits(rows: seq<Row>, total: nat, target: nat, max: nat, now: nat, victims: seq<Row>)
    requires IsChoice(rows, total, target, max, now, victims) && total <= Sum(rows) && target <= max
    ensures Less(total, Sum(victims)) <= max
  {
    assert rows[..|rows|] == rows;
  }

  // ---- sums -------------------------------------------------------------------------------------------

  lemma {:induction false} SumConcat(a: seq<Row>, b: seq<Row>)
    ensures Sum(a + b) == Sum(a) + Sum(b)
    decreases |b|
  {
    if b == [] {
      assert a + b == a;
    } else {
      assert (a + b)[..|a + b| - 1] == a + b[..|b| - 1];
      SumConcat(a, b[..|b| - 1]);
    }
  }

  /** Bytes held by a set of chunks. */
  ghost function TotalOf(hs: set<Hash>): nat
    decreases |hs|
  {
    if hs == {} then 0
    else
      var h :| h in hs;
      |h.of| + TotalOf(hs - {h})
  }

  lemma {:induction false} TotalWithout(hs: set<Hash>, h: Hash)
    requires h in hs
    ensures TotalOf(hs) == |h.of| + TotalOf(hs - {h})
    decreases |hs|
  {
    var g :| g in hs && TotalOf(hs) == |g.of| + TotalOf(hs - {g});
    if g != h {
      TotalWithout(hs - {g}, h);
      assert hs - {g} - {h} == hs - {h} - {g};
      TotalWithout(hs - {h}, g);
    }
  }

  ghost function HashSet(rows: seq<Row>): set<Hash> {
    set i | 0 <= i < |rows| :: rows[i].hash
  }

  predicate Sized(rows: seq<Row>) {
    forall i :: 0 <= i < |rows| ==> rows[i].len == |rows[i].hash.of|
  }

  /** Distinct chunks: the sum of the list is the total of the set. */
  lemma {:induction false} TotalIsSum(rows: seq<Row>)
    requires Distinct(rows) && Sized(rows)
    ensures TotalOf(HashSet(rows)) == Sum(rows) && |HashSet(rows)| == |rows|
    decreases |rows|
  {
    if rows == [] {
      assert HashSet(rows) == {};
    } else {
      var init, last := rows[..|rows| - 1], rows[|rows| - 1];
      assert rows == init + [last];
      assert last.len == |last.hash.of|;
      DistinctSplit(init, [last]);
      HashSetConcat(init, [last]);
      HashSetOne(last);
      assert Sized(init);
      hide HashSet, Distinct, Sized, TotalOf;
      TotalIsSum(init);
      TotalWithout(HashSet(rows), last.hash);
      assert HashSet(rows) - {last.hash} == HashSet(init);
    }
  }

  lemma InHashSet(rows: seq<Row>, h: Hash)
    ensures h in HashSet(rows) <==> exists i :: 0 <= i < |rows| && rows[i].hash == h
  {}

  lemma HashSetOne(row: Row)
    ensures HashSet([row]) == {row.hash}
  {
    forall h ensures h in HashSet([row]) <==> h == row.hash {
      InHashSet([row], h);
      hide HashSet;
      if h == row.hash { assert [row][0].hash == h; }
    }
  }

  lemma HashSetConcat(a: seq<Row>, b: seq<Row>)
    ensures HashSet(a + b) == HashSet(a) + HashSet(b)
  {
    forall h ensures h in HashSet(a + b) <==> h in HashSet(a) || h in HashSet(b) {
      InHashSet(a + b, h);
      InHashSet(a, h);
      InHashSet(b, h);
      hide HashSet;
      if i :| 0 <= i < |a| && a[i].hash == h { assert (a + b)[i].hash == h; }
      if i :| 0 <= i < |b| && b[i].hash == h { assert (a + b)[|a| + i].hash == h; }
      if i :| 0 <= i < |a + b| && (a + b)[i].hash == h {
        if i < |a| { assert a[i].hash == h; } else { assert b[i - |a|].hash == h; }
      }
    }
  }

  lemma DistinctSplit(a: seq<Row>, b: seq<Row>)
    requires Distinct(a + b)
    ensures Distinct(a) && Distinct(b) && HashSet(a) !! HashSet(b)
  {
    var all := a + b;
    forall i, j | 0 <= i < j < |a| ensures a[i].hash != a[j].hash { assert all[i] == a[i] && all[j] == a[j]; }
    forall i, j | 0 <= i < j < |b| ensures b[i].hash != b[j].hash {
      assert all[|a| + i] == b[i] && all[|a| + j] == b[j];
    }
    forall h | h in HashSet(a) ensures h !in HashSet(b) {
      InHashSet(a, h);
      InHashSet(b, h);
      var i :| 0 <= i < |a| && a[i].hash == h;
      assert all[i].hash == h;
      forall j | 0 <= j < |b| ensures b[j].hash != h { assert all[|a| + j] == b[j]; }
    }
  }

  lemma InsertDistinct(a: seq<Row>, row: Row, b: seq<Row>)
    requires Distinct(a + b) && row.hash !in HashSet(a + b)
    ensures Distinct(a + [row] + b)
  {
    var all, more := a + b, a + [row] + b;
    forall i | 0 <= i < |all| ensures all[i].hash != row.hash { InHashSet(all, all[i].hash); }
    hide HashSet;
    forall i, j | 0 <= i < j < |more| ensures more[i].hash != more[j].hash {
      var i', j' := if i < |a| then i else i - 1, if j < |a| then j else j - 1;
      if i != |a| { assert more[i] == all[i']; }
      if j != |a| { assert more[j] == all[j']; }
    }
  }

  lemma InsertOldest(a: seq<Row>, row: Row, b: seq<Row>)
    requires Oldest(a + b)
    requires (forall i :: 0 <= i < |a| ==> a[i].last <= row.last) && (b != [] ==> row.last <= b[0].last)
    ensures Oldest(a + [row] + b)
  {
    var all, more := a + b, a + [row] + b;
    forall i | 0 <= i < |b| ensures row.last <= b[i].last { assert all[|a|] == b[0] && all[|a| + i] == b[i]; }
    forall i, j | 0 <= i < j < |more| ensures more[i].last <= more[j].last {
      var i', j' := if i < |a| then i else i - 1, if j < |a| then j else j - 1;
      if i != |a| { assert more[i] == all[i']; }
      if j != |a| { assert more[j] == all[j']; }
    }
  }
}
