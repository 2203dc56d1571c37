/** What a directory table means, apart from how it is stored: a plain map from name to
    (node, kind, cookie), plus the counters a client can observe. */
module DirViews {
  import opened Types

  /** 1 and 2 are taken by "." and "..", which a mount surface adds itself. */
  const FIRST_COOKIE: nat := 3

  datatype Dentry = Dentry(node: NodeKey, kind: Kind, cookie: nat)

  datatype DirView = DirView(table: map<Name, Dentry>, nextCookie: nat, dirgen: nat, complete: bool)

  /** What an upsert tells the link accounting. */
  datatype UpsertResult = UpsertResult(gainedLink: bool, displaced: Option<NodeKey>, delta: int)

  const EMPTY := DirView(map[], FIRST_COOKIE, 0, false)

  predicate DistinctCookies(t: map<Name, Dentry>) {
    forall m, n :: m in t && n in t && t[m].cookie == t[n].cookie ==> m == n
  }

  predicate WellFormed(v: DirView) {
    && FIRST_COOKIE <= v.nextCookie
    && DistinctCookies(v.table)
    && forall n :: n in v.table ==> FIRST_COOKIE <= v.table[n].cookie < v.nextCookie
  }

  function Get(v: DirView, name: Name): Option<(NodeKey, Kind)> {
    if name in v.table then Some((v.table[name].node, v.table[name].kind)) else None
  }

  function Upsert(v: DirView, name: Name, node: NodeKey, kind: Kind): (DirView, UpsertResult) {
    if name in v.table && v.table[name].node == node then
      (v.(table := v.table[name := v.table[name].(kind := kind)]), UpsertResult(false, None, 0))
    else
      (v.(table := v.table[name := Dentry(node, kind, v.nextCookie)],
          nextCookie := v.nextCookie + 1,
          dirgen := v.dirgen + 1),
       if name in v.table then UpsertResult(true, Some(v.table[name].node), 0)
       else UpsertResult(true, None, 1))
  }

  function Remove(v: DirView, name: Name): (DirView, Option<NodeKey>) {
    if name in v.table then
      (v.(table := v.table - {name}, dirgen := v.dirgen + 1), Some(v.table[name].node))
    else
      (v, None)
  }

  /** A change a client may make between two readdir calls. */
  datatype Change = Put(name: Name, node: NodeKey, kind: Kind) | Del(name: Name)

  function Apply(v: DirView, c: Change): DirView {
    match c
    case Put(name, node, kind) => Upsert(v, name, node, kind).0
    case Del(name) => Remove(v, name).0
  }

  function Run(v: DirView, cs: seq<Change>): DirView
    decreases |cs|
  {
    if cs == [] then v else Run(Apply(v, cs[0]), cs[1..])
  }

  ghost predicate IsFirst(t: map<Name, Dentry>, first: Name) {
    first in t && forall n :: n in t ==> t[first].cookie <= t[n].cookie
  }

  /** Names in cookie order: the order in which live entries sit in the table. */
  ghost function ByCookie(t: map<Name, Dentry>): seq<Name>
    decreases |t|
  {
    if |t| == 0 then
      []
    else
      FirstExists(t);
      var first :| IsFirst(t, first);
      assert |t - {first}| < |t| by { assert (t - {first}).Keys == t.Keys - {first}; }
      [first] + ByCookie(t - {first})
  }

  lemma {:induction false} ByCookieWithin(t: map<Name, Dentry>)
    ensures forall n :: n in ByCookie(t) ==> n in t
    decreases |t|
  {
    if |t| != 0 {
      var first := ByCookie(t)[0];
      assert (t - {first}).Keys == t.Keys - {first};
      ByCookieWithin(t - {first});
    }
  }

  predicate Sorted(t: map<Name, Dentry>, names: seq<Name>)
    requires forall n :: n in names ==> n in t
  {
    forall i, j :: 0 <= i < j < |names| ==> t[names[i]].cookie < t[names[j]].cookie
  }

  lemma {:induction false} ByCookieSorts(t: map<Name, Dentry>)
    requires DistinctCookies(t)
    ensures forall n :: n in ByCookie(t) <==> n in t
    ensures Sorted(t, ByCookie(t))
    ensures |ByCookie(t)| == |t|
    decreases |t|
  {
    hide DistinctCookies, IsFirst, Sorted;
    var names := ByCookie(t);
    if |t| == 0 {
      assert names == [];
      SortedNothing(t);
    } else {
      var first, rest := names[0], names[1..];
      assert names == [first] + rest && rest == ByCookie(t - {first}) && IsFirst(t, first);
      WithoutFirst(t, first);
      ByCookieSorts(t - {first});
      PrependFirst(t, first, rest);
    }
  }

  lemma SortedNothing(t: map<Name, Dentry>)
    ensures Sorted(t, [])
  {}

  lemma WithoutFirst(t: map<Name, Dentry>, first: Name)
    requires IsFirst(t, first) && DistinctCookies(t)
    ensures DistinctCookies(t - {first})
    ensures |t - {first}| == |t| - 1
    ensures forall n :: n in t - {first} <==> n in t && n != first
  {
    assert (t - {first}).Keys == t.Keys - {first};
  }

  lemma PrependFirst(t: map<Name, Dentry>, first: Name, rest: seq<Name>)
    requires DistinctCookies(t)
    requires IsFirst(t, first)
    requires forall n :: n in rest <==> n in t - {first}
    requires Sorted(t - {first}, rest)
    ensures forall n :: n in [first] + rest <==> n in t
    ensures Sorted(t, [first] + rest)
  {
    forall n | n in rest ensures n in t && t[first].cookie < t[n].cookie {
      assert n in t - {first};
    }
    assert forall j :: 0 <= j < |rest| ==> rest[j] in rest;
  }

  lemma {:induction false} FirstExists(t: map<Name, Dentry>)
    requires |t| != 0
    ensures exists first :: IsFirst(t, first)
    decreases |t|
  {
    var m :| m in t;
    var rest := t - {m};
    assert rest.Keys == t.Keys - {m};
    if |rest| == 0 {
      assert IsFirst(t, m);
    } else {
      FirstExists(rest);
      var f :| IsFirst(rest, f);
      var first := if t[f].cookie <= t[m].cookie then f else m;
      forall n | n in t ensures t[first].cookie <= t[n].cookie {
        if n != m { assert n in rest.Keys; }
      }
      assert IsFirst(t, first);
    }
  }

  /** There is only one cookie-sorted enumeration of a table. */
  lemma {:induction false} SortedEnumerationUnique(t: map<Name, Dentry>, a: seq<Name>)
    requires DistinctCookies(t)
    requires forall n :: n in a <==> n in t
    requires Sorted(t, a)
    ensures a == ByCookie(t)
    decreases |a|
  {
    hide DistinctCookies, Sorted, IsFirst, ByCookie;
    if |a| == 0 {
      ByCookieOfNone(t);
    } else {
      SortedHead(t, a);
      ByCookieStartsWith(t, a[0]);
      WithoutFirst(t, a[0]);
      SortedEnumerationUnique(t - {a[0]}, a[1..]);
      assert a == [a[0]] + a[1..];
    }
  }

  lemma ByCookieOfNone(t: map<Name, Dentry>)
    requires forall n :: n !in t
    ensures ByCookie(t) == []
  {
    assert t.Keys == {};
  }

  lemma ByCookieStartsWith(t: map<Name, Dentry>, first: Name)
    requires DistinctCookies(t) && IsFirst(t, first)
    ensures ByCookie(t) == [first] + ByCookie(t - {first})
  {
    assert t.Keys != {};
    var b := ByCookie(t);
    FirstUnique(t, first, b[0]);
  }

  lemma FirstUnique(t: map<Name, Dentry>, m: Name, n: Name)
    requires DistinctCookies(t) && IsFirst(t, m) && IsFirst(t, n)
    ensures m == n
  {}

  lemma SortedHead(t: map<Name, Dentry>, a: seq<Name>)
    requires 0 < |a| && (forall n :: n in a <==> n in t) && Sorted(t, a)
    ensures IsFirst(t, a[0])
    ensures forall n :: n in a[1..] <==> n in t - {a[0]}
    ensures Sorted(t - {a[0]}, a[1..])
  {
    forall n | n in a[1..] ensures t[a[0]].cookie < t[n].cookie {
      var i :| 0 <= i < |a[1..]| && a[1..][i] == n;
      assert a[i + 1] == n;
    }
    assert forall n :: n in a <==> n == a[0] || n in a[1..];
  }

  // ---- what every change keeps ---------------------------------------------------------

  lemma ApplyKeepsWellFormed(v: DirView, c: Change)
    requires WellFormed(v)
    ensures WellFormed(Apply(v, c))
    ensures v.nextCookie <= Apply(v, c).nextCookie
  {}

  lemma {:induction false} RunKeepsWellFormed(v: DirView, cs: seq<Change>)
    requires WellFormed(v)
    ensures WellFormed(Run(v, cs))
    ensures v.nextCookie <= Run(v, cs).nextCookie
    decreases |cs|
  {
    if cs != [] {
      ApplyKeepsWellFormed(v, cs[0]);
      RunKeepsWellFormed(Apply(v, cs[0]), cs[1..]);
    }
  }

  /** A repeated upsert disturbs neither cookie nor generation, whatever came before it. */
  lemma UpsertTwice(v: DirView, name: Name, node: NodeKey, kind: Kind)
    ensures var once := Upsert(v, name, node, kind).0;
            Upsert(once, name, node, kind) == (once, UpsertResult(false, None, 0))
  {
    var once := Upsert(v, name, node, kind).0;
    assert once.table[name := once.table[name].(kind := kind)] == once.table;
  }

  // ---- what a client can tell from generation and cookies ----------------------------------

  /** What each name stands for. */
  function Names(v: DirView): map<Name, NodeKey> {
    map n | n in v.table :: v.table[n].node
  }

  /** How many of these changes gave some name another meaning. */
  function Moves(v: DirView, cs: seq<Change>): nat
    decreases |cs|
  {
    if cs == [] then 0
    else (if Names(Apply(v, cs[0])) != Names(v) then 1 else 0) + Moves(Apply(v, cs[0]), cs[1..])
  }

  /** A change concerns one name, and does to it what it says. */
  lemma ApplyIs(v: DirView, c: Change)
    ensures c.Put? ==> Names(Apply(v, c)) == Names(v)[c.name := c.node]
                       && Get(Apply(v, c), c.name) == Some((c.node, c.kind))
    ensures c.Del? ==> Names(Apply(v, c)) == Names(v) - {c.name}
    ensures forall n :: n in v.table && n != c.name ==>
              n in Apply(v, c).table && Apply(v, c).table[n] == v.table[n]
    ensures Apply(v, c).complete == v.complete
  {
    var v' := Apply(v, c);
    if c.Del? {
      assert v'.table == v.table - {c.name};
      assert Names(v').Keys == (Names(v) - {c.name}).Keys;
    } else {
      assert Names(v').Keys == Names(v)[c.name := c.node].Keys;
    }
  }

  /** A generation moves by one with each change of meaning, and with nothing else. */
  lemma {:induction false} DirgenCountsMoves(v: DirView, cs: seq<Change>)
    ensures Run(v, cs).dirgen == v.dirgen + Moves(v, cs)
    decreases |cs|
  {
    if cs != [] {
      DirgenCountsMoves(Apply(v, cs[0]), cs[1..]);
      DirgenMoves(v, cs[0]);
    }
  }

  lemma DirgenMoves(v: DirView, c: Change)
    ensures Apply(v, c).dirgen == v.dirgen + if Names(Apply(v, c)) != Names(v) then 1 else 0
  {
    ApplyIs(v, c);
    var names, names' := Names(v), Names(Apply(v, c));
    if c.name in v.table {
      assert names[c.name] == v.table[c.name].node;
      if c.Put? && c.node == v.table[c.name].node {
        assert names' == names;
      } else {
        assert c.name in names && (c.name in names' ==> names'[c.name] != names[c.name]);
      }
    } else {
      assert c.name !in names;
      if c.Put? { assert c.name in names'; }
    }
  }

  /** This dentry dates from before, or has a cookie no dentry had then. */
  ghost predicate OldOrNew(v: DirView, v': DirView, m: Name) {
    || (m in v'.table && v.nextCookie <= v'.table[m].cookie)
    || (m in v'.table && m in v.table
        && v'.table[m].node == v.table[m].node && v'.table[m].cookie == v.table[m].cookie)
  }

  lemma {:induction false} RunOldOrNew(v: DirView, cs: seq<Change>, m: Name)
    requires WellFormed(v) && m in Run(v, cs).table
    ensures OldOrNew(v, Run(v, cs), m)
    decreases |cs|
  {
    if cs != [] {
      ApplyKeepsWellFormed(v, cs[0]);
      RunOldOrNew(Apply(v, cs[0]), cs[1..], m);
    }
  }

  /** A cookie means one dentry for good: no later entry of the directory ever gets it. */
  lemma CookieMeansDentry(v: DirView, cs: seq<Change>, n: Name, m: Name)
    requires WellFormed(v) && n in v.table && m in Run(v, cs).table
    ensures v.table[n].cookie == Run(v, cs).table[m].cookie ==>
              n == m && v.table[n].node == Run(v, cs).table[m].node
  {
    RunOldOrNew(v, cs, m);
  }

  lemma {:induction false} NoMoves(v: DirView, cs: seq<Change>)
    requires Moves(v, cs) == 0
    ensures Names(Run(v, cs)) == Names(v) && Run(v, cs).nextCookie == v.nextCookie
    decreases |cs|
  {
    if cs != [] {
      var c, v' := cs[0], Apply(v, cs[0]);
      assert Names(v') == Names(v);
      NoMoves(v', cs[1..]);
      if c.Put? { assert c.name in Names(v') && Names(v')[c.name] == c.node; }
    }
  }

  /** Two readings with one generation read the same names, for the same nodes, under the same cookies. */
  lemma SameGeneration(v: DirView, cs: seq<Change>)
    requires WellFormed(v) && Run(v, cs).dirgen == v.dirgen
    ensures Names(Run(v, cs)) == Names(v)
    ensures forall n :: n in v.table ==> n in Run(v, cs).table && Run(v, cs).table[n].cookie == v.table[n].cookie
  {
    DirgenCountsMoves(v, cs);
    NoMoves(v, cs);
    RunKeepsWellFormed(v, cs);
    forall n | n in v.table
      ensures n in Run(v, cs).table && Run(v, cs).table[n].cookie == v.table[n].cookie
    {
      assert n in Names(v);
      RunOldOrNew(v, cs, n);
    }
  }

  // ---- paging --------------------------------------------------------------------------

  datatype ReadDirEntry = ReadDirEntry(cookie: nat, name: Name, node: NodeKey, kind: Kind)

  datatype ReadDirPage = ReadDirPage(entries: seq<ReadDirEntry>, eof: bool, dirgen: nat)

  function EntryOf(t: map<Name, Dentry>, n: Name): ReadDirEntry
    requires n in t
  {
    ReadDirEntry(t[n].cookie, n, t[n].node, t[n].kind)
  }

  function Newer(t: map<Name, Dentry>, after: nat): map<Name, Dentry> {
    map n | n in t && after < t[n].cookie :: t[n]
  }

  lemma NewerDistinct(t: map<Name, Dentry>, after: nat)
    requires DistinctCookies(t)
    ensures DistinctCookies(Newer(t, after))
  {}

  ghost function EntriesAfter(v: DirView, after: nat): seq<ReadDirEntry>
    requires DistinctCookies(v.table)
  {
    var t := Newer(v.table, after);
    ByCookieSorts(t);
    var names := ByCookie(t);
    seq(|names|, i requires 0 <= i < |names| => EntryOf(t, names[i]))
  }

  ghost predicate IsEntryAfter(v: DirView, after: nat, e: ReadDirEntry) {
    e.name in v.table && after < e.cookie && e == EntryOf(v.table, e.name)
  }

  lemma EntriesAfterAre(v: DirView, after: nat)
    requires DistinctCookies(v.table)
    ensures CookiesAscend(EntriesAfter(v, after))
    ensures forall e :: e in EntriesAfter(v, after) <==> IsEntryAfter(v, after, e)
  {
    hide DistinctCookies;
    var t := Newer(v.table, after);
    NewerDistinct(v.table, after);
    ByCookieSorts(t);
    var names := ByCookie(t);
    var es := EntriesAfter(v, after);
    assert forall i :: 0 <= i < |es| ==> names[i] in names && es[i] == EntryOf(t, names[i]);
    forall e | IsEntryAfter(v, after, e) ensures e in es {
      assert e.name in t;
      var i :| 0 <= i < |names| && names[i] == e.name;
      assert es[i] == e;
    }
  }

  ghost function Page(v: DirView, after: nat, max: nat): ReadDirPage
    requires DistinctCookies(v.table)
  {
    var es := EntriesAfter(v, after);
    if |es| <= max then ReadDirPage(es, true, v.dirgen) else ReadDirPage(es[..max], false, v.dirgen)
  }

  /** A client listing a directory in several calls. */
  datatype Listing = Listing(view: DirView, cursor: nat, got: seq<ReadDirEntry>, eof: bool)

  /** One readdir call, after some changes to the directory. */
  datatype Call = Call(changes: seq<Change>, max: nat)

  /** Where a client that got these entries goes on. */
  function CursorAfter(cursor: nat, es: seq<ReadDirEntry>): nat {
    if es == [] then cursor else es[|es| - 1].cookie
  }

  ghost function Resume(l: Listing, c: Call): Listing
    requires WellFormed(l.view)
  {
    RunKeepsWellFormed(l.view, c.changes);
    var v := Run(l.view, c.changes);
    var p := Page(v, l.cursor, c.max);
    Listing(v, CursorAfter(l.cursor, p.entries), l.got + p.entries, p.eof)
  }

  ghost function ResumeAll(l: Listing, calls: seq<Call>): Listing
    requires WellFormed(l.view)
    decreases |calls|
  {
    if calls == [] || l.eof then l else (
      RunKeepsWellFormed(l.view, calls[0].changes);
      ResumeAll(Resume(l, calls[0]), calls[1..]))
  }

  /** The dentry for `name` with this cookie outlives every change of these calls. */
  ghost predicate StaysLive(v: DirView, calls: seq<Call>, name: Name, cookie: nat)
    decreases |calls|
  {
    && name in v.table
    && v.table[name].cookie == cookie
    && (calls == [] || StaysLive(Run(v, calls[0].changes), calls[1..], name, cookie))
  }

  predicate CookiesAscend(es: seq<ReadDirEntry>) {
    forall i, j :: 0 <= i < j < |es| ==> es[i].cookie < es[j].cookie
  }

  ghost predicate Returned(es: seq<ReadDirEntry>, name: Name, cookie: nat) {
    exists i :: 0 <= i < |es| && es[i].name == name && es[i].cookie == cookie
  }

  ghost predicate ListingInv(l: Listing) {
    && WellFormed(l.view)
    && CookiesAscend(l.got)
    && (forall i :: 0 <= i < |l.got| ==> l.got[i].cookie <= l.cursor)
  }

  lemma NewerThan(v: DirView, after: nat, es: seq<ReadDirEntry>)
    requires forall e :: e in es ==> IsEntryAfter(v, after, e)
    ensures forall e :: e in es ==> after < e.cookie
  {}

  lemma AppendPage(got: seq<ReadDirEntry>, cursor: nat, es: seq<ReadDirEntry>)
    requires CookiesAscend(got) && forall i :: 0 <= i < |got| ==> got[i].cookie <= cursor
    requires CookiesAscend(es) && forall i :: 0 <= i < |es| ==> cursor < es[i].cookie
    ensures CookiesAscend(got + es)
    ensures forall i :: 0 <= i < |got + es| ==> (got + es)[i].cookie <= CursorAfter(cursor, es)
    ensures cursor <= CursorAfter(cursor, es) && (es != [] ==> cursor < CursorAfter(cursor, es))
  {}

  lemma ResumeKeepsInv(l: Listing, c: Call)
    requires ListingInv(l)
    ensures ListingInv(Resume(l, c))
    ensures l.cursor <= Resume(l, c).cursor
    ensures 0 < c.max && !Resume(l, c).eof ==> l.cursor < Resume(l, c).cursor
  {
    RunKeepsWellFormed(l.view, c.changes);
    hide Run, EntriesAfter, WellFormed, CookiesAscend;
    PageIsNew(Run(l.view, c.changes), l.cursor, c.max);
    AppendPage(l.got, l.cursor, Page(Run(l.view, c.changes), l.cursor, c.max).entries);
  }

  lemma PageIsNew(v: DirView, after: nat, max: nat)
    requires WellFormed(v)
    ensures var p := Page(v, after, max);
            && CookiesAscend(p.entries) && (forall i :: 0 <= i < |p.entries| ==> after < p.entries[i].cookie)
            && (!p.eof && 0 < max ==> p.entries != [])
  {
    EntriesAfterAre(v, after);
    hide EntriesAfter, IsEntryAfter;
    var es := EntriesAfter(v, after);
    NewerThan(v, after, es);
    forall i | 0 <= i < |Page(v, after, max).entries| ensures after < Page(v, after, max).entries[i].cookie {
      assert es[i] in es;
    }
  }

  /** A live entry past the cursor is either on the page or past the end of it. */
  lemma PageReaches(v: DirView, after: nat, max: nat, name: Name)
    requires WellFormed(v) && name in v.table && after < v.table[name].cookie
    ensures var cookie, p := v.table[name].cookie, Page(v, after, max);
            || Returned(p.entries, name, cookie)
            || (!p.eof && forall i :: 0 <= i < |p.entries| ==> p.entries[i].cookie < cookie)
  {
    EntriesAfterAre(v, after);
    var es, p, e := EntriesAfter(v, after), Page(v, after, max), EntryOf(v.table, name);
    assert IsEntryAfter(v, after, e);
    var k :| 0 <= k < |es| && es[k] == e;
    if k < |p.entries| { assert p.entries[k] == e; }
  }

  /** A page ends the listing exactly if every live entry past the cursor is on it; otherwise it is as long as asked
      for. */
  lemma PageEndsIff(v: DirView, after: nat, max: nat)
    requires WellFormed(v)
    ensures var p := Page(v, after, max);
            && (p.eof <==> forall n :: n in v.table && after < v.table[n].cookie ==>
                                         Returned(p.entries, n, v.table[n].cookie))
            && (!p.eof ==> |p.entries| == max)
  {
    EntriesAfterAre(v, after);
    hide EntriesAfter, CookiesAscend;
    var es, p := EntriesAfter(v, after), Page(v, after, max);
    forall n | n in v.table && after < v.table[n].cookie && p.eof ensures Returned(p.entries, n, v.table[n].cookie) {
      PageReaches(v, after, max, n);
    }
    if !p.eof {
      var e := es[max];
      assert e in es && IsEntryAfter(v, after, e);
      PastPage(es, max);
    }
  }

  lemma PastPage(es: seq<ReadDirEntry>, max: nat)
    requires CookiesAscend(es) && max < |es|
    ensures !Returned(es[..max], es[max].name, es[max].cookie)
  {}

  lemma ResumeReaches(l: Listing, c: Call, name: Name, cookie: nat)
    requires ListingInv(l)
    requires var v := Run(l.view, c.changes); name in v.table && v.table[name].cookie == cookie
    requires cookie <= l.cursor <==> Returned(l.got, name, cookie)
    ensures var l' := Resume(l, c);
            && (cookie <= l'.cursor <==> Returned(l'.got, name, cookie))
            && (l'.eof ==> cookie <= l'.cursor)
  {
    RunKeepsWellFormed(l.view, c.changes);
    ResumeKeepsInv(l, c);
    var v := Run(l.view, c.changes);
    hide Run, WellFormed, CookiesAscend, Page, Returned;
    var p, l' := Page(v, l.cursor, c.max), Resume(l, c);
    assert l'.got == l.got + p.entries;
    ReturnedEither(l.got, p.entries, name, cookie);
    ReturnedWithin(l'.got, name, cookie, l'.cursor);
    if cookie > l.cursor {
      PageReaches(v, l.cursor, c.max, name);
    }
  }

  lemma ReturnedEither(a: seq<ReadDirEntry>, b: seq<ReadDirEntry>, name: Name, cookie: nat)
    ensures Returned(a + b, name, cookie) <==> Returned(a, name, cookie) || Returned(b, name, cookie)
  {
    if i :| 0 <= i < |a| && a[i].name == name && a[i].cookie == cookie {
      assert (a + b)[i] == a[i];
    }
    if i :| 0 <= i < |b| && b[i].name == name && b[i].cookie == cookie {
      assert (a + b)[|a| + i] == b[i];
    }
  }

  lemma ReturnedWithin(es: seq<ReadDirEntry>, name: Name, cookie: nat, cursor: nat)
    requires forall i :: 0 <= i < |es| ==> es[i].cookie <= cursor
    ensures Returned(es, name, cookie) ==> cookie <= cursor
  {}

  /** However the directory changes between calls, a dentry that stays live is returned
      exactly once by a listing that runs to eof, and cookies only go up. */
  lemma {:induction false} PagingExactlyOnce(l: Listing, calls: seq<Call>, name: Name, cookie: nat)
    requires ListingInv(l)
    requires StaysLive(l.view, calls, name, cookie)
    requires cookie <= l.cursor <==> Returned(l.got, name, cookie)
    requires l.eof ==> cookie <= l.cursor
    ensures var done := ResumeAll(l, calls);
            && CookiesAscend(done.got)
            && (done.eof ==> Returned(done.got, name, cookie))
    decreases |calls|
  {
    if calls != [] && !l.eof {
      ResumeKeepsInv(l, calls[0]);
      ResumeReaches(l, calls[0], name, cookie);
      PagingExactlyOnce(Resume(l, calls[0]), calls[1..], name, cookie);
    }
  }

  /** The same from the first call of a fresh listing. */
  lemma PagingFromStart(v: DirView, calls: seq<Call>, name: Name, cookie: nat)
    requires WellFormed(v)
    requires StaysLive(v, calls, name, cookie)
    ensures var done := ResumeAll(Listing(v, 0, [], false), calls);
            && CookiesAscend(done.got)
            && (done.eof ==> Returned(done.got, name, cookie))
  {
    PagingExactlyOnce(Listing(v, 0, [], false), calls, name, cookie);
  }

  /** Nothing is invented: each returned entry was live when its page was cut. */
  lemma ReturnedWasLive(l: Listing, c: Call, i: nat)
    requires ListingInv(l)
    requires |l.got| <= i < |Resume(l, c).got|
    ensures var v := Run(l.view, c.changes); var e := Resume(l, c).got[i];
            e.name in v.table && e == EntryOf(v.table, e.name)
  {
    RunKeepsWellFormed(l.view, c.changes);
    EntriesAfterAre(Run(l.view, c.changes), l.cursor);
    var es := EntriesAfter(Run(l.view, c.changes), l.cursor);
    assert Resume(l, c).got[i] == es[i - |l.got|];
    assert es[i - |l.got|] in es;
  }
}
