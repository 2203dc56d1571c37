/** READDIR and READDIRPLUS replies of NFS version 3 (sections 3.3.16 and 3.3.17 of RFC 1813): a page of
    the replica is encoded until the client's size limit would be passed. */
module Nfs3ReadDirs {
  import opened Types
  import opened DirViews

  // ---- encoded sizes, in bytes --------------------------------------------------------------------

  const BOOL_SIZE := 4
  const U64_SIZE := 8
  const HANDLE_LEN := 28
  /** fattr3: five words, then size, used, device, fsid, fileid and three times of eight bytes each. */
  const FATTR3_SIZE := 5 * 4 + 8 * 8

  function Padded(n: nat): nat {
    (n + 3) / 4 * 4
  }

  function OpaqueSize(n: nat): nat {
    4 + Padded(n)
  }

  function AttrSize(known: bool): nat {
    BOOL_SIZE + if known then FATTR3_SIZE else 0
  }

  /** One entry: a flag, the file id, the name, the cookie, and for PLUS attributes and handle. */
  function EntrySize(plus: bool, e: ReadDirEntry, known: bool): nat {
    BOOL_SIZE + U64_SIZE + OpaqueSize(|e.name.bytes|) + U64_SIZE
    + if plus then AttrSize(known) + BOOL_SIZE + OpaqueSize(HANDLE_LEN) else 0
  }

  const TERMINATOR_SIZE := 2 * BOOL_SIZE

  /** What the server reckons for an entry beside its name. */
  function PerEntry(plus: bool): nat {
    if plus then 160 else 40
  }

  /** The reckoning always covers the entry and the terminator after it. */
  lemma ReckoningCovers(plus: bool, e: ReadDirEntry, known: bool)
    ensures EntrySize(plus, e, known) + TERMINATOR_SIZE <= PerEntry(plus) + |e.name.bytes|
  {}

  function MaxEntries(plus: bool, maxcount: nat): nat {
    var n := (if maxcount < 128 then 0 else maxcount - 128) / PerEntry(plus);
    if n < 1 then 1 else if n > 4096 then 4096 else n
  }

  /** As many entries are asked for as are reckoned to fit after 128 bytes of reply, but at least one and at most
      4096. */
  lemma MaxEntriesIs(plus: bool, maxcount: nat, n: nat)
    requires 1 <= n <= 4096
    ensures 1 <= MaxEntries(plus, maxcount) <= 4096
    ensures n <= MaxEntries(plus, maxcount) <==> n == 1 || 128 + n * (if plus then 160 else 40) <= maxcount
  {}

  function ListSize(plus: bool, es: seq<ReadDirEntry>, known: seq<bool>): nat
    requires |known| == |es|
    decreases |es|
  {
    if es == [] then 0
    else ListSize(plus, es[..|es| - 1], known[..|es| - 1]) + EntrySize(plus, es[|es| - 1], known[|es| - 1])
  }

  datatype Reply = Reply(entries: seq<ReadDirEntry>, eof: bool, size: nat)

  /** What is reckoned for entry `i`, after the entries before it, stays within the limit. */
  ghost predicate Fits(start: nat, plus: bool, maxcount: nat, es: seq<ReadDirEntry>, known: seq<bool>, i: nat)
    requires i < |es| == |known|
  {
    start + ListSize(plus, es[..i], known[..i]) + PerEntry(plus) + |es[i].name.bytes| <= maxcount
  }

  /** The reply to a call: the entries of the page up to the first that does not fit; end of file only if nothing
      was cut. */
  ghost predicate Encoded(start: nat, plus: bool, maxcount: nat, page: ReadDirPage, known: seq<bool>, r: Reply)
    requires |known| == |page.entries|
  {
    && |r.entries| <= |page.entries| && r.entries == page.entries[..|r.entries|]
    && (forall i :: 0 <= i < |r.entries| ==> Fits(start, plus, maxcount, page.entries, known, i))
    && (|r.entries| < |page.entries| ==> !Fits(start, plus, maxcount, page.entries, known, |r.entries|))
    && (r.eof <==> page.eof && |r.entries| == |page.entries|)
    && r.size == start + ListSize(plus, r.entries, known[..|r.entries|]) + TERMINATOR_SIZE
  }

  /** A page put on the wire after `start` bytes of reply.  A reply with at least one entry stays within the
      client's limit. */
  method EncodePage(start: nat, plus: bool, maxcount: nat, page: ReadDirPage, known: seq<bool>) returns (r: Reply)
    requires |known| == |page.entries|
    ensures Encoded(start, plus, maxcount, page, known, r)
    ensures r.entries != [] ==> r.size <= maxcount
  {
    hide EntrySize, PerEntry;
    var size, i := start, 0;
    while i < |page.entries|
      invariant 0 <= i <= |page.entries|
      invariant size == start + ListSize(plus, page.entries[..i], known[..i])
      invariant forall k :: 0 <= k < i ==> Fits(start, plus, maxcount, page.entries, known, k)
      invariant i > 0 ==> size + TERMINATOR_SIZE <= maxcount
    {
      var e := page.entries[i];
      if size + PerEntry(plus) + |e.name.bytes| > maxcount {
        return Reply(page.entries[..i], false, size + TERMINATOR_SIZE);
      }
      ReckoningCovers(plus, e, known[i]);
      assert page.entries[..i + 1][..i] == page.entries[..i] && known[..i + 1][..i] == known[..i];
      size := size + EntrySize(plus, e, known[i]);
      i := i + 1;
    }
    assert page.entries[..i] == page.entries;
    return Reply(page.entries, page.eof, size + TERMINATOR_SIZE);
  }

  // ---- a whole listing ------------------------------------------------------------------------------

  /** One call of a client, with what happened to the directory before it and the reply it got. */
  datatype Exchange = Exchange(
    changes: seq<Change>,
    start: nat,
    plus: bool,
    maxcount: nat,
    known: seq<bool>,
    reply: Reply)

  ghost predicate Answered(v: DirView, cookie: nat, x: Exchange)
    requires WellFormed(v)
  {
    var page := Page(v, cookie, MaxEntries(x.plus, x.maxcount));
    |x.known| == |page.entries| && Encoded(x.start, x.plus, x.maxcount, page, x.known, x.reply)
  }

  /** A reply is a page of the replica: of as many entries as fitted, or of as many as were asked for. */
  function AsCall(x: Exchange): Call {
    Call(x.changes, if x.reply.eof then MaxEntries(x.plus, x.maxcount) else |x.reply.entries|)
  }

  lemma CutPageIsPage(v: DirView, cookie: nat, x: Exchange)
    requires WellFormed(v) && Answered(v, cookie, x)
    ensures var p := Page(v, cookie, AsCall(x).max);
            p.entries == x.reply.entries && p.eof == x.reply.eof
  {
    hide ListSize, PerEntry, Fits, EntriesAfter;
    var page := Page(v, cookie, MaxEntries(x.plus, x.maxcount));
    var es, n := EntriesAfter(v, cookie), |x.reply.entries|;
    if n < |page.entries| { assert page.entries[..n] == es[..n]; }
  }

  /** A reply says nothing at all, neither an entry nor the end, exactly if there is a next entry and the
      client's limit is too small for it.  Any other reply ends the listing or moves its cookie on. */
  lemma EmptyReplyIff(v: DirView, cookie: nat, x: Exchange)
    requires WellFormed(v) && Answered(v, cookie, x)
    ensures x.reply.entries == [] && !x.reply.eof <==>
            (var es := EntriesAfter(v, cookie);
             es != [] && x.start + PerEntry(x.plus) + |es[0].name.bytes| > x.maxcount)
    ensures x.reply.entries != [] ==> cookie < x.reply.entries[|x.reply.entries| - 1].cookie
  {
    hide PerEntry, EntriesAfter;
    var page := Page(v, cookie, MaxEntries(x.plus, x.maxcount));
    var es := EntriesAfter(v, cookie);
    assert page.entries[..0] == [] && x.known[..0] == [];
    EntriesAfterAre(v, cookie);
    if x.reply.entries != [] {
      assert es[|x.reply.entries| - 1] in es;
      assert Fits(x.start, x.plus, x.maxcount, page.entries, x.known, 0);
    }
  }

  ghost function Listed(l: Listing, x: Exchange): Listing {
    var es := x.reply.entries;
    Listing(Run(l.view, x.changes), if es == [] then l.cursor else es[|es| - 1].cookie, l.got + es, x.reply.eof)
  }

  /** The client's calls one after the other, each from the cookie of the last entry it got, until the end. */
  ghost predicate Lists(l: Listing, xs: seq<Exchange>)
    requires WellFormed(l.view)
    decreases |xs|
  {
    xs == [] || (
      RunKeepsWellFormed(l.view, xs[0].changes);
      !l.eof && Answered(Run(l.view, xs[0].changes), l.cursor, xs[0]) && Lists(Listed(l, xs[0]), xs[1..]))
  }

  ghost function ListedAll(l: Listing, xs: seq<Exchange>): Listing
    decreases |xs|
  {
    if xs == [] then l else ListedAll(Listed(l, xs[0]), xs[1..])
  }

  /** The dentry outlives every change of these calls. */
  ghost predicate Outlives(v: DirView, xs: seq<Exchange>, name: Name, cookie: nat)
    decreases |xs|
  {
    && name in v.table && v.table[name].cookie == cookie
    && (xs == [] || Outlives(Run(v, xs[0].changes), xs[1..], name, cookie))
  }

  lemma {:induction false} AsPages(l: Listing, xs: seq<Exchange>, name: Name, cookie: nat) returns (calls: seq<Call>)
    requires WellFormed(l.view) && Lists(l, xs)
    ensures ResumeAll(l, calls) == ListedAll(l, xs)
    ensures Outlives(l.view, xs, name, cookie) ==> StaysLive(l.view, calls, name, cookie)
    decreases |xs|
  {
    hide Page, Answered, WellFormed, Run;
    if xs == [] {
      calls := [];
    } else {
      var v := Run(l.view, xs[0].changes);
      RunKeepsWellFormed(l.view, xs[0].changes);
      var c := AsCall(xs[0]);
      CutPageIsPage(v, l.cursor, xs[0]);
      assert Resume(l, c) == Listed(l, xs[0]);
      var rest := AsPages(Listed(l, xs[0]), xs[1..], name, cookie);
      calls := [c] + rest;
      assert calls[0] == c && calls[1..] == rest;
    }
  }

  /** A whole NFS listing, whatever the limits, and whatever happens to the directory between its calls: cookies
      only go up, and once the end is said, a dentry that stayed has been returned, once. */
  lemma ListsExactlyOnce(v: DirView, xs: seq<Exchange>, name: Name, cookie: nat)
    requires WellFormed(v) && Lists(Listing(v, 0, [], false), xs) && Outlives(v, xs, name, cookie)
    ensures var done := ListedAll(Listing(v, 0, [], false), xs);
            && CookiesAscend(done.got)
            && (done.eof ==> Returned(done.got, name, cookie))
  {
    hide WellFormed, StaysLive, Outlives, Lists, ResumeAll, ListedAll, CookiesAscend, Returned;
    var calls := AsPages(Listing(v, 0, [], false), xs, name, cookie);
    PagingFromStart(v, calls, name, cookie);
  }
}
