/** XDR (RFC 4506) as the server writes and reads it, and the directory list of NFS version 3 in it. */
module Xdrs {
  import opened Types
  import opened DirViews
  import opened Nfs3ReadDirs

  // ---- numbers ---------------------------------------------------------------------------------------

  /** The last `k` digits to base 256, most significant first. */
  function BigEndian(n: nat, k: nat): (b: seq<byte>)
    ensures |b| == k
  {
    if k == 0 then [] else BigEndian(n / 256, k - 1) + [(n % 256) as byte]
  }

  function Number(b: seq<byte>): nat {
    if b == [] then 0 else Number(b[..|b| - 1]) * 256 + b[|b| - 1] as nat
  }

  function Power(k: nat): nat {
    if k == 0 then 1 else 256 * Power(k - 1)
  }

  lemma {:induction false} NumberOf(n: nat, k: nat)
    requires n < Power(k)
    ensures Number(BigEndian(n, k)) == n
  {
    if k > 0 {
      assert n / 256 < Power(k - 1);
      NumberOf(n / 256, k - 1);
      assert BigEndian(n, k)[..k - 1] == BigEndian(n / 256, k - 1);
    }
  }

  lemma Powers()
    ensures Power(4) == 0x1_0000_0000 && Power(8) == U64_MAX + 1
  {
    assert Power(4) == 256 * 256 * 256 * 256;
    assert Power(8) == 256 * 256 * 256 * 256 * Power(4);
  }

  // ---- writing ---------------------------------------------------------------------------------------

  function U32(n: nat): seq<byte> {
    BigEndian(n, 4)
  }

  function U64(n: nat): seq<byte> {
    BigEndian(n, 8)
  }

  function Bool(b: bool): seq<byte> {
    U32(if b then 1 else 0)
  }

  /** Zeros up to the next multiple of four. */
  function Padding(n: nat): seq<byte> {
    seq((4 - n % 4) % 4, _ => 0 as byte)
  }

  function Opaque(data: seq<byte>): seq<byte> {
    U32(|data|) + data + Padding(|data|)
  }

  // ---- reading ---------------------------------------------------------------------------------------

  datatype Reader = Reader(buf: seq<byte>, pos: nat)

  function Take(r: Reader, n: nat): Option<(seq<byte>, Reader)> {
    if r.pos + n > |r.buf| then None else Some((r.buf[r.pos..r.pos + n], r.(pos := r.pos + n)))
  }

  function ReadNumber(r: Reader, k: nat): Option<(nat, Reader)> {
    match Take(r, k)
    case None => None
    case Some((b, r')) => Some((Number(b), r'))
  }

  function ReadBool(r: Reader): Option<(bool, Reader)> {
    match ReadNumber(r, 4)
    case None => None
    case Some((n, r')) => Some((n != 0, r'))
  }

  /** At most `cap` bytes, and the padding after them. */
  function ReadOpaque(r: Reader, cap: nat): Option<(seq<byte>, Reader)> {
    match ReadNumber(r, 4)
    case None => None
    case Some((n, r1)) =>
      if n > cap then None
      else match Take(r1, n)
        case None => None
        case Some((data, r2)) =>
          match Take(r2, (4 - n % 4) % 4)
          case None => None
          case Some((_, r3)) => Some((data, r3))
  }

  /** The reader stands before `b`. */
  ghost predicate Before(r: Reader, b: seq<byte>) {
    r.pos + |b| <= |r.buf| && r.buf[r.pos..r.pos + |b|] == b
  }

  function Past(r: Reader, b: seq<byte>): Reader {
    r.(pos := r.pos + |b|)
  }

  lemma BeforeBoth(r: Reader, a: seq<byte>, b: seq<byte>)
    requires Before(r, a + b)
    ensures Before(r, a) && Before(Past(r, a), b) && Past(Past(r, a), b) == Past(r, a + b)
  {
    var all := r.buf[r.pos..r.pos + |a + b|];
    assert all[..|a|] == a && all[|a|..] == b;
    assert r.buf[r.pos..r.pos + |a|] == all[..|a|];
    assert r.buf[r.pos + |a|..r.pos + |a| + |b|] == all[|a|..];
  }

  lemma ReadsNumber(r: Reader, n: nat, k: nat)
    requires n < Power(k) && Before(r, BigEndian(n, k))
    ensures ReadNumber(r, k) == Some((n, Past(r, BigEndian(n, k))))
  {
    NumberOf(n, k);
  }

  lemma ReadsBool(r: Reader, b: bool)
    requires Before(r, Bool(b))
    ensures ReadBool(r) == Some((b, Past(r, Bool(b))))
  {
    Powers();
    hide Power, BigEndian, Number;
    ReadsNumber(r, if b then 1 else 0, 4);
  }

  /** What was written as an opaque is read as it was. */
  lemma ReadsOpaque(r: Reader, data: seq<byte>, cap: nat)
    requires |data| <= cap && |data| < 0x1_0000_0000 && Before(r, Opaque(data))
    ensures ReadOpaque(r, cap) == Some((data, Past(r, Opaque(data))))
  {
    Powers();
    hide Power, BigEndian, Number;
    var len, pad := U32(|data|), Padding(|data|);
    assert Opaque(data) == len + (data + pad);
    BeforeBoth(r, len, data + pad);
    BeforeBoth(Past(r, len), data, pad);
    ReadsNumber(r, |data|, 4);
  }

  // ---- the entries of a READDIR or READDIRPLUS reply ----------------------------------------------------

  /** What the wire carries of an entry.  Attributes and handle, for PLUS only, are bytes of their own. */
  datatype Wired = Wired(fileid: nat, name: seq<byte>, cookie: nat, attr: Option<seq<byte>>, handle: seq<byte>)

  predicate Sound(plus: bool, w: Wired) {
    && w.fileid <= U64_MAX && w.cookie <= U64_MAX && |w.name| < 0x1_0000_0000
    && if plus then |w.handle| == HANDLE_LEN && (w.attr.Some? ==> |w.attr.value| == FATTR3_SIZE)
       else w.attr == None && w.handle == []
  }

  function PutAttr(attr: Option<seq<byte>>): seq<byte> {
    match attr
    case None => Bool(false)
    case Some(b) => Bool(true) + b
  }

  function PutPlus(plus: bool, w: Wired): seq<byte> {
    if plus then PutAttr(w.attr) + (Bool(true) + Opaque(w.handle)) else []
  }

  function PutEntry(plus: bool, w: Wired): seq<byte> {
    Bool(true) + (U64(w.fileid) + (Opaque(w.name) + (U64(w.cookie) + PutPlus(plus, w))))
  }

  function PutList(plus: bool, ws: seq<Wired>, eof: bool): seq<byte> {
    if ws == [] then Bool(false) + Bool(eof) else PutEntry(plus, ws[0]) + PutList(plus, ws[1..], eof)
  }

  function ReadAttr(r: Reader): Option<(Option<seq<byte>>, Reader)> {
    match ReadBool(r)
    case None => None
    case Some((there, r1)) =>
      if !there then Some((None, r1))
      else match Take(r1, FATTR3_SIZE)
        case None => None
        case Some((b, r2)) => Some((Some(b), r2))
  }

  function ReadPlus(plus: bool, r: Reader): Option<(Option<seq<byte>>, seq<byte>, Reader)> {
    if !plus then Some((None, [], r))
    else match ReadAttr(r)
      case None => None
      case Some((attr, r1)) =>
        match ReadBool(r1)
        case None => None
        case Some((there, r2)) =>
          if !there then Some((attr, [], r2))
          else match ReadOpaque(r2, 64)
            case None => None
            case Some((handle, r3)) => Some((attr, handle, r3))
  }

  /** An entry after its flag, as a client reads it. */
  function ReadEntry(plus: bool, r: Reader): Option<(Wired, Reader)> {
    match ReadNumber(r, 8)
    case None => None
    case Some((fileid, r1)) =>
      match ReadOpaque(r1, 0xFFFF_FFFF)
      case None => None
      case Some((name, r2)) =>
        match ReadNumber(r2, 8)
        case None => None
        case Some((cookie, r3)) =>
          match ReadPlus(plus, r3)
          case None => None
          case Some((attr, handle, r4)) => Some((Wired(fileid, name, cookie, attr, handle), r4))
  }

  /** A whole list: entries while the flag says so, then whether it is the end. */
  function ReadList(plus: bool, r: Reader): Option<(seq<Wired>, bool, Reader)>
    decreases if r.pos <= |r.buf| then |r.buf| - r.pos else 0
  {
    match ReadBool(r)
    case None => None
    case Some((more, r1)) =>
      if !more then
        match ReadBool(r1)
        case None => None
        case Some((eof, r2)) => Some(([], eof, r2))
      else
        match ReadEntry(plus, r1)
        case None => None
        case Some((w, r2)) =>
          ReadsForward(plus, r1);
          match ReadList(plus, r2)
          case None => None
          case Some((ws, eof, r3)) => Some(([w] + ws, eof, r3))
  }

  lemma ReadsForward(plus: bool, r: Reader)
    ensures ReadEntry(plus, r).Some? ==>
              var r' := ReadEntry(plus, r).value.1; r.pos <= r'.pos <= |r'.buf| && r'.buf == r.buf
  {}

  lemma ReadsAttr(r: Reader, attr: Option<seq<byte>>)
    requires (attr.Some? ==> |attr.value| == FATTR3_SIZE) && Before(r, PutAttr(attr))
    ensures ReadAttr(r) == Some((attr, Past(r, PutAttr(attr))))
  {
    hide BigEndian, Number;
    if attr.Some? { BeforeBoth(r, Bool(true), attr.value); }
    ReadsBool(r, attr.Some?);
  }

  lemma ReadsPlus(plus: bool, r: Reader, w: Wired)
    requires Sound(plus, w) && Before(r, PutPlus(plus, w))
    ensures ReadPlus(plus, r) == Some((w.attr, w.handle, Past(r, PutPlus(plus, w))))
  {
    hide PutAttr, ReadAttr, Bool, Opaque, ReadBool, ReadOpaque;
    if plus {
      var attr, there, handle := PutAttr(w.attr), Bool(true), Opaque(w.handle);
      BeforeBoth(r, attr, there + handle);
      BeforeBoth(Past(r, attr), there, handle);
      ReadsAttr(r, w.attr);
      ReadsBool(Past(r, attr), true);
      ReadsOpaque(Past(Past(r, attr), there), w.handle, 64);
    }
  }

  lemma ReadsEntry(plus: bool, r: Reader, w: Wired)
    requires Sound(plus, w) && Before(r, PutEntry(plus, w))
    ensures ReadBool(r) == Some((true, Past(r, Bool(true))))
    ensures ReadEntry(plus, Past(r, Bool(true))) == Some((w, Past(r, PutEntry(plus, w))))
  {
    Powers();
    hide Bool, U64, Opaque, PutPlus, ReadBool, ReadOpaque, ReadPlus, ReadNumber, Power;
    var flag, id, name, cookie, rest := Bool(true), U64(w.fileid), Opaque(w.name), U64(w.cookie), PutPlus(plus, w);
    BeforeBoth(r, flag, id + (name + (cookie + rest)));
    var r1 := Past(r, flag);
    BeforeBoth(r1, id, name + (cookie + rest));
    var r2 := Past(r1, id);
    BeforeBoth(r2, name, cookie + rest);
    var r3 := Past(r2, name);
    BeforeBoth(r3, cookie, rest);
    ReadsBool(r, true);
    ReadsU64(r1, w.fileid);
    ReadsOpaque(r2, w.name, 0xFFFF_FFFF);
    ReadsU64(r3, w.cookie);
    ReadsPlus(plus, Past(r3, cookie), w);
  }

  lemma ReadsU64(r: Reader, n: nat)
    requires n <= U64_MAX && Before(r, U64(n))
    ensures ReadNumber(r, 8) == Some((n, Past(r, U64(n))))
  {
    Powers();
    hide Power, BigEndian, Number;
    ReadsNumber(r, n, 8);
  }

  /** A client reads back exactly the entries that were written, in order, and whether they are all. */
  lemma {:induction false} ListRoundTrip(plus: bool, r: Reader, ws: seq<Wired>, eof: bool)
    requires (forall i :: 0 <= i < |ws| ==> Sound(plus, ws[i])) && Before(r, PutList(plus, ws, eof))
    ensures ReadList(plus, r) == Some((ws, eof, Past(r, PutList(plus, ws, eof))))
    decreases |ws|
  {
    hide PutEntry, ReadEntry, ReadBool, Bool, Sound;
    if ws == [] {
      BeforeBoth(r, Bool(false), Bool(eof));
      ReadsBool(r, false);
      ReadsBool(Past(r, Bool(false)), eof);
    } else {
      var first, rest := PutEntry(plus, ws[0]), PutList(plus, ws[1..], eof);
      BeforeBoth(r, first, rest);
      ReadsEntry(plus, r, ws[0]);
      ListRoundTrip(plus, Past(r, first), ws[1..], eof);
      assert ws == [ws[0]] + ws[1..];
    }
  }

  // ---- the sizes the server reckons with -----------------------------------------------------------------

  /** This is what the wire carries of these entries of a page. */
  ghost predicate Carries(plus: bool, es: seq<ReadDirEntry>, known: seq<bool>, ws: seq<Wired>) {
    && |es| == |known| == |ws|
    && forall i :: 0 <= i < |es| ==>
         && Sound(plus, ws[i]) && ws[i].name == es[i].name.bytes && ws[i].cookie == es[i].cookie
         && ws[i].fileid == es[i].node.ino && (plus ==> (ws[i].attr.Some? <==> known[i]))
  }

  lemma EntryLength(plus: bool, e: ReadDirEntry, known: bool, w: Wired)
    requires Sound(plus, w) && w.name == e.name.bytes && (plus ==> (w.attr.Some? <==> known))
    ensures |PutEntry(plus, w)| == EntrySize(plus, e, known)
  {
    hide BigEndian;
  }

  /** The size of a reply is the number of bytes it has. */
  lemma {:induction false} ListLength(plus: bool, es: seq<ReadDirEntry>, known: seq<bool>, ws: seq<Wired>, eof: bool)
    requires Carries(plus, es, known, ws)
    ensures |PutList(plus, ws, eof)| == ListSize(plus, es, known) + TERMINATOR_SIZE
    decreases |ws|
  {
    hide PutEntry, EntrySize, Sound;
    if ws != [] {
      EntryLength(plus, es[0], known[0], ws[0]);
      ListLength(plus, es[1..], known[1..], ws[1..], eof);
      ListSizeFirst(plus, es, known);
    }
  }

  lemma {:induction false} ListSizeFirst(plus: bool, es: seq<ReadDirEntry>, known: seq<bool>)
    requires |es| == |known| && es != []
    ensures ListSize(plus, es, known) == EntrySize(plus, es[0], known[0]) + ListSize(plus, es[1..], known[1..])
    decreases |es|
  {
    hide EntrySize;
    var n := |es| - 1;
    if n > 0 {
      ListSizeFirst(plus, es[..n], known[..n]);
      assert es[1..][..n - 1] == es[..n][1..] && known[1..][..n - 1] == known[..n][1..];
    }
  }

  /** A reply as sent: as long as it says, and read by the client as the entries that fitted, no more and no less. */
  lemma ReplyReadBack(start: nat, plus: bool, maxcount: nat, page: ReadDirPage, known: seq<bool>, reply: Reply,
                      ws: seq<Wired>, r: Reader)
    requires |known| == |page.entries| && Encoded(start, plus, maxcount, page, known, reply)
    requires Carries(plus, reply.entries, known[..|reply.entries|], ws) && Before(r, PutList(plus, ws, reply.eof))
    ensures reply.size == start + |PutList(plus, ws, reply.eof)|
    ensures ReadList(plus, r) == Some((ws, reply.eof, Past(r, PutList(plus, ws, reply.eof))))
  {
    hide ReadList, PutList, ListSize, Fits, Sound;
    ListLength(plus, reply.entries, known[..|reply.entries|], ws, reply.eof);
    ListRoundTrip(plus, r, ws, reply.eof);
  }
}
