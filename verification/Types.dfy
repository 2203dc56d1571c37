/** The values that cross module borders: node identities, names, attributes, and the
    snapshot and journal records that carry guest changes to the host. */
module Types {

  datatype Option<+T> = None | Some(value: T)

  newtype byte = x: int | 0 <= x < 256

  /** Canonical file identity.  The guest never reuses a key. */
  datatype NodeKey = NodeKey(ino: nat, generation: nat)

  datatype Kind = Reg | Dir | Symlink | Fifo | Sock | Chr | Blk

  datatype Ts = Ts(sec: int, nsec: nat)

  /** One path component. */
  datatype Name = Name(bytes: seq<byte>)

  datatype Attr = Attr(
    kind: Kind,
    mode: nat,
    nlink: nat,
    uid: nat,
    gid: nat,
    size: nat,
    blocks: nat,
    mtime: Ts,
    ctime: Ts,
    contentVersion: nat)

  datatype SnapEntry = SnapEntry(name: Name, node: NodeKey, attr: Attr)

  /** One piece of a directory's listing; the final piece carries `last`. */
  datatype SnapDir = SnapDir(
    snapId: nat,
    dir: NodeKey,
    dirAttr: Attr,
    parent: NodeKey,
    entries: seq<SnapEntry>,
    last: bool)

  /** One observed guest change. */
  datatype Rec =
    | Created(parent: NodeKey, name: Name, node: NodeKey, attr: Option<Attr>)
    | CreatedBatch(parent: NodeKey, entries: seq<SnapEntry>)
    | Removed(parent: NodeKey, name: Name)
    | Renamed(fromParent: NodeKey, fromName: Name, toParent: NodeKey, toName: Name)
    | AttrChanged(node: NodeKey, newAttr: Attr)
    | Content(node: NodeKey, version: nat, size: nat, mtime: Ts)
    | SelfRemoved(node: NodeKey)
    | Overflow
    | EchoMarker(tag: nat)

  type ShareId = nat

  /** A run of journal records of one share, numbered on from `firstSeq`. */
  datatype Batch = Batch(share: ShareId, firstSeq: nat, records: seq<Rec>)

  const U64_MAX: nat := 0xFFFF_FFFF_FFFF_FFFF

  /** Bytes per chunk of the content cache. */
  const CAS_CHUNK: nat := 4 * 1024 * 1024

  function Min(a: nat, b: nat): nat {
    if a < b then a else b
  }

  function Max(a: nat, b: nat): nat {
    if a < b then b else a
  }

  lemma {:induction false} FewerKeys<T>(big: set<T>, small: set<T>)
    requires small <= big
    ensures |small| <= |big|
  {
    if small != {} {
      var k :| k in small;
      FewerKeys(big - {k}, small - {k});
    }
  }
}
