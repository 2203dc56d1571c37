/** State ids, opens and delegations of one server instance: how they are minted, shared, recalled,
    returned and revoked (section 10.4 of RFC 5661). */
module NfsStates {
  import opened Types

  const DELEG_CAP := 16384

  const NFS4_OK := 0
  const ERR_STALE_STATEID := 10023
  const ERR_BAD_STATEID := 10025

  /** The "other" part of a state id: a counter, what it is for, and the boot that minted it. */
  datatype Other = Other(n: nat, use: nat, boot: nat) | Zeros | Ones

  const FOR_OPEN := 1
  const FOR_DELEGATION := 2
  const FOR_LOCK := 3

  datatype Open = Open(node: NodeKey, seqid: nat, access: bv2, owner: nat)

  datatype Delegation = Delegation(other: Other, recalling: bool)

  /** A recall waiting for its deadline, or an immediate one whose removal is still to come. */
  datatype Recall = Timed(other: Other, node: NodeKey) | Immediate(node: NodeKey)

  /** `minted` lists every state id ever minted. */
  datatype State = State(
    boot: nat,
    nextOther: nat,
    minted: seq<Other>,
    opens: map<Other, Open>,
    locks: map<Other, NodeKey>,
    delegations: map<NodeKey, Delegation>,
    recalls: seq<Recall>,
    granted: nat,
    returned: nat,
    revoked: nat)

  function NewState(boot: nat): State {
    State(boot, 1, [], map[], map[], map[], [], 0, 0, 0)
  }

  function Minted(s: State, use: nat): (State, Other) {
    var other := Other(s.nextOther, use, s.boot);
    (s.(nextOther := s.nextOther + 1, minted := s.minted + [other]), other)
  }

  /** Minted by another boot.  The special ids are never stale. */
  predicate IsStale(s: State, other: Other) {
    other.Other? && other.boot != s.boot
  }

  // ---- steps --------------------------------------------------------------------------------------

  predicate Holds(s: State, other: Other, node: NodeKey, owner: nat) {
    other in s.opens && s.opens[other].node == node && s.opens[other].owner == owner
  }

  /** An OPEN by an owner that has the file open already: the same state id, next in sequence. */
  ghost predicate Reopens(s: State, s': State, node: NodeKey, owner: nat, access: bv2) {
    exists other :: Holds(s, other, node, owner) &&
      s' == s.(opens := s.opens[other := s.opens[other].(
                 seqid := (s.opens[other].seqid + 1) % 0x1_0000_0000, access := s.opens[other].access | access)])
  }

  ghost predicate OpensNew(s: State, s': State, node: NodeKey, owner: nat, access: bv2) {
    && (forall other :: !Holds(s, other, node, owner))
    && var (s1, other) := Minted(s, FOR_OPEN);
       s' == s1.(opens := s1.opens[other := Open(node, 1, access, owner)])
  }

  predicate Closes(s: State, s': State, other: Other) {
    s' == s.(opens := s.opens - {other})
  }

  /** OPEN_DOWNGRADE: the access is replaced, and the id is next in sequence. */
  predicate Downgrades(s: State, s': State, other: Other, access: bv2) {
    && other in s.opens
    && s' == s.(opens := s.opens[other := s.opens[other].(
                  seqid := (s.opens[other].seqid + 1) % 0x1_0000_0000, access := access)])
  }

  /** A lock owner's first LOCK under an open mints an id for the file; a lock is never refused. */
  predicate Locks(s: State, s': State, open: Other) {
    && open in s.opens
    && var (s1, other) := Minted(s, FOR_LOCK);
       s' == s1.(locks := s1.locks[other := s.opens[open].node])
  }

  /** FREE_STATEID forgets an open or a lock. */
  predicate Frees(s: State, s': State, other: Other) {
    s' == s.(opens := s.opens - {other}, locks := s.locks - {other})
  }

  /** A read-only open of an existing file gets a delegation, unless there is one or there are too many. */
  predicate Grants(s: State, s': State, node: NodeKey) {
    && |s.delegations| < DELEG_CAP && node !in s.delegations
    && var (s1, other) := Minted(s, FOR_DELEGATION);
       s' == s1.(delegations := s1.delegations[node := Delegation(other, false)], granted := s1.granted + 1)
  }

  predicate Returns(s: State, s': State, node: NodeKey) {
    node in s.delegations && s' == s.(delegations := s.delegations - {node}, returned := s.returned + 1)
  }

  /** A recall is sent once per delegation; with no back channel it turns into an immediate revocation. */
  predicate Recalls(s: State, s': State, node: NodeKey, channel: bool) {
    && node in s.delegations && !s.delegations[node].recalling
    && var d := s.delegations[node];
       s' == s.(delegations := s.delegations[node := d.(recalling := true)],
                recalls := s.recalls + [if channel then Timed(d.other, node) else Immediate(node)])
  }

  /** The deadline passes: the delegation recalled goes, if it is still the one there. */
  predicate Expires(s: State, s': State, i: nat) {
    && i < |s.recalls| && s.recalls[i].Timed?
    && var r, left := s.recalls[i], s.recalls[..i] + s.recalls[i + 1..];
       s' == if r.node in s.delegations && s.delegations[r.node].other == r.other
             then s.(delegations := s.delegations - {r.node}, revoked := s.revoked + 1, recalls := left)
             else s.(recalls := left)
  }

  /** The immediate removal: it takes whatever is there, and counts in any case. */
  predicate Removes(s: State, s': State, i: nat) {
    && i < |s.recalls| && s.recalls[i].Immediate?
    && var node := s.recalls[i].node;
       s' == s.(delegations := s.delegations - {node}, revoked := s.revoked + 1,
                recalls := s.recalls[..i] + s.recalls[i + 1..])
  }

  /** A recall that could not be sent: no deadline is kept for it. */
  predicate Abandons(s: State, s': State, i: nat) {
    && i < |s.recalls| && s.recalls[i].Timed?
    && s' == s.(recalls := s.recalls[..i] + s.recalls[i + 1..])
  }

  /** A client that restarted, or is destroyed, loses its opens and delegations; only one that is destroyed
      loses its locks. */
  predicate Resets(s: State, s': State, destroyed: bool) {
    s' == s.(opens := map[], delegations := map[], locks := if destroyed then map[] else s.locks)
  }

  ghost predicate OpenStep(s: State, s': State) {
    || (exists node, owner: nat, access :: Reopens(s, s', node, owner, access))
    || (exists node, owner: nat, access :: OpensNew(s, s', node, owner, access))
    || (exists other :: Closes(s, s', other))
    || (exists other, access :: Downgrades(s, s', other, access))
    || (exists open :: Locks(s, s', open))
    || (exists other :: Frees(s, s', other))
  }

  ghost predicate Step(s: State, s': State) {
    || OpenStep(s, s')
    || (exists node :: Grants(s, s', node))
    || (exists node :: Returns(s, s', node))
    || (exists node, channel :: Recalls(s, s', node, channel))
    || (exists i: nat :: Expires(s, s', i))
    || (exists i: nat :: Removes(s, s', i))
    || (exists i: nat :: Abandons(s, s', i))
    || (exists destroyed :: Resets(s, s', destroyed))
  }

  ghost predicate Run(ss: seq<State>) {
    && ss != [] && ss[0] == NewState(ss[0].boot)
    && forall i :: 0 <= i < |ss| - 1 ==> Step(ss[i], ss[i + 1])
  }

  // ---- what every step keeps --------------------------------------------------------------------------

  /** Minted ids carry 1, 2, 3, ... and this boot. */
  ghost predicate MintedOk(minted: seq<Other>, next: nat, boot: nat) {
    && next == |minted| + 1
    && forall i :: 0 <= i < |minted| ==> minted[i].Other? && minted[i].n == i + 1 && minted[i].boot == boot
  }

  ghost predicate Known(minted: seq<Other>, other: Other) {
    exists i :: 0 <= i < |minted| && minted[i] == other
  }

  ghost predicate KnownFor(minted: seq<Other>, other: Other, use: nat) {
    Known(minted, other) && other.Other? && other.use == use
  }

  /** What is open was minted for an open, and an owner has a file open once. */
  ghost predicate OpensOk(minted: seq<Other>, opens: map<Other, Open>) {
    && (forall other :: other in opens ==> KnownFor(minted, other, FOR_OPEN))
    && (forall a, b | a in opens && b in opens ::
          opens[a].node == opens[b].node && opens[a].owner == opens[b].owner ==> a == b)
  }

  ghost predicate LocksOk(minted: seq<Other>, locks: map<Other, NodeKey>) {
    forall other :: other in locks ==> KnownFor(minted, other, FOR_LOCK)
  }

  /** Delegations were minted, each its own id. */
  ghost predicate DelegsOk(minted: seq<Other>, ds: map<NodeKey, Delegation>) {
    && (forall node :: node in ds ==> KnownFor(minted, ds[node].other, FOR_DELEGATION))
    && (forall a, b :: a in ds && b in ds && ds[a].other == ds[b].other ==> a == b)
  }

  /** A recall names an id minted before. */
  ghost predicate RecallsOk(minted: seq<Other>, rs: seq<Recall>) {
    forall i :: 0 <= i < |rs| && rs[i].Timed? ==> Known(minted, rs[i].other)
  }

  ghost predicate TablesOk(s: State) {
    && OpensOk(s.minted, s.opens) && LocksOk(s.minted, s.locks)
    && DelegsOk(s.minted, s.delegations) && RecallsOk(s.minted, s.recalls)
  }

  ghost predicate Inv(s: State) {
    MintedOk(s.minted, s.nextOther, s.boot) && TablesOk(s)
  }

  /** A new id is none of the old ones, and everything in use stays known. */
  lemma MintFresh(s: State, use: nat)
    requires MintedOk(s.minted, s.nextOther, s.boot) && TablesOk(s)
    ensures var (s', other) := Minted(s, use);
            && MintedOk(s'.minted, s'.nextOther, s'.boot) && TablesOk(s')
            && !Known(s.minted, other) && KnownFor(s'.minted, other, use) && !IsStale(s', other)
  {
    var (s', other) := Minted(s, use);
    assert s'.minted[|s.minted|] == other;
    forall o | Known(s.minted, o) ensures Known(s'.minted, o) { KnownMore(s.minted, other, o); }
    hide Known;
  }

  lemma KnownMore(minted: seq<Other>, other: Other, o: Other)
    requires Known(minted, o)
    ensures Known(minted + [other], o)
  {
    var i :| 0 <= i < |minted| && minted[i] == o;
    assert (minted + [other])[i] == o;
  }

  lemma ReopensKeeps(s: State, s': State, node: NodeKey, owner: nat, access: bv2)
    requires Inv(s) && Reopens(s, s', node, owner, access)
    ensures Inv(s')
  {
    hide Known, MintedOk, DelegsOk, RecallsOk;
  }

  lemma OpensNewKeeps(s: State, s': State, node: NodeKey, owner: nat, access: bv2)
    requires Inv(s) && OpensNew(s, s', node, owner, access)
    ensures Inv(s')
  {
    hide Known, MintedOk, DelegsOk, RecallsOk;
    MintFresh(s, FOR_OPEN);
    forall a, b | a in s'.opens && b in s'.opens
        && s'.opens[a].node == s'.opens[b].node && s'.opens[a].owner == s'.opens[b].owner
      ensures a == b
    {
      assert !Holds(s, a, node, owner) && !Holds(s, b, node, owner);
    }
  }

  lemma ClosesKeeps(s: State, s': State, other: Other)
    requires Inv(s) && Closes(s, s', other)
    ensures Inv(s')
  {
    hide Known, MintedOk, DelegsOk, RecallsOk;
  }

  lemma DowngradesKeeps(s: State, s': State, other: Other, access: bv2)
    requires Inv(s) && Downgrades(s, s', other, access)
    ensures Inv(s')
  {
    hide Known, MintedOk, DelegsOk, RecallsOk, LocksOk;
  }

  lemma LocksKeeps(s: State, s': State, open: Other)
    requires Inv(s) && Locks(s, s', open)
    ensures Inv(s')
  {
    hide KnownFor, MintedOk, DelegsOk, RecallsOk, OpensOk;
    MintFresh(s, FOR_LOCK);
  }

  lemma FreesKeeps(s: State, s': State, other: Other)
    requires Inv(s) && Frees(s, s', other)
    ensures Inv(s')
  {
    hide KnownFor, MintedOk, DelegsOk, RecallsOk;
  }

  lemma DelegsAdd(minted: seq<Other>, minted': seq<Other>, ds: map<NodeKey, Delegation>, node: NodeKey, d: Delegation)
    requires DelegsOk(minted, ds) && DelegsOk(minted', ds) && node !in ds
    requires KnownFor(minted', d.other, FOR_DELEGATION) && !Known(minted, d.other)
    ensures DelegsOk(minted', ds[node := d])
  {
    hide Known;
  }

  lemma GrantsKeeps(s: State, s': State, node: NodeKey)
    requires Inv(s) && Grants(s, s', node)
    ensures Inv(s')
  {
    hide Known, MintedOk, DelegsOk, RecallsOk, OpensOk;
    MintFresh(s, FOR_DELEGATION);
    DelegsAdd(s.minted, s'.minted, s.delegations, node, s'.delegations[node]);
  }

  lemma DelegsTake(minted: seq<Other>, ds: map<NodeKey, Delegation>, node: NodeKey)
    requires DelegsOk(minted, ds)
    ensures DelegsOk(minted, ds - {node})
  {
    hide KnownFor;
  }

  lemma ReturnsKeeps(s: State, s': State, node: NodeKey)
    requires Inv(s) && Returns(s, s', node)
    ensures Inv(s')
  {
    hide Known, MintedOk, DelegsOk, RecallsOk, OpensOk;
    DelegsTake(s.minted, s.delegations, node);
  }

  lemma DelegsMark(minted: seq<Other>, ds: map<NodeKey, Delegation>, node: NodeKey)
    requires DelegsOk(minted, ds) && node in ds
    ensures var ds' := ds[node := ds[node].(recalling := true)];
            DelegsOk(minted, ds') && Known(minted, ds[node].other)
  {
    hide Known;
  }

  lemma RecallsKeeps(s: State, s': State, node: NodeKey, channel: bool)
    requires Inv(s) && Recalls(s, s', node, channel)
    ensures Inv(s')
  {
    hide Known, MintedOk, DelegsOk, OpensOk;
    DelegsMark(s.minted, s.delegations, node);
  }

  lemma RecallsTake(minted: seq<Other>, rs: seq<Recall>, i: nat)
    requires RecallsOk(minted, rs) && i < |rs|
    ensures RecallsOk(minted, rs[..i] + rs[i + 1..])
  {
    hide Known;
    var left := rs[..i] + rs[i + 1..];
    forall k | 0 <= k < |left| && left[k].Timed? ensures Known(minted, left[k].other) {
      assert left[k] == rs[if k < i then k else k + 1];
    }
  }

  lemma ExpiresKeeps(s: State, s': State, i: nat)
    requires Inv(s) && Expires(s, s', i)
    ensures Inv(s')
  {
    hide Known, MintedOk, DelegsOk, RecallsOk, OpensOk;
    RecallsTake(s.minted, s.recalls, i);
    DelegsTake(s.minted, s.delegations, s.recalls[i].node);
  }

  lemma RemovesKeeps(s: State, s': State, i: nat)
    requires Inv(s) && Removes(s, s', i)
    ensures Inv(s')
  {
    hide Known, MintedOk, DelegsOk, RecallsOk, OpensOk;
    RecallsTake(s.minted, s.recalls, i);
    DelegsTake(s.minted, s.delegations, s.recalls[i].node);
  }

  lemma AbandonsKeeps(s: State, s': State, i: nat)
    requires Inv(s) && Abandons(s, s', i)
    ensures Inv(s')
  {
    hide Known, MintedOk, DelegsOk, RecallsOk, OpensOk;
    RecallsTake(s.minted, s.recalls, i);
  }

  lemma ResetsKeeps(s: State, s': State, destroyed: bool)
    requires Inv(s) && Resets(s, s', destroyed)
    ensures Inv(s')
  {
    hide Known, MintedOk, RecallsOk;
  }

  lemma OpenStepKeeps(s: State, s': State)
    requires Inv(s) && OpenStep(s, s')
    ensures Inv(s')
  {
    hide Inv, Reopens, OpensNew, Closes, Downgrades, Locks, Frees;
    if node, owner: nat, access :| Reopens(s, s', node, owner, access) {
      ReopensKeeps(s, s', node, owner, access);
    } else if node, owner: nat, access :| OpensNew(s, s', node, owner, access) {
      OpensNewKeeps(s, s', node, owner, access);
    } else if other :| Closes(s, s', other) {
      ClosesKeeps(s, s', other);
    } else if other, access :| Downgrades(s, s', other, access) {
      DowngradesKeeps(s, s', other, access);
    } else if open :| Locks(s, s', open) {
      LocksKeeps(s, s', open);
    } else {
      var other :| Frees(s, s', other);
      FreesKeeps(s, s', other);
    }
  }

  /** Opens and locks leave the delegations alone. */
  lemma OpenStepFrame(s: State, s': State)
    requires OpenStep(s, s')
    ensures s'.delegations == s.delegations && s'.recalls == s.recalls
    ensures s'.granted == s.granted && s'.returned == s.returned && s'.revoked == s.revoked
    ensures s.minted <= s'.minted && s.boot == s'.boot
  {}

  lemma StepKeeps(s: State, s': State)
    requires Inv(s) && Step(s, s')
    ensures Inv(s')
  {
    hide Inv, OpenStep, Grants, Returns, Recalls, Expires, Removes, Abandons, Resets;
    if OpenStep(s, s') {
      OpenStepKeeps(s, s');
    } else if node :| Grants(s, s', node) {
      GrantsKeeps(s, s', node);
    } else if node :| Returns(s, s', node) {
      ReturnsKeeps(s, s', node);
    } else if node, channel :| Recalls(s, s', node, channel) {
      RecallsKeeps(s, s', node, channel);
    } else if i: nat :| Expires(s, s', i) {
      ExpiresKeeps(s, s', i);
    } else if i: nat :| Removes(s, s', i) {
      RemovesKeeps(s, s', i);
    } else if i: nat :| Abandons(s, s', i) {
      AbandonsKeeps(s, s', i);
    } else {
      var destroyed :| Resets(s, s', destroyed);
      ResetsKeeps(s, s', destroyed);
    }
  }

  lemma {:induction false} RunKeeps(ss: seq<State>, m: nat)
    requires Run(ss) && m < |ss|
    ensures Inv(ss[m])
  {
    hide Step, Inv;
    if m == 0 {
      FirstInv(ss[0].boot);
    } else {
      RunKeeps(ss, m - 1);
      assert Step(ss[m - 1], ss[m - 1 + 1]);
      StepKeeps(ss[m - 1], ss[m]);
    }
  }

  lemma FirstInv(boot: nat)
    ensures Inv(NewState(boot))
  {}

  // ---- the promises ----------------------------------------------------------------------------------

  /** State ids minted by one instance are pairwise distinct, and the instance never takes one for stale. */
  lemma StateIdsDistinct(ss: seq<State>, m: nat)
    requires Run(ss) && m < |ss|
    ensures forall i, j :: 0 <= i < j < |ss[m].minted| ==> ss[m].minted[i] != ss[m].minted[j]
    ensures forall i :: 0 <= i < |ss[m].minted| ==> !IsStale(ss[m], ss[m].minted[i])
  {
    RunKeeps(ss, m);
  }

  /** An owner has a file open at most once, and a file has at most one delegation (one entry per node). */
  lemma OneOpenPerOwner(ss: seq<State>, m: nat, a: Other, b: Other, node: NodeKey, owner: nat)
    requires Run(ss) && m < |ss| && Holds(ss[m], a, node, owner) && Holds(ss[m], b, node, owner)
    ensures a == b
  {
    RunKeeps(ss, m);
  }

  lemma {:induction false} MintedGrows(ss: seq<State>, a: nat, b: nat)
    requires Run(ss) && a <= b < |ss|
    ensures ss[a].minted <= ss[b].minted && ss[a].boot == ss[b].boot
    decreases b
  {
    hide Step;
    if a < b {
      MintedGrows(ss, a, b - 1);
      assert Step(ss[b - 1], ss[b - 1 + 1]);
      StepMints(ss[b - 1], ss[b]);
    }
  }

  lemma StepMints(s: State, s': State)
    requires Step(s, s')
    ensures s.minted <= s'.minted && s.boot == s'.boot
  {
    hide OpenStep;
    if OpenStep(s, s') { OpenStepFrame(s, s'); }
  }

  /** A timed revocation never takes a delegation granted after the recall was sent: the one recalled at
      moment `a` has an id minted by then, and an id minted later is another. */
  lemma LateGrantSafe(ss: seq<State>, a: nat, b: nat, i: nat, k: nat, node: NodeKey)
    requires Run(ss) && a <= b && b + 1 < |ss|
    requires Expires(ss[b], ss[b + 1], i)
    requires k < |ss[a].recalls| && ss[b].recalls[i] == ss[a].recalls[k]
    requires node in ss[b].delegations && !Known(ss[a].minted, ss[b].delegations[node].other)
    ensures node in ss[b + 1].delegations && ss[b + 1].delegations[node] == ss[b].delegations[node]
  {
    RunKeeps(ss, a);
  }

  /** An id is in force for one thing only: an open, a lock or a delegation. */
  lemma OneUse(ss: seq<State>, m: nat, other: Other)
    requires Run(ss) && m < |ss|
    ensures other in ss[m].opens ==> other !in ss[m].locks
    ensures forall node :: node in ss[m].delegations && ss[m].delegations[node].other == other ==>
              other !in ss[m].opens && other !in ss[m].locks
  {
    RunKeeps(ss, m);
  }

  lemma LockFresh(s: State, other: Other)
    requires Inv(s) && other == Minted(s, FOR_LOCK).1
    ensures other !in s.locks
  {
    MintFresh(s, FOR_LOCK);
  }

  // ---- what an immediate revocation takes ----------------------------------------------------------------

  predicate Held(s: State, node: NodeKey, other: Other) {
    node in s.delegations && s.delegations[node].other == other
  }

  /** No step brings back a delegation with an id minted before. */
  lemma StepHeld(s: State, s': State, node: NodeKey, other: Other)
    requires Inv(s) && Step(s, s') && Known(s.minted, other) && Held(s', node, other)
    ensures Held(s, node, other)
  {
    hide MintedOk, TablesOk, Known, OpenStep;
    if OpenStep(s, s') {
      OpenStepFrame(s, s');
    } else if n :| Grants(s, s', n) {
      MintFresh(s, FOR_DELEGATION);
    }
  }

  lemma {:induction false} HeldSince(ss: seq<State>, a: nat, k: nat, b: nat, node: NodeKey, other: Other)
    requires Run(ss) && a <= k <= b < |ss| && Known(ss[a].minted, other) && Held(ss[b], node, other)
    ensures Held(ss[k], node, other)
    decreases b
  {
    hide Step, Known, Held;
    if k < b {
      RunKeeps(ss, b - 1);
      assert Step(ss[b - 1], ss[b - 1 + 1]);
      MintedGrows(ss, a, b - 1);
      KnownStays(ss[a].minted, ss[b - 1].minted, other);
      StepHeld(ss[b - 1], ss[b], node, other);
      HeldSince(ss, a, k, b - 1, node, other);
    }
  }

  lemma KnownStays(minted: seq<Other>, minted': seq<Other>, other: Other)
    requires minted <= minted' && Known(minted, other)
    ensures Known(minted', other)
  {
    var i :| 0 <= i < |minted| && minted[i] == other;
    assert minted'[i] == other;
  }

  /** The immediate removal looks at the file only.  It takes the delegation recalled at `a` exactly if that one
      was held all the while; if it was gone at some moment and the file has one again, it takes one granted after
      the recall. */
  lemma ImmediateTakes(ss: seq<State>, a: nat, b: nat, i: nat, node: NodeKey, other: Other)
    requires Run(ss) && a < b && b + 1 < |ss|
    requires Recalls(ss[a], ss[a + 1], node, false) && ss[a].delegations[node].other == other
    requires Removes(ss[b], ss[b + 1], i) && ss[b].recalls[i].node == node
    ensures node !in ss[b + 1].delegations
    ensures Held(ss[b], node, other) <==> forall k :: a <= k <= b ==> Held(ss[k], node, other)
    ensures (node in ss[b].delegations && !Known(ss[a].minted, ss[b].delegations[node].other)) <==>
            (node in ss[b].delegations && exists k :: a <= k <= b && !Held(ss[k], node, other))
  {
    hide Step, Known, Recalls, Run;
    RecalledKnown(ss, a, node, other);
    if Held(ss[b], node, other) {
      forall k | a <= k <= b ensures Held(ss[k], node, other) { HeldSince(ss, a, k, b, node, other); }
    }
    if node in ss[b].delegations && Known(ss[a].minted, ss[b].delegations[node].other) {
      HeldSince(ss, a, a, b, node, ss[b].delegations[node].other);
    }
  }

  lemma RecalledKnown(ss: seq<State>, a: nat, node: NodeKey, other: Other)
    requires Run(ss) && a + 1 < |ss| && Recalls(ss[a], ss[a + 1], node, false) && ss[a].delegations[node].other == other
    ensures Held(ss[a], node, other) && Known(ss[a].minted, other)
  {
    hide Step, Known;
    RunKeeps(ss, a);
  }

  /** It does happen: granted, recalled with no back channel, returned, granted again, and taken. */
  lemma LateGrantTaken(node: NodeKey)
    ensures exists ss: seq<State> ::
              && Run(ss) && |ss| == 6 && Recalls(ss[1], ss[2], node, false) && Removes(ss[4], ss[5], 0)
              && node in ss[4].delegations && !Known(ss[2].minted, ss[4].delegations[node].other)
              && node !in ss[5].delegations
  {
    hide Step, Run;
    var ss := Returned(node);
    var (m4, other) := Minted(ss[3], FOR_DELEGATION);
    var s4 := m4.(delegations := map[node := Delegation(other, false)], granted := 2);
    assert Step(ss[3], s4) by { StepGrants(ss[3], s4, node); }
    var s5 := s4.(delegations := s4.delegations - {node}, revoked := 1, recalls := []);
    assert s4.recalls[..0] + s4.recalls[0 + 1..] == [];
    assert Step(s4, s5) by { StepRemoves(s4, s5, 0); }
    RunMore(ss, s4);
    RunMore(ss + [s4], s5);
    var run := ss + [s4] + [s5];
    assert run[1] == ss[1] && run[2] == ss[2] && run[4] == s4 && run[5] == s5;
  }

  lemma StepGrants(s: State, s': State, node: NodeKey)
    requires Grants(s, s', node)
    ensures Step(s, s')
  {}

  lemma StepRemoves(s: State, s': State, i: nat)
    requires Removes(s, s', i)
    ensures Step(s, s')
  {}

  lemma RunMore(ss: seq<State>, s: State)
    requires Run(ss) && Step(ss[|ss| - 1], s)
    ensures Run(ss + [s])
  {
    hide Step;
  }

  /** Granted, recalled with no back channel, and returned before the removal. */
  lemma Returned(node: NodeKey) returns (ss: seq<State>)
    ensures Run(ss) && |ss| == 4 && Recalls(ss[1], ss[2], node, false)
    ensures ss[2].minted == ss[3].minted == [Other(1, FOR_DELEGATION, 0)] && ss[3].nextOther == 2 && ss[3].boot == 0
    ensures ss[3].delegations == map[] && ss[3].recalls == [Immediate(node)]
    ensures ss[3].granted == 1 && ss[3].returned == 1 && ss[3].revoked == 0
    ensures forall j :: 0 <= j < 3 ==> !IsReset(ss[j], ss[j + 1])
  {
    var s0 := NewState(0);
    var (m1, other) := Minted(s0, FOR_DELEGATION);
    var s1 := m1.(delegations := m1.delegations[node := Delegation(other, false)], granted := 1);
    assert Grants(s0, s1, node);
    var s2 := s1.(delegations := s1.delegations[node := Delegation(other, true)], recalls := [Immediate(node)]);
    assert Recalls(s1, s2, node, false);
    var s3 := s2.(delegations := s2.delegations - {node}, returned := 1);
    assert Returns(s2, s3, node);
    ss := [s0, s1, s2, s3];
    assert Step(s0, s1) && Step(s1, s2) && Step(s2, s3);
  }

  // ---- the delegation counts ---------------------------------------------------------------------------

  /** What the counts say beyond what was granted. */
  function Excess(s: State): int {
    s.returned + s.revoked + |s.delegations| - s.granted
  }

  /** An immediate revocation that finds nothing to take. */
  ghost predicate Vain(s: State, s': State) {
    exists i: nat :: Removes(s, s', i) && s.recalls[i].node !in s.delegations
  }

  /** A client reset. */
  ghost predicate IsReset(s: State, s': State) {
    exists destroyed :: Resets(s, s', destroyed)
  }

  lemma QuietExcess(s: State, s': State)
    requires s'.delegations == s.delegations && s'.granted == s.granted && s'.returned == s.returned
    requires s'.revoked == s.revoked
    ensures Excess(s') == Excess(s) && !Vain(s, s') && (IsReset(s, s') ==> |s.delegations| == 0)
  {}

  lemma GrantsExcess(s: State, s': State, node: NodeKey)
    requires Grants(s, s', node)
    ensures Excess(s') == Excess(s) && !Vain(s, s') && !IsReset(s, s')
  {
    assert s'.delegations.Keys == s.delegations.Keys + {node};
  }

  lemma TakeOne(ds: map<NodeKey, Delegation>, node: NodeKey)
    ensures |ds - {node}| == (if node in ds then |ds| - 1 else |ds|) && (node !in ds ==> ds - {node} == ds)
  {
    assert (ds - {node}).Keys == ds.Keys - {node};
    if node !in ds { assert ds - {node} == ds; }
  }

  lemma ReturnsExcess(s: State, s': State, node: NodeKey)
    requires Returns(s, s', node)
    ensures Excess(s') == Excess(s) && !Vain(s, s') && !IsReset(s, s')
  {
    TakeOne(s.delegations, node);
  }

  lemma RecallsExcess(s: State, s': State, node: NodeKey, channel: bool)
    requires Recalls(s, s', node, channel)
    ensures Excess(s') == Excess(s) && !Vain(s, s') && !IsReset(s, s')
  {
    assert s'.delegations.Keys == s.delegations.Keys;
    assert node in s'.delegations;
  }

  lemma ExpiresExcess(s: State, s': State, i: nat)
    requires Expires(s, s', i)
    ensures Excess(s') == Excess(s) && !Vain(s, s') && !IsReset(s, s')
  {
    hide Vain;
    TakeOne(s.delegations, s.recalls[i].node);
    if Vain(s, s') { VainTakesNothing(s, s'); }
  }

  lemma VainTakesNothing(s: State, s': State)
    requires Vain(s, s')
    ensures s'.delegations == s.delegations && s'.revoked == s.revoked + 1
  {
    var k: nat :| Removes(s, s', k) && s.recalls[k].node !in s.delegations;
    TakeOne(s.delegations, s.recalls[k].node);
  }

  lemma RemovesExcess(s: State, s': State, i: nat)
    requires Removes(s, s', i)
    ensures Excess(s') == Excess(s) + (if Vain(s, s') then 1 else 0) && !IsReset(s, s')
    ensures Vain(s, s') <==> s.recalls[i].node !in s.delegations
  {
    TakeOne(s.delegations, s.recalls[i].node);
    if Vain(s, s') { VainTakesNothing(s, s'); }
  }

  /** A vain revocation counts one too many, and a reset forgets what the client held; nothing else unbalances. */
  lemma StepExcess(s: State, s': State)
    requires Step(s, s')
    ensures Excess(s') == Excess(s) + (if Vain(s, s') then 1 else 0) - (if IsReset(s, s') then |s.delegations| else 0)
  {
    hide OpenStep, Grants, Returns, Recalls, Expires, Removes, Vain, Excess;
    if IsReset(s, s') {
      ResetsExcess(s, s');
    } else if OpenStep(s, s') {
      OpenStepFrame(s, s');
      QuietExcess(s, s');
    } else if node :| Grants(s, s', node) {
      GrantsExcess(s, s', node);
    } else if node :| Returns(s, s', node) {
      ReturnsExcess(s, s', node);
    } else if node, channel :| Recalls(s, s', node, channel) {
      RecallsExcess(s, s', node, channel);
    } else if i: nat :| Expires(s, s', i) {
      ExpiresExcess(s, s', i);
    } else if i: nat :| Removes(s, s', i) {
      RemovesExcess(s, s', i);
    } else {
      QuietExcess(s, s');
    }
  }

  lemma ResetsExcess(s: State, s': State)
    requires IsReset(s, s')
    ensures Excess(s') == Excess(s) - |s.delegations| && !Vain(s, s')
  {}

  ghost predicate VainAt(ss: seq<State>, j: nat) {
    j + 1 < |ss| && Vain(ss[j], ss[j + 1])
  }

  /** A reset of a client that held delegations. */
  ghost predicate LosesAt(ss: seq<State>, j: nat) {
    j + 1 < |ss| && ss[j].delegations != map[] && IsReset(ss[j], ss[j + 1])
  }

  /** Over a run: so many vain revocations, and so many delegations forgotten at resets. */
  ghost function Vains(ss: seq<State>, m: nat): nat {
    if m == 0 then 0 else Vains(ss, m - 1) + if VainAt(ss, m - 1) then 1 else 0
  }

  ghost function Forgotten(ss: seq<State>, m: nat): nat
    requires m <= |ss|
  {
    if m == 0 then 0 else Forgotten(ss, m - 1) + if LosesAt(ss, m - 1) then |ss[m - 1].delegations| else 0
  }

  lemma {:induction false} Ledger(ss: seq<State>, m: nat)
    requires Run(ss) && m < |ss|
    ensures ss[m].granted + Vains(ss, m) == ss[m].returned + ss[m].revoked + |ss[m].delegations| + Forgotten(ss, m)
  {
    hide Step, Vain, IsReset;
    if m > 0 {
      Ledger(ss, m - 1);
      assert Step(ss[m - 1], ss[m - 1 + 1]);
      StepExcess(ss[m - 1], ss[m]);
      assert ss[m - 1].delegations == map[] ==> |ss[m - 1].delegations| == 0;
    }
  }

  lemma {:induction false} NoVains(ss: seq<State>, m: nat)
    ensures Vains(ss, m) == 0 <==> forall j: nat :: j < m ==> !VainAt(ss, j)
  {
    hide VainAt;
    if m > 0 { NoVains(ss, m - 1); }
  }

  lemma {:induction false} NothingForgotten(ss: seq<State>, m: nat)
    requires m <= |ss| && forall j: nat :: j < m ==> !LosesAt(ss, j)
    ensures Forgotten(ss, m) == 0
  {
    hide LosesAt;
    if m > 0 { NothingForgotten(ss, m - 1); }
  }

  /** Every delegation granted is returned, revoked or still held, exactly if as many revocations were vain as
      delegations were forgotten at resets.  While no reset forgets any, that is: exactly if no immediate revocation
      found its delegation gone. */
  lemma DelegationsAccounted(ss: seq<State>, m: nat)
    requires Run(ss) && m < |ss|
    ensures ss[m].granted == ss[m].returned + ss[m].revoked + |ss[m].delegations| <==> Vains(ss, m) == Forgotten(ss, m)
    ensures (forall j: nat :: j < m ==> !LosesAt(ss, j)) ==>
              (ss[m].granted == ss[m].returned + ss[m].revoked + |ss[m].delegations|
               <==> forall j: nat :: j < m ==> !VainAt(ss, j))
  {
    hide Run, VainAt, LosesAt;
    Ledger(ss, m);
    NoVains(ss, m);
    if forall j: nat :: j < m ==> !LosesAt(ss, j) { NothingForgotten(ss, m); }
  }

  /** A recall with no back channel. */
  ghost predicate IsCut(s: State, s': State) {
    exists node :: Recalls(s, s', node, false)
  }

  ghost predicate CutAt(ss: seq<State>, j: nat) {
    j + 1 < |ss| && IsCut(ss[j], ss[j + 1])
  }

  ghost predicate AllTimed(rs: seq<Recall>) {
    forall i :: 0 <= i < |rs| ==> rs[i].Timed?
  }

  lemma TimedLess(rs: seq<Recall>, i: nat)
    requires AllTimed(rs) && i < |rs|
    ensures AllTimed(rs[..i] + rs[i + 1..])
  {}

  lemma StepTimed(s: State, s': State)
    requires Step(s, s') && AllTimed(s.recalls) && !IsCut(s, s')
    ensures AllTimed(s'.recalls) && !Vain(s, s')
  {
    hide OpenStep;
    NoneImmediate(s, s');
    if OpenStep(s, s') {
      OpenStepFrame(s, s');
    } else if node, channel :| Recalls(s, s', node, channel) {
      RecallTimed(s, s', node, channel);
    } else if i: nat :| Expires(s, s', i) || Abandons(s, s', i) {
      hide AllTimed;
      TimedLess(s.recalls, i);
    }
  }

  lemma NoneImmediate(s: State, s': State)
    requires AllTimed(s.recalls)
    ensures forall i: nat :: !Removes(s, s', i)
    ensures !Vain(s, s')
  {}

  lemma RecallTimed(s: State, s': State, node: NodeKey, channel: bool)
    requires AllTimed(s.recalls) && !IsCut(s, s') && Recalls(s, s', node, channel)
    ensures AllTimed(s'.recalls)
  {}

  lemma {:induction false} TimedThroughout(ss: seq<State>, m: nat)
    requires Run(ss) && m < |ss| && forall j: nat :: j < m ==> !CutAt(ss, j)
    ensures AllTimed(ss[m].recalls) && forall j: nat :: j < m ==> !VainAt(ss, j)
  {
    hide Step, AllTimed, Vain, IsCut;
    if m == 0 {
      assert AllTimed([]) by { TimedAtFirst(); }
    } else {
      TimedThroughout(ss, m - 1);
      assert Step(ss[m - 1], ss[m - 1 + 1]) && !CutAt(ss, m - 1);
      StepTimed(ss[m - 1], ss[m]);
    }
  }

  lemma TimedAtFirst()
    ensures AllTimed([])
  {}

  /** With a back channel at every recall the counts add up at every moment, but for what resets forget. */
  lemma AccountedWithChannel(ss: seq<State>, m: nat)
    requires Run(ss) && m < |ss| && forall j: nat :: j < m ==> !CutAt(ss, j)
    ensures ss[m].granted == ss[m].returned + ss[m].revoked + |ss[m].delegations| + Forgotten(ss, m)
    ensures (forall j: nat :: j < m ==> !LosesAt(ss, j)) ==> Forgotten(ss, m) == 0
  {
    hide Run, VainAt, LosesAt, CutAt;
    TimedThroughout(ss, m);
    NoVains(ss, m);
    Ledger(ss, m);
    if forall j: nat :: j < m ==> !LosesAt(ss, j) { NothingForgotten(ss, m); }
  }

  /** The exception happens: the delegation is returned between the two halves of an immediate revocation. */
  lemma PhantomRevocation(node: NodeKey)
    ensures exists ss: seq<State> ::
              && Run(ss) && |ss| == 5 && (forall j: nat :: j < 4 ==> !LosesAt(ss, j)) && VainAt(ss, 3)
              && ss[4].granted == 1 && ss[4].returned + ss[4].revoked + |ss[4].delegations| == 2
  {
    var ss := Returned(node);
    var s4 := ss[3].(delegations := ss[3].delegations - {node}, revoked := 1, recalls := []);
    assert ss[3].recalls[..0] + ss[3].recalls[0 + 1..] == [];
    assert Removes(ss[3], s4, 0);
    RunMore(ss, s4);
    var run := ss + [s4];
    assert Vain(ss[3], s4);
    forall j: nat | j < 4 ensures !LosesAt(run, j) {
      if j < 3 { assert !IsReset(ss[j], ss[j + 1]); }
    }
  }

  // ---- as the server keeps it ------------------------------------------------------------------------

  class ServerState {
    const boot: nat
    var nextOther: nat
    var opens: map<Other, Open>
    var locks: map<Other, NodeKey>
    var delegations: map<NodeKey, Delegation>
    var recalls: seq<Recall>
    var granted: nat
    var returned: nat
    var revoked: nat
    ghost var minted: seq<Other>

    ghost function Value(): State
      reads this
    {
      State(boot, nextOther, minted, opens, locks, delegations, recalls, granted, returned, revoked)
    }

    ghost predicate Valid()
      reads this
    {
      Inv(Value())
    }

    constructor (boot: nat)
      ensures Valid() && Value() == NewState(boot)
    {
      this.boot := boot;
      nextOther, opens, locks, delegations, recalls := 1, map[], map[], map[], [];
      granted, returned, revoked := 0, 0, 0;
      minted := [];
    }

    method NewOther(use: nat) returns (other: Other)
      modifies this`nextOther, this`minted
      ensures (Value(), other) == Minted(old(Value()), use)
    {
      other := Other(nextOther, use, boot);
      nextOther := nextOther + 1;
      minted := minted + [other];
    }

    /** The open of this owner on this file, if there is one. */
    method FindOpen(node: NodeKey, owner: nat) returns (found: Option<Other>)
      ensures found.Some? ==> Holds(Value(), found.value, node, owner)
      ensures found.None? ==> forall other :: !Holds(Value(), other, node, owner)
    {
      var left := opens.Keys;
      while left != {}
        invariant left <= opens.Keys
        invariant forall other :: other in opens && other !in left ==> !Holds(Value(), other, node, owner)
        decreases |left|
      {
        var other :| other in left;
        if opens[other].node == node && opens[other].owner == owner { return Some(other); }
        left := left - {other};
      }
      return None;
    }

    /** OPEN: one state id per owner and file, whatever the number of opens. */
    method OpenFile(node: NodeKey, owner: nat, access: bv2) returns (other: Other, seqid: nat)
      requires Valid()
      modifies this
      ensures Valid() && Holds(Value(), other, node, owner) && opens[other].seqid == seqid
      ensures || Reopens(old(Value()), Value(), node, owner, access)
              || OpensNew(old(Value()), Value(), node, owner, access)
      ensures (exists o :: Holds(old(Value()), o, node, owner)) ==> Reopens(old(Value()), Value(), node, owner, access)
    {
      hide Inv;
      ghost var s := Value();
      var found := FindOpen(node, owner);
      if found.Some? {
        other := found.value;
        var o := opens[other];
        seqid := (o.seqid + 1) % 0x1_0000_0000;
        opens := opens[other := o.(seqid := seqid, access := o.access | access)];
        assert Reopens(s, Value(), node, owner, access);
        ReopensKeeps(s, Value(), node, owner, access);
      } else {
        other := NewOther(FOR_OPEN);
        opens := opens[other := Open(node, 1, access, owner)];
        seqid := 1;
        assert OpensNew(s, Value(), node, owner, access);
        OpensNewKeeps(s, Value(), node, owner, access);
      }
    }

    /** OPEN_DOWNGRADE, CLOSE and FREE_STATEID go by state id. */
    method Downgrade(other: Other, access: bv2) returns (status: nat)
      requires Valid()
      modifies this
      ensures Valid() && (status == NFS4_OK <==> other in old(opens))
      ensures status == NFS4_OK ==> Downgrades(old(Value()), Value(), other, access)
      ensures status != NFS4_OK ==> status == ERR_BAD_STATEID && Value() == old(Value())
    {
      hide Inv;
      if other !in opens { return ERR_BAD_STATEID; }
      ghost var s := Value();
      var o := opens[other];
      opens := opens[other := o.(seqid := (o.seqid + 1) % 0x1_0000_0000, access := access)];
      DowngradesKeeps(s, Value(), other, access);
      return NFS4_OK;
    }

    method Close(other: Other) returns (status: nat)
      requires Valid()
      modifies this
      ensures Valid() && other !in opens && (status == NFS4_OK <==> other in old(opens))
      ensures status == NFS4_OK ==> Closes(old(Value()), Value(), other)
      ensures status != NFS4_OK ==> status == ERR_BAD_STATEID && Value() == old(Value())
    {
      hide Inv;
      if other !in opens { return ERR_BAD_STATEID; }
      ghost var s := Value();
      opens := opens - {other};
      ClosesKeeps(s, Value(), other);
      return NFS4_OK;
    }

    method FreeStateId(other: Other)
      requires Valid()
      modifies this
      ensures Valid() && Frees(old(Value()), Value(), other)
    {
      hide Inv;
      ghost var s := Value();
      opens, locks := opens - {other}, locks - {other};
      FreesKeeps(s, Value(), other);
    }

    /** The first LOCK of a lock owner under an open. */
    method NewLock(open: Other) returns (other: Option<Other>)
      requires Valid()
      modifies this
      ensures Valid() && (other.Some? <==> open in old(opens))
      ensures other.Some? ==>
                && Locks(old(Value()), Value(), open)
                && other.value in locks && locks[other.value] == old(opens)[open].node && other.value !in old(locks)
      ensures other.None? ==> Value() == old(Value())
    {
      hide Inv;
      if open !in opens { return None; }
      ghost var s := Value();
      var node := opens[open].node;
      var o := NewOther(FOR_LOCK);
      LockFresh(s, o);
      locks := locks[o := node];
      LocksKeeps(s, Value(), open);
      return Some(o);
    }

    /** A delegation for a read-only open of a file that was there already. */
    method MaybeGrant(node: NodeKey, access: bv2, created: bool) returns (other: Option<Other>)
      requires Valid()
      modifies this
      ensures Valid()
      ensures other.Some? <==>
              !created && access & 2 == 0 && |old(delegations)| < 16384 && node !in old(delegations)
      ensures other.Some? ==>
                Grants(old(Value()), Value(), node) && node in delegations && delegations[node].other == other.value
      ensures other.None? ==> Value() == old(Value())
    {
      hide Inv;
      if created || access & 2 != 0 { return None; }
      if |delegations| >= DELEG_CAP || node in delegations { return None; }
      ghost var s := Value();
      var o := NewOther(FOR_DELEGATION);
      delegations := delegations[node := Delegation(o, false)];
      granted := granted + 1;
      GrantsKeeps(s, Value(), node);
      return Some(o);
    }

    /** DELEGRETURN: by state id; one that is not held is stale or bad. */
    method DelegReturn(other: Other) returns (status: nat)
      requires Valid()
      modifies this
      ensures Valid()
      ensures status == NFS4_OK <==> exists node :: node in old(delegations) && old(delegations)[node].other == other
      ensures status == NFS4_OK ==>
                exists node ::
                  && node in old(delegations) && old(delegations)[node].other == other
                  && Returns(old(Value()), Value(), node)
      ensures status != NFS4_OK ==>
                && Value() == old(Value())
                && status == if IsStale(Value(), other) then ERR_STALE_STATEID else ERR_BAD_STATEID
    {
      hide Inv;
      ghost var s := Value();
      var left := delegations.Keys;
      while left != {}
        invariant left <= delegations.Keys && Value() == s
        invariant forall node :: node in delegations && node !in left ==> delegations[node].other != other
        decreases |left|
      {
        var node :| node in left;
        if delegations[node].other == other {
          delegations := delegations - {node};
          returned := returned + 1;
          ReturnsKeeps(s, Value(), node);
          return NFS4_OK;
        }
        left := left - {node};
      }
      status := if other.Other? && other.boot != boot then ERR_STALE_STATEID else ERR_BAD_STATEID;
    }

    /** A guest change to the file: recall its delegation, once. */
    method RecallNode(node: NodeKey, channel: bool) returns (sent: bool)
      requires Valid()
      modifies this
      ensures Valid() && (sent <==> node in old(delegations) && !old(delegations)[node].recalling)
      ensures sent ==> Recalls(old(Value()), Value(), node, channel)
      ensures !sent ==> Value() == old(Value())
    {
      hide Inv;
      if node !in delegations || delegations[node].recalling { return false; }
      ghost var s := Value();
      var d := delegations[node];
      delegations := delegations[node := d.(recalling := true)];
      recalls := recalls + [if channel then Timed(d.other, node) else Immediate(node)];
      RecallsKeeps(s, Value(), node, channel);
      return true;
    }

    /** A recall comes due: the timed one looks at what it takes, the immediate one does not. */
    method Due(i: nat)
      requires Valid() && i < |recalls|
      modifies this
      ensures Valid() && (Expires(old(Value()), Value(), i) || Removes(old(Value()), Value(), i))
    {
      hide Inv;
      ghost var s := Value();
      var r := recalls[i];
      recalls := recalls[..i] + recalls[i + 1..];
      match r {
        case Timed(other, node) =>
          if node in delegations && delegations[node].other == other {
            delegations := delegations - {node};
            revoked := revoked + 1;
          }
          ExpiresKeeps(s, Value(), i);
        case Immediate(node) =>
          delegations := delegations - {node};
          revoked := revoked + 1;
          RemovesKeeps(s, Value(), i);
      }
    }

    /** The client restarted or is gone. */
    method Reset(destroyed: bool)
      requires Valid()
      modifies this
      ensures Valid() && Resets(old(Value()), Value(), destroyed)
    {
      hide Inv;
      ghost var s := Value();
      opens, delegations := map[], map[];
      if destroyed { locks := map[]; }
      ResetsKeeps(s, Value(), destroyed);
    }
  }
}
