/** What the calls of a client come to: every step of a run carries the call it answers, and what the server then
    holds is told by the calls alone. */
module NfsPromises {
  import opened Types
  import opened NfsStates

  /** The call a step answers.  `Granted` and `Given` are a delegation handed out and one handed back. */
  datatype Call =
    | Opened(node: NodeKey, owner: nat, access: bv2)
    | Closed(other: Other)
    | Downgraded(other: Other, access: bv2)
    | Locked(open: Other)
    | Freed(other: Other)
    | Forgot(destroyed: bool)
    | Granted(node: NodeKey)
    | Given(other: Other)
    | Recalled(node: NodeKey, channel: bool)
    | Lapsed(i: nat)
    | Dropped(i: nat)

  ghost predicate DoesOpen(c: Call, s: State, s': State) {
    match c
    case Opened(node, owner, access) => Reopens(s, s', node, owner, access) || OpensNew(s, s', node, owner, access)
    case Closed(other) => Closes(s, s', other)
    case Downgraded(other, access) => Downgrades(s, s', other, access)
    case Locked(open) => Locks(s, s', open)
    case Freed(other) => Frees(s, s', other)
    case _ => false
  }

  ghost predicate DoesDelegate(c: Call, s: State, s': State) {
    match c
    case Granted(node) => Grants(s, s', node)
    case Given(other) => exists node :: Held(s, node, other) && Returns(s, s', node)
    case Recalled(node, channel) => Recalls(s, s', node, channel)
    case Lapsed(i) => Expires(s, s', i) || Removes(s, s', i)
    case Dropped(i) => Abandons(s, s', i)
    case _ => false
  }

  ghost predicate Does(c: Call, s: State, s': State) {
    DoesOpen(c, s, s') || DoesDelegate(c, s, s') || (c.Forgot? && Resets(s, s', c.destroyed))
  }

  ghost predicate Called(ss: seq<State>, cs: seq<Call>) {
    && Run(ss) && |cs| == |ss| - 1
    && forall j :: 0 <= j < |cs| ==> Does(cs[j], ss[j], ss[j + 1])
  }

  /** Calls on delegations leave opens and locks alone. */
  lemma DelegateFrame(c: Call, s: State, s': State)
    requires DoesDelegate(c, s, s')
    ensures s'.opens == s.opens && s'.locks == s.locks
  {}

  lemma CalledAt(ss: seq<State>, cs: seq<Call>, j: nat)
    requires Called(ss, cs) && j < |cs|
    ensures Inv(ss[j]) && Does(cs[j], ss[j], ss[j + 1])
  {
    hide Does, Step;
    RunKeeps(ss, j);
  }

  // ---- an open over its life -------------------------------------------------------------------------

  /** This call ends the open or the lock. */
  predicate Ends(c: Call, other: Other) {
    c == Closed(other) || c == Freed(other) || c.Forgot?
  }

  /** This call is about the open: by its owner and file, or by its state id. */
  predicate About(c: Call, other: Other, node: NodeKey, owner: nat) {
    (c.Opened? && c.node == node && c.owner == owner) || (c.Downgraded? && c.other == other)
  }

  predicate Asks(c: Call, other: Other, node: NodeKey, owner: nat, bit: bv2) {
    About(c, other, node, owner) && c.access & bit != 0
  }

  /** How many of the calls from `i` up to `k` are about the open. */
  function Abouts(cs: seq<Call>, i: nat, k: nat, other: Other, node: NodeKey, owner: nat): nat
    requires k <= |cs|
    decreases k
  {
    if k <= i then 0
    else Abouts(cs, i, k - 1, other, node, owner) + if About(cs[k - 1], other, node, owner) then 1 else 0
  }

  predicate Allows(o: Open, bit: bv2) {
    o.access & bit != 0
  }

  /** An open after one call that does not end it. */
  ghost predicate Moved(c: Call, other: Other, o: Open, o': Open) {
    && o'.node == o.node && o'.owner == o.owner
    && o'.seqid == (if About(c, other, o.node, o.owner) then (o.seqid + 1) % 0x1_0000_0000 else o.seqid)
    && forall bit :: Allows(o', bit) <==>
         Asks(c, other, o.node, o.owner, bit) || (Allows(o, bit) && !(c.Downgraded? && c.other == other))
  }

  lemma ReopenMoves(s: State, s': State, node: NodeKey, owner: nat, access: bv2, other: Other)
    requires Inv(s) && Reopens(s, s', node, owner, access) && other in s.opens
    ensures other in s'.opens && Moved(Opened(node, owner, access), other, s.opens[other], s'.opens[other])
  {
    hide MintedOk, DelegsOk, LocksOk, RecallsOk, KnownFor;
    var id :| Holds(s, id, node, owner) &&
      s' == s.(opens := s.opens[id := s.opens[id].(
                 seqid := (s.opens[id].seqid + 1) % 0x1_0000_0000, access := s.opens[id].access | access)]);
    assert id == other <==> s.opens[other].node == node && s.opens[other].owner == owner;
  }

  lemma OpenNewMoves(s: State, s': State, node: NodeKey, owner: nat, access: bv2, other: Other)
    requires Inv(s) && OpensNew(s, s', node, owner, access) && other in s.opens
    ensures other in s'.opens && Moved(Opened(node, owner, access), other, s.opens[other], s'.opens[other])
  {
    hide MintedOk, DelegsOk, LocksOk, RecallsOk, Known;
    MintFresh(s, FOR_OPEN);
    assert !Holds(s, other, node, owner);
  }

  /** What a call does to an open, if it does not end it. */
  lemma OpenMoves(c: Call, s: State, s': State, other: Other)
    requires Inv(s) && Does(c, s, s') && other in s.opens
    ensures other in s'.opens <==> !Ends(c, other)
    ensures !Ends(c, other) ==> Moved(c, other, s.opens[other], s'.opens[other])
  {
    hide Inv, Reopens, OpensNew, Minted, Moved, DoesDelegate;
    if DoesDelegate(c, s, s') {
      DelegateFrame(c, s, s');
      DelegateNotOpen(c, s, s');
      MovedNot(c, other, s.opens[other]);
    } else if c.Opened? {
      if Reopens(s, s', c.node, c.owner, c.access) {
        ReopenMoves(s, s', c.node, c.owner, c.access, other);
      } else {
        OpenNewMoves(s, s', c.node, c.owner, c.access, other);
      }
    } else if c.Downgraded? {
      DowngradeMoves(s, s', c.other, c.access, other);
    } else {
      MintedFrame(s);
      MovedNot(c, other, s.opens[other]);
    }
  }

  lemma DelegateNotOpen(c: Call, s: State, s': State)
    requires DoesDelegate(c, s, s')
    ensures !c.Opened? && !c.Downgraded? && !c.Closed? && !c.Freed? && !c.Forgot? && !c.Locked?
  {}

  lemma MintedFrame(s: State)
    ensures forall use :: Minted(s, use).0.opens == s.opens
  {}

  lemma MovedNot(c: Call, other: Other, o: Open)
    requires !c.Opened? && !c.Downgraded?
    ensures Moved(c, other, o, o)
  {}

  lemma DowngradeMoves(s: State, s': State, id: Other, access: bv2, other: Other)
    requires Downgrades(s, s', id, access) && other in s.opens
    ensures other in s'.opens && Moved(Downgraded(id, access), other, s.opens[other], s'.opens[other])
  {}

  /** An id minted before and not open now is not opened by any call. */
  lemma NotReopened(c: Call, s: State, s': State, other: Other)
    requires Inv(s) && Does(c, s, s') && Known(s.minted, other) && other !in s.opens
    ensures other !in s'.opens
  {
    hide MintedOk, TablesOk, Known, DoesDelegate;
    if DoesDelegate(c, s, s') {
      DelegateFrame(c, s, s');
    } else {
      MintFresh(s, FOR_OPEN);
    }
  }

  /** The open that `Opened` at `a` began. */
  ghost predicate Begins(ss: seq<State>, cs: seq<Call>, a: nat, other: Other) {
    && a + 1 < |ss| && |cs| == |ss| - 1 && cs[a].Opened?
    && other !in ss[a].opens && other in ss[a + 1].opens
  }

  lemma BeginsIs(ss: seq<State>, cs: seq<Call>, a: nat, other: Other)
    requires Called(ss, cs) && Begins(ss, cs, a, other)
    ensures Known(ss[a + 1].minted, other)
    ensures ss[a + 1].opens[other] == Open(cs[a].node, 1, cs[a].access, cs[a].owner)
  {
    hide Step, Inv;
    CalledAt(ss, cs, a);
    OpenBegins(cs[a], ss[a], ss[a + 1], other);
  }

  lemma OpenBegins(c: Call, s: State, s': State, other: Other)
    requires Inv(s) && Does(c, s, s') && c.Opened? && other !in s.opens && other in s'.opens
    ensures Known(s'.minted, other)
    ensures s'.opens[other] == Open(c.node, 1, c.access, c.owner)
  {
    hide MintedOk, TablesOk, Known;
    MintFresh(s, FOR_OPEN);
  }

  /** Whether an open is still there, and what it is then, told by the calls since it began. */
  ghost predicate Lives(cs: seq<Call>, a: nat, b: nat, other: Other) {
    forall j: nat :: a < j < b && j < |cs| ==> !Ends(cs[j], other)
  }

  /** A call from `a` on asked for this access, and no downgrade came after it. */
  ghost predicate Asked(cs: seq<Call>, a: nat, b: nat, other: Other, node: NodeKey, owner: nat, bit: bv2) {
    exists j: nat :: a <= j < b && j < |cs| && Asks(cs[j], other, node, owner, bit) && Stands(cs, j, b, other)
  }

  /** No downgrade of the open between the two. */
  ghost predicate Stands(cs: seq<Call>, j: nat, b: nat, other: Other) {
    forall k: nat :: j < k < b && k < |cs| ==> !(cs[k].Downgraded? && cs[k].other == other)
  }

  ghost predicate OpenIs(cs: seq<Call>, a: nat, b: nat, other: Other, o: Open)
    requires a < b <= |cs| && cs[a].Opened?
  {
    && o.node == cs[a].node && o.owner == cs[a].owner
    && o.seqid == (1 + Abouts(cs, a + 1, b, other, o.node, o.owner)) % 0x1_0000_0000
    && forall bit :: Allows(o, bit) <==> Asked(cs, a, b, other, o.node, o.owner, bit)
  }

  lemma AskedFirst(cs: seq<Call>, a: nat, other: Other, bit: bv2)
    requires a < |cs| && cs[a].Opened?
    ensures Asked(cs, a, a + 1, other, cs[a].node, cs[a].owner, bit) <==> cs[a].access & bit != 0
  {
    assert Stands(cs, a, a + 1, other);
  }

  lemma AskedNext(cs: seq<Call>, a: nat, b: nat, other: Other, node: NodeKey, owner: nat, bit: bv2)
    requires a < b < |cs|
    ensures Asked(cs, a, b + 1, other, node, owner, bit) <==>
            || Asks(cs[b], other, node, owner, bit)
            || (Asked(cs, a, b, other, node, owner, bit) && !(cs[b].Downgraded? && cs[b].other == other))
  {
    hide Asks;
    var b' := b + 1;
    if Asks(cs[b], other, node, owner, bit) { assert Stands(cs, b, b', other); }
    if j: nat :| a <= j < b && Asks(cs[j], other, node, owner, bit) && Stands(cs, j, b, other) {
      if !(cs[b].Downgraded? && cs[b].other == other) { assert Stands(cs, j, b', other); }
    }
    if j: nat :| a <= j < b && Asks(cs[j], other, node, owner, bit) && Stands(cs, j, b', other) {
      assert Stands(cs, j, b, other);
    }
  }

  lemma OpenIsNext(cs: seq<Call>, a: nat, b: nat, other: Other, o: Open, o': Open)
    requires a < b < |cs| && cs[a].Opened? && OpenIs(cs, a, b, other, o) && Moved(cs[b], other, o, o')
    ensures OpenIs(cs, a, b + 1, other, o')
  {
    hide Asked, Asks, About;
    forall bit ensures Allows(o', bit) <==> Asked(cs, a, b + 1, other, o.node, o.owner, bit) {
      AskedNext(cs, a, b, other, o.node, o.owner, bit);
    }
  }

  /** An open is in force exactly until a call closes or frees it or forgets the client.  Its sequence number counts
      the OPENs of its owner on its file and its downgrades, and it allows just what was asked for since the last
      downgrade. */
  lemma {:induction false} OpenFollowsCalls(ss: seq<State>, cs: seq<Call>, a: nat, b: nat, other: Other)
    requires Called(ss, cs) && Begins(ss, cs, a, other) && a < b < |ss|
    ensures Known(ss[b].minted, other)
    ensures other in ss[b].opens <==> Lives(cs, a, b, other)
    ensures other in ss[b].opens ==> OpenIs(cs, a, b, other, ss[b].opens[other])
    decreases b
  {
    hide Run, Does, Inv, Known, OpenIs, Ends, Moved;
    if b == a + 1 {
      BeginsIs(ss, cs, a, other);
      OpenIsFirst(cs, a, other);
    } else {
      var p := b - 1;
      OpenFollowsCalls(ss, cs, a, p, other);
      MintedGrows(ss, p, b);
      KnownStays(ss[p].minted, ss[b].minted, other);
      CalledAt(ss, cs, p);
      if other in ss[p].opens {
        OpenMoves(cs[p], ss[p], ss[b], other);
        if !Ends(cs[p], other) { OpenIsNext(cs, a, p, other, ss[p].opens[other], ss[b].opens[other]); }
      } else {
        NotReopened(cs[p], ss[p], ss[b], other);
      }
    }
  }

  lemma OpenIsFirst(cs: seq<Call>, a: nat, other: Other)
    requires a < |cs| && cs[a].Opened?
    ensures OpenIs(cs, a, a + 1, other, Open(cs[a].node, 1, cs[a].access, cs[a].owner))
  {
    hide Asked;
    var o := Open(cs[a].node, 1, cs[a].access, cs[a].owner);
    forall bit ensures Allows(o, bit) <==> Asked(cs, a, a + 1, other, o.node, o.owner, bit) {
      AskedFirst(cs, a, other, bit);
    }
  }

  // ---- a lock over its life ---------------------------------------------------------------------------

  /** A lock outlives the close of its file, and a restart of the client. */
  predicate EndsLock(c: Call, other: Other) {
    c == Freed(other) || c == Forgot(true)
  }

  lemma LockMoves(c: Call, s: State, s': State, other: Other)
    requires Inv(s) && Does(c, s, s') && Known(s.minted, other)
    ensures other in s'.locks <==> other in s.locks && !EndsLock(c, other)
    ensures other in s'.locks ==> s'.locks[other] == s.locks[other]
  {
    hide MintedOk, TablesOk, Known, DoesDelegate;
    if DoesDelegate(c, s, s') {
      DelegateFrame(c, s, s');
      DelegateNotOpen(c, s, s');
    } else {
      MintFresh(s, FOR_LOCK);
    }
  }

  lemma LockBegins(c: Call, s: State, s': State, other: Other)
    requires Inv(s) && Does(c, s, s') && c.Locked? && other !in s.locks && other in s'.locks
    ensures c.open in s.opens && s'.locks[other] == s.opens[c.open].node && Known(s'.minted, other)
  {
    hide MintedOk, TablesOk, Known;
    MintFresh(s, FOR_LOCK);
  }

  /** A lock is of the file its open was of, and stays exactly until it is freed or the client is destroyed. */
  lemma {:induction false} LockFollowsCalls(ss: seq<State>, cs: seq<Call>, a: nat, b: nat, other: Other)
    requires Called(ss, cs) && a < b < |ss| && cs[a].Locked? && other !in ss[a].locks && other in ss[a + 1].locks
    ensures Known(ss[b].minted, other) && cs[a].open in ss[a].opens
    ensures other in ss[b].locks <==> forall j: nat :: a < j < b ==> !EndsLock(cs[j], other)
    ensures other in ss[b].locks ==> ss[b].locks[other] == ss[a].opens[cs[a].open].node
    decreases b
  {
    hide Run, Does, Inv, Known, EndsLock;
    if b == a + 1 {
      CalledAt(ss, cs, a);
      LockBegins(cs[a], ss[a], ss[b], other);
    } else {
      var p := b - 1;
      LockFollowsCalls(ss, cs, a, p, other);
      MintedGrows(ss, p, b);
      KnownStays(ss[p].minted, ss[b].minted, other);
      CalledAt(ss, cs, p);
      LockMoves(cs[p], ss[p], ss[b], other);
    }
  }

  // ---- delegations ------------------------------------------------------------------------------------

  /** This recall takes a delegation away when it comes due. */
  predicate Takes(s: State, i: nat) {
    && i < |s.recalls|
    && (s.recalls[i].Immediate?
        || (s.recalls[i].node in s.delegations && s.delegations[s.recalls[i].node].other == s.recalls[i].other))
  }

  function Grantings(cs: seq<Call>): nat {
    if cs == [] then 0 else Grantings(cs[..|cs| - 1]) + if cs[|cs| - 1].Granted? then 1 else 0
  }

  function Givings(cs: seq<Call>): nat {
    if cs == [] then 0 else Givings(cs[..|cs| - 1]) + if cs[|cs| - 1].Given? then 1 else 0
  }

  function Takings(ss: seq<State>, cs: seq<Call>): nat
    requires |cs| <= |ss|
  {
    if cs == [] then 0
    else
      var n := |cs| - 1;
      Takings(ss, cs[..n]) + if cs[n].Lapsed? && Takes(ss[n], cs[n].i) then 1 else 0
  }

  lemma CountsMove(c: Call, s: State, s': State)
    requires Does(c, s, s')
    ensures s'.granted == s.granted + if c.Granted? then 1 else 0
    ensures s'.returned == s.returned + if c.Given? then 1 else 0
    ensures s'.revoked == s.revoked + if c.Lapsed? && Takes(s, c.i) then 1 else 0
  {
    hide DoesOpen;
    if DoesOpen(c, s, s') {
      OpenCounts(c, s, s');
    }
  }

  lemma OpenCounts(c: Call, s: State, s': State)
    requires DoesOpen(c, s, s')
    ensures s'.granted == s.granted && s'.returned == s.returned && s'.revoked == s.revoked
    ensures !c.Granted? && !c.Given? && !c.Lapsed?
  {}

  /** The three counters count grants, returns and revocations. */
  lemma {:induction false} CountsFollowCalls(ss: seq<State>, cs: seq<Call>, m: nat)
    requires Called(ss, cs) && m < |ss|
    ensures ss[m].granted == Grantings(cs[..m]) && ss[m].returned == Givings(cs[..m])
    ensures ss[m].revoked == Takings(ss, cs[..m])
  {
    hide Does, Inv, Takes;
    if m > 0 {
      var p := m - 1;
      CountsFollowCalls(ss, cs, p);
      CalledAt(ss, cs, p);
      CountsMove(cs[p], ss[p], ss[m]);
      assert cs[..m][..p] == cs[..p] && cs[..m][p] == cs[p];
    }
  }

  /** At no moment are there more delegations than the server will grant. */
  lemma {:induction false} NeverTooMany(ss: seq<State>, m: nat)
    requires Run(ss) && m < |ss|
    ensures |ss[m].delegations| <= 16384
  {
    hide Step;
    if m > 0 {
      NeverTooMany(ss, m - 1);
      assert Step(ss[m - 1], ss[m - 1 + 1]);
      StepFew(ss[m - 1], ss[m]);
    }
  }

  lemma StepFew(s: State, s': State)
    requires Step(s, s') && |s.delegations| <= 16384
    ensures |s'.delegations| <= 16384
  {
    hide OpenStep, Grants, Step;
    if OpenStep(s, s') {
      OpenStepFrame(s, s');
    } else if node :| Grants(s, s', node) {
      OneMore(s, s', node);
    } else {
      NoMore(s, s');
      FewerKeys(s.delegations.Keys, s'.delegations.Keys);
    }
  }

  lemma OneMore(s: State, s': State, node: NodeKey)
    requires Grants(s, s', node)
    ensures |s'.delegations| == |s.delegations| + 1 && |s.delegations| < 16384
  {
    assert s'.delegations.Keys == s.delegations.Keys + {node};
  }

  lemma NoMore(s: State, s': State)
    requires Step(s, s') && !OpenStep(s, s') && forall node :: !Grants(s, s', node)
    ensures s'.delegations.Keys <= s.delegations.Keys
  {
    hide OpenStep, Grants;
  }

  ghost predicate Marked(s: State, node: NodeKey, other: Other) {
    Held(s, node, other) && s.delegations[node].recalling
  }

  /** A delegation once recalled stays so, as long as it is held. */
  lemma StepMarked(s: State, s': State, node: NodeKey, other: Other)
    requires Inv(s) && Step(s, s') && Marked(s, node, other) && Held(s', node, other)
    ensures Marked(s', node, other)
  {
    hide MintedOk, TablesOk, Known, OpenStep;
    if OpenStep(s, s') { OpenStepFrame(s, s'); }
  }

  lemma {:induction false} MarkedSince(ss: seq<State>, a: nat, b: nat, node: NodeKey, other: Other)
    requires Run(ss) && a <= b < |ss| && Known(ss[a].minted, other)
    requires Marked(ss[a], node, other) && Held(ss[b], node, other)
    ensures Marked(ss[b], node, other)
    decreases b
  {
    hide Step, Known, Held, Marked;
    if a < b {
      HeldSince(ss, a, b - 1, b, node, other);
      MarkedSince(ss, a, b - 1, node, other);
      RunKeeps(ss, b - 1);
      assert Step(ss[b - 1], ss[b - 1 + 1]);
      StepMarked(ss[b - 1], ss[b], node, other);
    }
  }

  /** A delegation is recalled once: a second recall for the file is for another delegation. */
  lemma RecalledOnce(ss: seq<State>, a: nat, b: nat, node: NodeKey, ch: bool, ch': bool)
    requires Run(ss) && a < b && b + 1 < |ss|
    requires Recalls(ss[a], ss[a + 1], node, ch) && Recalls(ss[b], ss[b + 1], node, ch')
    ensures ss[b].delegations[node].other != ss[a].delegations[node].other
  {
    hide Step, Known;
    var other := ss[a].delegations[node].other;
    RunKeeps(ss, a);
    assert Known(ss[a].minted, other);
    MintedGrows(ss, a, a + 1);
    KnownStays(ss[a].minted, ss[a + 1].minted, other);
    assert Marked(ss[a + 1], node, other);
    if ss[b].delegations[node].other == other {
      MarkedSince(ss, a + 1, b, node, other);
    }
  }

  /** Something is on its way to take this delegation. */
  ghost predicate Doomed(s: State, node: NodeKey, other: Other) {
    Timed(other, node) in s.recalls || Immediate(node) in s.recalls
  }

  /** The recall of this delegation could not be sent. */
  ghost predicate LostAt(ss: seq<State>, j: nat, node: NodeKey, other: Other) {
    j + 1 < |ss| && LosesRecall(ss[j], ss[j + 1], node, other)
  }

  ghost predicate LosesRecall(s: State, s': State, node: NodeKey, other: Other) {
    exists i: nat :: Abandons(s, s', i) && s.recalls[i] == Timed(other, node)
  }

  lemma InLeft(rs: seq<Recall>, i: nat, r: Recall)
    requires i < |rs| && r in rs && r != rs[i]
    ensures r in rs[..i] + rs[i + 1..]
  {
    var k :| 0 <= k < |rs| && rs[k] == r;
    var left := rs[..i] + rs[i + 1..];
    assert k < i ==> left[k] == r;
    assert i < k ==> left[k - 1] == r;
  }

  lemma DoomedLess(s: State, s': State, i: nat, node: NodeKey, other: Other)
    requires i < |s.recalls| && s'.recalls == s.recalls[..i] + s.recalls[i + 1..]
    requires Doomed(s, node, other) && s.recalls[i] != Timed(other, node) && s.recalls[i] != Immediate(node)
    ensures Doomed(s', node, other)
  {
    if Timed(other, node) in s.recalls {
      InLeft(s.recalls, i, Timed(other, node));
    } else {
      InLeft(s.recalls, i, Immediate(node));
    }
  }

  /** A recall that comes due takes its delegation. */
  lemma StepDoomed(s: State, s': State, node: NodeKey, other: Other)
    requires Step(s, s') && Marked(s', node, other) && !LosesRecall(s, s', node, other)
    requires Marked(s, node, other) ==> Doomed(s, node, other)
    ensures Doomed(s', node, other)
  {
    hide OpenStep, Doomed;
    if OpenStep(s, s') {
      OpenStepFrame(s, s');
      DoomedSame(s, s', node, other);
    } else if i: nat :| Expires(s, s', i) {
      DoomedLess(s, s', i, node, other);
    } else if i: nat :| Removes(s, s', i) {
      DoomedLess(s, s', i, node, other);
    } else if i: nat :| Abandons(s, s', i) {
      DoomedLess(s, s', i, node, other);
    } else if n, channel :| Recalls(s, s', n, channel) {
      DoomedMore(s, s', n, channel, node, other);
    } else {
      DoomedSame(s, s', node, other);
    }
  }

  lemma DoomedSame(s: State, s': State, node: NodeKey, other: Other)
    requires s'.recalls == s.recalls
    ensures Doomed(s', node, other) <==> Doomed(s, node, other)
  {}

  lemma DoomedMore(s: State, s': State, n: NodeKey, channel: bool, node: NodeKey, other: Other)
    requires Recalls(s, s', n, channel) && Marked(s', node, other)
    requires Marked(s, node, other) ==> Doomed(s, node, other)
    ensures Doomed(s', node, other)
  {
    var last := s'.recalls[|s.recalls|];
    assert last in s'.recalls;
    if n != node {
      assert forall r :: r in s.recalls ==> r in s'.recalls;
    }
  }

  /** A delegation that was recalled and is still held has its revocation on the way, unless its recall could not be
      sent: so when the deadline has passed it is gone. */
  lemma {:induction false} RecalledGoes(ss: seq<State>, m: nat, node: NodeKey, other: Other)
    requires Run(ss) && m < |ss| && Marked(ss[m], node, other)
    requires forall j: nat :: j < m ==> !LostAt(ss, j, node, other)
    ensures Doomed(ss[m], node, other)
  {
    hide Step, Doomed, Held, LosesRecall;
    if m > 0 {
      var p := m - 1;
      assert Step(ss[p], ss[p + 1]) && !LostAt(ss, p, node, other);
      if Marked(ss[p], node, other) { RecalledGoes(ss, p, node, other); }
      StepDoomed(ss[p], ss[m], node, other);
    } else {
      FirstUnmarked(ss[0].boot, node, other);
    }
  }

  lemma FirstUnmarked(boot: nat, node: NodeKey, other: Other)
    ensures !Marked(NewState(boot), node, other)
  {}

  // ---- across a restart of the server --------------------------------------------------------------------

  /** Every id of another boot is stale here, and none of this boot's is, nor a special one. */
  lemma StaleIff(ss: seq<State>, m: nat, before: seq<State>, k: nat, i: nat)
    requires Run(ss) && m < |ss| && Run(before) && k < |before| && i < |before[k].minted|
    ensures IsStale(ss[m], before[k].minted[i]) <==> before[0].boot != ss[0].boot
    ensures !IsStale(ss[m], Zeros) && !IsStale(ss[m], Ones)
  {
    RunKeeps(before, k);
    hide Step, TablesOk;
    MintedGrows(ss, 0, m);
    MintedGrows(before, 0, k);
  }
}
