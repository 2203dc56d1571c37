/** Write-behind: a write is answered when it is queued, and reaches the guest later, in a task of its
    own whose pieces race each other.  One share, all its files, every interleaving. */
module WriteBehinds {
  import opened Types
  import opened GuestFiles

  /** Batches in flight per share, at most. */
  const SLOTS := 96
  /** Bytes per write RPC, at most. */
  const WRITE_CHUNK := 1024 * 1024

  /** A batch's life.  It blocks a drain of its range until it is unregistered, and counts as in flight until it is
      uncounted. */
  datatype Phase = Queued | Writing | Landed | Recorded | Unregistered | Uncounted | Ended

  function Rank(p: Phase): nat {
    match p
    case Queued => 0
    case Writing => 1
    case Landed => 2
    case Recorded => 3
    case Unregistered => 4
    case Uncounted => 5
    case Ended => 6
  }

  /** `prev` is the batch of the same file queued just before; `left` the chunks not yet answered. */
  datatype Task = Task(
    node: NodeKey,
    off: nat,
    data: seq<byte>,
    prev: Option<nat>,
    phase: Phase,
    left: set<nat>,
    ok: bool)

  /** All batches ever queued, in order of arrival. */
  datatype State = State(tasks: seq<Task>, files: map<NodeKey, seq<byte>>, free: nat, errors: set<NodeKey>)

  function FileOf(s: State, node: NodeKey): seq<byte> {
    if node in s.files then s.files[node] else []
  }

  // ---- chunks -----------------------------------------------------------------------------------

  function ChunkCount(n: nat): nat {
    (n + WRITE_CHUNK - 1) / WRITE_CHUNK
  }

  function ChunkStart(j: nat): nat {
    j * WRITE_CHUNK
  }

  function ChunkEnd(n: nat, j: nat): nat {
    if (j + 1) * WRITE_CHUNK < n then (j + 1) * WRITE_CHUNK else n
  }

  predicate IsChunk(n: nat, j: nat) {
    j < ChunkCount(n)
  }

  function AllChunks(n: nat): set<nat> {
    set j | 0 <= j < ChunkCount(n) && IsChunk(n, j)
  }

  lemma ChunkFits(n: nat, j: nat)
    requires j < ChunkCount(n)
    ensures ChunkStart(j) < ChunkEnd(n, j) <= n && ChunkEnd(n, j) - ChunkStart(j) <= 1_048_576
    ensures j + 1 < ChunkCount(n) ==> ChunkEnd(n, j) - ChunkStart(j) == 1_048_576
  {}

  lemma ChunkIn(n: nat, j: nat)
    ensures j in AllChunks(n) <==> j < ChunkCount(n)
  {
    assert j < ChunkCount(n) ==> IsChunk(n, j);
  }

  /** The chunk a byte is in. */
  lemma ChunkOf(n: nat, i: nat) returns (j: nat)
    requires i < n
    ensures j < ChunkCount(n) && ChunkStart(j) <= i < ChunkEnd(n, j)
  {
    j := i / WRITE_CHUNK;
  }

  // ---- steps ------------------------------------------------------------------------------------

  /** The last batch queued for a file: the tail of its chain. */
  function TailOf(tasks: seq<Task>, node: NodeKey): Option<nat>
    decreases |tasks|
  {
    if tasks == [] then None
    else if tasks[|tasks| - 1].node == node then Some(|tasks| - 1)
    else TailOf(tasks[..|tasks| - 1], node)
  }

  function SetTask(s: State, i: nat, t: Task): State
    requires i < |s.tasks|
  {
    s.(tasks := s.tasks[i := t])
  }

  /** An unstable write: it waits for a free slot first, then is registered and answered. */
  predicate Enqueue(s: State, s': State, node: NodeKey, off: nat, data: seq<byte>) {
    && s.free > 0 && data != []
    && s' == s.(free := s.free - 1,
                tasks := s.tasks + [Task(node, off, data, TailOf(s.tasks, node), Queued, AllChunks(|data|), true)])
  }

  /** The batch before it in the chain, if any, has landed. */
  predicate MayStart(s: State, i: nat)
    requires i < |s.tasks|
  {
    var prev := s.tasks[i].prev;
    prev.Some? ==> prev.value < |s.tasks| && Rank(s.tasks[prev.value].phase) >= Rank(Landed)
  }

  predicate Start(s: State, s': State, i: nat) {
    && i < |s.tasks| && s.tasks[i].phase == Queued && MayStart(s, i)
    && s' == SetTask(s, i, s.tasks[i].(phase := Writing))
  }

  function ChunkWritten(s: State, t: Task, j: nat): State
    requires j in t.left && t.left <= AllChunks(|t.data|)
  {
    ChunkFits(|t.data|, j);
    var piece := t.data[ChunkStart(j)..ChunkEnd(|t.data|, j)];
    s.(files := s.files[t.node := WriteAt(FileOf(s, t.node), t.off + ChunkStart(j), piece)])
  }

  /** A chunk is answered.  A failed one may have been written or not. */
  predicate Answer(s: State, s': State, i: nat, j: nat, ok: bool) {
    && i < |s.tasks| && s.tasks[i].phase == Writing
    && j in s.tasks[i].left && s.tasks[i].left <= AllChunks(|s.tasks[i].data|)
    && var t := s.tasks[i];
       var t' := t.(left := t.left - {j}, ok := t.ok && ok);
       || s' == SetTask(ChunkWritten(s, t, j), i, t')
       || (!ok && s' == SetTask(s, i, t'))
  }

  /** All chunks answered: the next batch of the file may start. */
  predicate Land(s: State, s': State, i: nat) {
    && i < |s.tasks| && s.tasks[i].phase == Writing && s.tasks[i].left == {}
    && s' == SetTask(s, i, s.tasks[i].(phase := Landed))
  }

  /** A failure is noted for the next drain, unless one already is. */
  predicate Record(s: State, s': State, i: nat) {
    && i < |s.tasks| && s.tasks[i].phase == Landed
    && var t := s.tasks[i];
       s' == SetTask(s, i, t.(phase := Recorded)).(errors := if t.ok then s.errors else s.errors + {t.node})
  }

  predicate Unregister(s: State, s': State, i: nat) {
    && i < |s.tasks| && s.tasks[i].phase == Recorded
    && s' == SetTask(s, i, s.tasks[i].(phase := Unregistered))
  }

  predicate Uncount(s: State, s': State, i: nat) {
    && i < |s.tasks| && s.tasks[i].phase == Unregistered
    && s' == SetTask(s, i, s.tasks[i].(phase := Uncounted))
  }

  /** The batch is done with and gives its slot back. */
  predicate End(s: State, s': State, i: nat) {
    && i < |s.tasks| && s.tasks[i].phase == Uncounted
    && s' == SetTask(s, i, s.tasks[i].(phase := Ended)).(free := s.free + 1)
  }

  /** A drain takes the error it reports. */
  predicate TakeError(s: State, s': State, node: NodeKey) {
    s' == s.(errors := s.errors - {node})
  }

  ghost predicate Step(s: State, s': State) {
    || (exists node, off: nat, data :: Enqueue(s, s', node, off, data))
    || (exists i: nat :: Start(s, s', i))
    || (exists i: nat, j: nat, ok :: Answer(s, s', i, j, ok))
    || (exists i: nat :: Land(s, s', i))
    || (exists i: nat :: Record(s, s', i))
    || (exists i: nat :: Unregister(s, s', i))
    || (exists i: nat :: Uncount(s, s', i))
    || (exists i: nat :: End(s, s', i))
    || (exists node :: TakeError(s, s', node))
  }

  ghost predicate Run(ss: seq<State>) {
    && ss != [] && ss[0].tasks == [] && ss[0].free == SLOTS
    && forall i :: 0 <= i < |ss| - 1 ==> Step(ss[i], ss[i + 1])
  }

  // ---- what every step keeps: the chain -------------------------------------------------------------

  lemma {:induction false} TailIs(tasks: seq<Task>, node: NodeKey)
    ensures TailOf(tasks, node).Some? ==>
              var p := TailOf(tasks, node).value;
              p < |tasks| && tasks[p].node == node && forall k :: p < k < |tasks| ==> tasks[k].node != node
    ensures TailOf(tasks, node).None? ==> forall k :: 0 <= k < |tasks| ==> tasks[k].node != node
    decreases |tasks|
  {
    if tasks != [] { TailIs(tasks[..|tasks| - 1], node); }
  }

  /** The chain of a file: its batches in order of arrival. */
  ghost predicate Chained(tasks: seq<Task>, i: nat)
    requires i < |tasks|
  {
    var t := tasks[i];
    && (t.prev.Some? ==>
          t.prev.value < i && tasks[t.prev.value].node == t.node
          && forall k :: t.prev.value < k < i ==> tasks[k].node != t.node)
    && (t.prev.None? ==> forall k :: 0 <= k < i ==> tasks[k].node != t.node)
  }

  ghost predicate Formed(t: Task) {
    && t.data != [] && t.left <= AllChunks(|t.data|)
    && (t.phase == Queued ==> t.left == AllChunks(|t.data|) && t.ok)
    && (Rank(t.phase) >= Rank(Landed) ==> t.left == {})
  }

  /** Only one batch of a file is being written at a time, and all before it have landed. */
  ghost predicate InTurn(tasks: seq<Task>) {
    forall k, i :: 0 <= k < i < |tasks| && tasks[k].node == tasks[i].node && Rank(tasks[i].phase) >= Rank(Writing) ==>
      Rank(tasks[k].phase) >= Rank(Landed)
  }

  ghost predicate ChainOk(tasks: seq<Task>) {
    && (forall i :: 0 <= i < |tasks| ==> Chained(tasks, i) && Formed(tasks[i]))
    && InTurn(tasks)
  }

  /** The same batch, further on. */
  ghost predicate Later(t: Task, t': Task) {
    && t'.node == t.node && t'.off == t.off && t'.data == t.data && t'.prev == t.prev
    && Rank(t.phase) <= Rank(t'.phase)
  }

  /** Moving one batch on, when a start respects its turn, keeps the chain. */
  lemma MoveKeepsChain(tasks: seq<Task>, i: nat, t: Task)
    requires ChainOk(tasks) && i < |tasks| && Later(tasks[i], t) && Formed(t)
    requires Rank(t.phase) >= Rank(Writing) ==> forall k :: 0 <= k < i && tasks[k].node == t.node ==>
               Rank(tasks[k].phase) >= Rank(Landed)
    ensures ChainOk(tasks[i := t])
  {
    var tasks' := tasks[i := t];
    hide Formed;
    forall j | 0 <= j < |tasks'| ensures Chained(tasks', j) {
      assert Chained(tasks, j);
    }
  }

  /** A batch whose predecessor has landed has its turn. */
  lemma TurnCame(s: State, i: nat)
    requires ChainOk(s.tasks) && i < |s.tasks| && MayStart(s, i)
    ensures forall k :: 0 <= k < i && s.tasks[k].node == s.tasks[i].node ==> Rank(s.tasks[k].phase) >= Rank(Landed)
  {
    assert Chained(s.tasks, i);
  }

  lemma EnqueueChain(s: State, s': State, node: NodeKey, off: nat, data: seq<byte>)
    requires ChainOk(s.tasks) && Enqueue(s, s', node, off, data)
    ensures ChainOk(s'.tasks)
  {
    TailIs(s.tasks, node);
    forall j | 0 <= j < |s'.tasks| ensures Chained(s'.tasks, j) && Formed(s'.tasks[j]) {
      if j < |s.tasks| { assert Chained(s.tasks, j); }
    }
  }

  // ---- what every step keeps: the slots ---------------------------------------------------------------

  function Held(tasks: seq<Task>): nat
    decreases |tasks|
  {
    if tasks == [] then 0 else Held(tasks[..|tasks| - 1]) + if tasks[|tasks| - 1].phase == Ended then 0 else 1
  }

  /** Batches counted as in flight. */
  function InFlight(tasks: seq<Task>): nat
    decreases |tasks|
  {
    if tasks == [] then 0
    else InFlight(tasks[..|tasks| - 1]) + if Rank(tasks[|tasks| - 1].phase) < Rank(Uncounted) then 1 else 0
  }

  lemma {:induction false} HeldMoves(tasks: seq<Task>, i: nat, t: Task)
    requires i < |tasks|
    ensures Held(tasks[i := t])
         == Held(tasks) + (if tasks[i].phase == Ended then 1 else 0) - (if t.phase == Ended then 1 else 0)
    decreases |tasks|
  {
    var n := |tasks| - 1;
    if i < n {
      assert tasks[i := t][..n] == tasks[..n][i := t];
      HeldMoves(tasks[..n], i, t);
    } else {
      assert tasks[i := t][..n] == tasks[..n];
    }
  }

  lemma {:induction false} InFlightHeld(tasks: seq<Task>)
    ensures InFlight(tasks) <= Held(tasks)
    decreases |tasks|
  {
    if tasks != [] { InFlightHeld(tasks[..|tasks| - 1]); }
  }

  ghost predicate SlotsOk(s: State) {
    s.free + Held(s.tasks) == SLOTS
  }

  // ---- what every step keeps: the bytes ---------------------------------------------------------------

  /** A file after all its landed batches, in order of arrival. */
  function LandedFile(init: seq<byte>, tasks: seq<Task>, node: NodeKey): seq<byte>
    decreases |tasks|
  {
    if tasks == [] then init
    else
      var t, f := tasks[|tasks| - 1], LandedFile(init, tasks[..|tasks| - 1], node);
      if t.node == node && Rank(t.phase) >= Rank(Landed) then WriteAt(f, t.off, t.data) else f
  }

  /** A file after all its batches, one after another. */
  function InOrder(init: seq<byte>, tasks: seq<Task>, node: NodeKey): seq<byte>
    decreases |tasks|
  {
    if tasks == [] then init
    else
      var t, f := tasks[|tasks| - 1], InOrder(init, tasks[..|tasks| - 1], node);
      if t.node == node then WriteAt(f, t.off, t.data) else f
  }

  lemma {:induction false} AllLanded(init: seq<byte>, tasks: seq<Task>, node: NodeKey)
    requires forall i :: 0 <= i < |tasks| && tasks[i].node == node ==> Rank(tasks[i].phase) >= Rank(Landed)
    ensures LandedFile(init, tasks, node) == InOrder(init, tasks, node)
    decreases |tasks|
  {
    if tasks != [] { AllLanded(init, tasks[..|tasks| - 1], node); }
  }

  predicate InChunk(t: Task, j: nat, i: nat) {
    t.off + ChunkStart(j) <= i < t.off + ChunkEnd(|t.data|, j)
  }

  /** Some of a batch's chunks are in, the others not: in whatever order they came. */
  ghost predicate Partly(f: seq<byte>, t: Task, g: seq<byte>) {
    var written := AllChunks(|t.data|) - t.left;
    && |f| <= |g| <= Max(|f|, t.off + |t.data|)
    && (forall j :: j in written ==> t.off + ChunkEnd(|t.data|, j) <= |g|)
    && (forall i: nat, j :: j in written && InChunk(t, j, i) && i - t.off < |t.data| ==>
          ByteAt(g, i) == t.data[i - t.off])
    && (forall i: nat :: (forall j :: j in written ==> !InChunk(t, j, i)) ==> ByteAt(g, i) == ByteAt(f, i))
  }

  lemma NothingYet(f: seq<byte>, t: Task)
    requires t.left == AllChunks(|t.data|)
    ensures Partly(f, t, f)
  {}

  /** Once all are in, the batch is. */
  lemma AllIn(f: seq<byte>, t: Task, g: seq<byte>)
    requires t.data != [] && t.left == {} && Partly(f, t, g)
    ensures g == WriteAt(f, t.off, t.data)
  {
    var h := WriteAt(f, t.off, t.data);
    WriteAtIs(f, t.off, t.data);
    var last := ChunkOf(|t.data|, |t.data| - 1);
    assert IsChunk(|t.data|, last) && last in AllChunks(|t.data|);
    forall i: nat | i < |g| ensures ByteAt(g, i) == ByteAt(h, i) {
      if t.off <= i < t.off + |t.data| {
        var j := ChunkOf(|t.data|, i - t.off);
        assert IsChunk(|t.data|, j) && j in AllChunks(|t.data|) && InChunk(t, j, i);
      } else {
        forall j | j in AllChunks(|t.data|) ensures !InChunk(t, j, i) { ChunkFits(|t.data|, j); }
      }
    }
    SameFile(g, h);
  }

  /** One chunk laid over a file. */
  lemma ChunkLaid(t: Task, g: seq<byte>, j: nat)
    requires ChunkStart(j) < ChunkEnd(|t.data|, j) <= |t.data|
    ensures var g' := WriteAt(g, t.off + ChunkStart(j), t.data[ChunkStart(j)..ChunkEnd(|t.data|, j)]);
            && |g'| == Max(|g|, t.off + ChunkEnd(|t.data|, j))
            && forall i: nat :: ByteAt(g', i) == if InChunk(t, j, i) then t.data[i - t.off] else ByteAt(g, i)
  {
    hide ChunkStart, ChunkEnd, WriteAt, ByteAt;
    WriteAtIs(g, t.off + ChunkStart(j), t.data[ChunkStart(j)..ChunkEnd(|t.data|, j)]);
  }

  lemma OneMoreIn(f: seq<byte>, t: Task, g: seq<byte>, j: nat)
    requires j in t.left && t.left <= AllChunks(|t.data|) && Partly(f, t, g)
    requires ChunkStart(j) < ChunkEnd(|t.data|, j) <= |t.data|
    ensures Partly(f, t.(left := t.left - {j}),
                   WriteAt(g, t.off + ChunkStart(j), t.data[ChunkStart(j)..ChunkEnd(|t.data|, j)]))
  {
    var piece := t.data[ChunkStart(j)..ChunkEnd(|t.data|, j)];
    var t', g' := t.(left := t.left - {j}), WriteAt(g, t.off + ChunkStart(j), piece);
    ChunkLaid(t, g, j);
    hide WriteAt, ByteAt, AllChunks, ChunkStart, ChunkEnd;
    var before, after := AllChunks(|t.data|) - t.left, AllChunks(|t.data|) - t'.left;
    assert after == before + {j};
    forall i: nat, k | k in after && InChunk(t', k, i) && i - t.off < |t.data|
      ensures ByteAt(g', i) == t.data[i - t.off]
    {
      if !InChunk(t, j, i) { assert k in before && InChunk(t, k, i); }
    }
    forall i: nat | forall k :: k in after ==> !InChunk(t', k, i) ensures ByteAt(g', i) == ByteAt(f, i) {
      assert !InChunk(t', j, i);
      forall k | k in before ensures !InChunk(t, k, i) { assert k in after && !InChunk(t', k, i); }
    }
  }

  /** Landing adds the batch on top, because nothing of the file behind it has landed. */
  lemma {:induction false} LandingAdds(init: seq<byte>, tasks: seq<Task>, i: nat, t: Task)
    requires i < |tasks| && t.node == tasks[i].node && t.off == tasks[i].off && t.data == tasks[i].data
    requires Rank(tasks[i].phase) < Rank(Landed) <= Rank(t.phase)
    requires forall k :: i < k < |tasks| && tasks[k].node == t.node ==> Rank(tasks[k].phase) < Rank(Landed)
    ensures LandedFile(init, tasks[i := t], t.node) == WriteAt(LandedFile(init, tasks, t.node), t.off, t.data)
    decreases |tasks|
  {
    var n := |tasks| - 1;
    if i < n {
      assert tasks[i := t][..n] == tasks[..n][i := t];
      LandingAdds(init, tasks[..n], i, t);
    } else {
      assert tasks[i := t][..n] == tasks[..n];
    }
  }

  /** A move that lands nothing of a file, or a move in another file, leaves its landed bytes alone. */
  lemma {:induction false} MoveKeepsLanded(init: seq<byte>, tasks: seq<Task>, i: nat, t: Task, node: NodeKey)
    requires i < |tasks| && t.node == tasks[i].node && t.off == tasks[i].off && t.data == tasks[i].data
    requires node != t.node || (Rank(tasks[i].phase) < Rank(Landed) <==> Rank(t.phase) < Rank(Landed))
    ensures LandedFile(init, tasks[i := t], node) == LandedFile(init, tasks, node)
    decreases |tasks|
  {
    var n := |tasks| - 1;
    if i < n {
      assert tasks[i := t][..n] == tasks[..n][i := t];
      MoveKeepsLanded(init, tasks[..n], i, t, node);
    } else {
      assert tasks[i := t][..n] == tasks[..n];
    }
  }

  ghost predicate Clean(tasks: seq<Task>, node: NodeKey) {
    forall i :: 0 <= i < |tasks| && tasks[i].node == node ==> tasks[i].ok
  }

  predicate IsWriting(tasks: seq<Task>, i: nat, node: NodeKey) {
    i < |tasks| && tasks[i].node == node && tasks[i].phase == Writing
  }

  /** As long as nothing has failed, a file is its landed batches with the one being written partly in. */
  ghost predicate FileOk(init: seq<byte>, s: State, node: NodeKey) {
    var f := LandedFile(init, s.tasks, node);
    Clean(s.tasks, node) ==>
      && (forall i: nat :: IsWriting(s.tasks, i, node) ==> Partly(f, s.tasks[i], FileOf(s, node)))
      && ((forall i: nat :: !IsWriting(s.tasks, i, node)) ==> FileOf(s, node) == f)
  }

  lemma OneWriter(tasks: seq<Task>, i: nat, k: nat, node: NodeKey)
    requires InTurn(tasks) && IsWriting(tasks, i, node) && IsWriting(tasks, k, node)
    ensures i == k
  {}

  lemma EnqueueFile(init: seq<byte>, s: State, s': State, node: NodeKey, off: nat, data: seq<byte>, n: NodeKey)
    requires FileOk(init, s, n) && Enqueue(s, s', node, off, data)
    ensures FileOk(init, s', n)
  {
    hide Partly, AllChunks, TailOf;
    assert s'.tasks[..|s.tasks|] == s.tasks;
    assert forall i: nat :: IsWriting(s'.tasks, i, n) <==> IsWriting(s.tasks, i, n);
    if Clean(s'.tasks, n) {
      forall i | 0 <= i < |s.tasks| && s.tasks[i].node == n ensures s.tasks[i].ok { assert s'.tasks[i] == s.tasks[i]; }
      assert Clean(s.tasks, n);
    }
  }

  /** Moving a batch of another file, or one already landed, changes nothing here. */
  lemma AsideFile(init: seq<byte>, s: State, s': State, i: nat, t: Task, n: NodeKey)
    requires FileOk(init, s, n) && i < |s.tasks| && s'.tasks == s.tasks[i := t] && FileOf(s', n) == FileOf(s, n)
    requires t.node == s.tasks[i].node && t.off == s.tasks[i].off && t.data == s.tasks[i].data
    requires || t.node != n
             || (Rank(s.tasks[i].phase) >= Rank(Landed) && Rank(t.phase) >= Rank(Landed) && t.ok == s.tasks[i].ok)
    ensures FileOk(init, s', n)
  {
    hide Partly;
    MoveKeepsLanded(init, s.tasks, i, t, n);
    hide LandedFile;
    assert forall k: nat :: IsWriting(s'.tasks, k, n) <==> IsWriting(s.tasks, k, n);
    if Clean(s'.tasks, n) {
      forall k | 0 <= k < |s.tasks| && s.tasks[k].node == n ensures s.tasks[k].ok { assert s'.tasks[k].ok; }
      assert Clean(s.tasks, n);
    }
  }

  lemma StartFile(init: seq<byte>, s: State, s': State, i: nat, n: NodeKey)
    requires ChainOk(s.tasks) && FileOk(init, s, n) && Start(s, s', i)
    ensures FileOk(init, s', n)
  {
    var t := s.tasks[i];
    if t.node != n {
      AsideFile(init, s, s', i, s'.tasks[i], n);
    } else if Clean(s'.tasks, n) {
      TurnCame(s, i);
      assert Formed(t);
      forall k: nat ensures !IsWriting(s.tasks, k, n) {}
      forall k | 0 <= k < |s.tasks| && s.tasks[k].node == n ensures s.tasks[k].ok { assert s'.tasks[k].ok; }
      MoveKeepsLanded(init, s.tasks, i, s'.tasks[i], n);
      NothingYet(FileOf(s, n), s'.tasks[i]);
      hide Partly, LandedFile, Formed, Chained;
      assert forall k: nat :: IsWriting(s'.tasks, k, n) ==> k == i;
      assert IsWriting(s'.tasks, i, n);
    }
  }

  lemma AnswerFile(init: seq<byte>, s: State, s': State, i: nat, j: nat, ok: bool, n: NodeKey)
    requires ChainOk(s.tasks) && FileOk(init, s, n) && Answer(s, s', i, j, ok)
    ensures FileOk(init, s', n)
  {
    if s.tasks[i].node != n {
      AsideFile(init, s, s', i, s'.tasks[i], n);
    } else if Clean(s'.tasks, n) {
      AnswerHere(init, s, s', i, j, ok);
    }
  }

  lemma StillClean(tasks: seq<Task>, i: nat, t: Task, node: NodeKey)
    requires i < |tasks| && tasks[i].node == t.node && (t.ok ==> tasks[i].ok) && Clean(tasks[i := t], node)
    ensures Clean(tasks, node)
  {
    forall k | 0 <= k < |tasks| && tasks[k].node == node ensures tasks[k].ok { assert tasks[i := t][k].ok; }
  }

  lemma AnswerHere(init: seq<byte>, s: State, s': State, i: nat, j: nat, ok: bool)
    requires InTurn(s.tasks) && i < |s.tasks| && FileOk(init, s, s.tasks[i].node) && Answer(s, s', i, j, ok)
    requires Clean(s'.tasks, s.tasks[i].node)
    ensures FileOk(init, s', s.tasks[i].node)
  {
    hide Partly, LandedFile, WriteAt, AllChunks, InTurn, Clean;
    var t, t', n := s.tasks[i], s'.tasks[i], s.tasks[i].node;
    assert s'.tasks == s.tasks[i := t'];
    assert t'.ok by { CleanAt(s'.tasks, i); }
    StillClean(s.tasks, i, t', n);
    MoveKeepsLanded(init, s.tasks, i, t', n);
    assert IsWriting(s.tasks, i, n);
    ChunkIn(|t.data|, j);
    ChunkFits(|t.data|, j);
    PartlyMoves(LandedFile(init, s.tasks, n), t, t', FileOf(s, n), j);
    forall k: nat | IsWriting(s'.tasks, k, n) ensures k == i {
      assert IsWriting(s.tasks, k, n);
      OneWriter(s.tasks, i, k, n);
    }
    assert IsWriting(s'.tasks, i, n);
  }

  lemma CleanAt(tasks: seq<Task>, i: nat)
    requires i < |tasks| && Clean(tasks, tasks[i].node)
    ensures tasks[i].ok
  {}

  lemma PartlyMoves(f: seq<byte>, t: Task, t': Task, g: seq<byte>, j: nat)
    requires j in t.left && t.left <= AllChunks(|t.data|) && Partly(f, t, g)
    requires ChunkStart(j) < ChunkEnd(|t.data|, j) <= |t.data|
    requires t'.left == t.left - {j} && t'.off == t.off && t'.data == t.data
    ensures Partly(f, t', WriteAt(g, t.off + ChunkStart(j), t.data[ChunkStart(j)..ChunkEnd(|t.data|, j)]))
  {
    hide WriteAt, ByteAt;
    OneMoreIn(f, t, g, j);
    var u := t.(left := t.left - {j});
    var g' := WriteAt(g, t.off + ChunkStart(j), t.data[ChunkStart(j)..ChunkEnd(|t.data|, j)]);
    forall i: nat, k ensures InChunk(t', k, i) == InChunk(u, k, i) {}
  }

  lemma LandFile(init: seq<byte>, s: State, s': State, i: nat, n: NodeKey)
    requires ChainOk(s.tasks) && FileOk(init, s, n) && Land(s, s', i)
    ensures FileOk(init, s', n)
  {
    var t := s.tasks[i];
    if t.node != n {
      AsideFile(init, s, s', i, s'.tasks[i], n);
    } else if Clean(s'.tasks, n) {
      assert Formed(t);
      forall k | 0 <= k < |s.tasks| && s.tasks[k].node == n ensures s.tasks[k].ok { assert s'.tasks[k].ok; }
      assert IsWriting(s.tasks, i, n);
      AllIn(LandedFile(init, s.tasks, n), t, FileOf(s, n));
      LandingAdds(init, s.tasks, i, s'.tasks[i]);
      hide Partly, LandedFile, WriteAt, Formed, Chained;
      forall k: nat ensures !IsWriting(s'.tasks, k, n) {
        if IsWriting(s'.tasks, k, n) { OneWriter(s.tasks, i, k, n); }
      }
    }
  }

  // ---- all together ----------------------------------------------------------------------------------

  ghost predicate Inv(s: State) {
    ChainOk(s.tasks) && SlotsOk(s)
  }

  ghost predicate Advances(s: State, s': State) {
    |s.tasks| <= |s'.tasks| && forall i :: 0 <= i < |s.tasks| ==> Later(s.tasks[i], s'.tasks[i])
  }

  /** Moving batch `i` on to `t`, with slots to match. */
  lemma MoveInv(s: State, i: nat, t: Task, s': State)
    requires Inv(s) && i < |s.tasks| && s'.tasks == s.tasks[i := t] && Later(s.tasks[i], t) && Formed(t)
    requires s.tasks[i].phase == Queued ==> MayStart(s, i)
    requires s'.free - s.free == (if t.phase == Ended then 1 else 0) - (if s.tasks[i].phase == Ended then 1 else 0)
    ensures Inv(s') && Advances(s, s')
  {
    if s.tasks[i].phase == Queued { TurnCame(s, i); }
    MoveKeepsChain(s.tasks, i, t);
    HeldMoves(s.tasks, i, t);
    hide ChainOk, Held;
  }

  lemma WellFormedAt(s: State, i: nat)
    requires Inv(s) && i < |s.tasks|
    ensures Formed(s.tasks[i])
  {}

  lemma EnqueueKeeps(s: State, s': State, node: NodeKey, off: nat, data: seq<byte>)
    requires Inv(s) && Enqueue(s, s', node, off, data)
    ensures Inv(s') && Advances(s, s')
  {
    EnqueueChain(s, s', node, off, data);
    assert s'.tasks[..|s.tasks|] == s.tasks;
    hide ChainOk;
  }

  lemma StartKeeps(s: State, s': State, i: nat)
    requires Inv(s) && Start(s, s', i)
    ensures Inv(s') && Advances(s, s')
  {
    hide Inv, MayStart, AllChunks, Advances;
    WellFormedAt(s, i);
    MoveInv(s, i, s'.tasks[i], s');
  }

  lemma AnswerKeeps(s: State, s': State, i: nat, j: nat, ok: bool)
    requires Inv(s) && Answer(s, s', i, j, ok)
    ensures Inv(s') && Advances(s, s')
  {
    hide Inv, MayStart, AllChunks, Advances;
    WellFormedAt(s, i);
    MoveInv(s, i, s'.tasks[i], s');
  }

  lemma FinishKeeps(s: State, s': State, i: nat)
    requires Inv(s)
    requires Land(s, s', i) || Record(s, s', i) || Unregister(s, s', i) || Uncount(s, s', i) || End(s, s', i)
    ensures Inv(s') && Advances(s, s')
  {
    hide Inv, MayStart, AllChunks, Advances;
    WellFormedAt(s, i);
    MoveInv(s, i, s'.tasks[i], s');
  }

  lemma TakeKeeps(s: State, s': State, node: NodeKey)
    requires Inv(s) && TakeError(s, s', node)
    ensures Inv(s') && Advances(s, s')
  {
    hide ChainOk, Held;
  }

  /** One step: everything kept, and every batch only moves on. */
  lemma StepKeeps(s: State, s': State)
    requires Inv(s) && Step(s, s')
    ensures Inv(s') && Advances(s, s')
  {
    hide Inv, Advances, Enqueue, Start, Answer, Land, Record, Unregister, Uncount, End, TakeError;
    if node, off: nat, data :| Enqueue(s, s', node, off, data) {
      EnqueueKeeps(s, s', node, off, data);
    } else if i: nat :| Start(s, s', i) {
      StartKeeps(s, s', i);
    } else if i: nat, j: nat, ok :| Answer(s, s', i, j, ok) {
      AnswerKeeps(s, s', i, j, ok);
    } else if i: nat :|
        Land(s, s', i) || Record(s, s', i) || Unregister(s, s', i) || Uncount(s, s', i) || End(s, s', i) {
      FinishKeeps(s, s', i);
    } else {
      var node :| TakeError(s, s', node);
      TakeKeeps(s, s', node);
    }
  }

  lemma StepFile(init: seq<byte>, s: State, s': State, n: NodeKey)
    requires Inv(s) && FileOk(init, s, n) && Step(s, s')
    ensures FileOk(init, s', n)
  {
    hide FileOk, Start, Answer, Land, ChainOk, SlotsOk;
    if node, off: nat, data :| Enqueue(s, s', node, off, data) {
      EnqueueFile(init, s, s', node, off, data, n);
    } else if i: nat :| Start(s, s', i) {
      StartFile(init, s, s', i, n);
    } else if i: nat, j: nat, ok :| Answer(s, s', i, j, ok) {
      AnswerFile(init, s, s', i, j, ok, n);
    } else if i: nat :| Land(s, s', i) {
      LandFile(init, s, s', i, n);
    } else if i: nat :| Record(s, s', i) {
      AsideFile(init, s, s', i, s'.tasks[i], n);
    } else if i: nat :| Unregister(s, s', i) {
      AsideFile(init, s, s', i, s'.tasks[i], n);
    } else if i: nat :| Uncount(s, s', i) {
      AsideFile(init, s, s', i, s'.tasks[i], n);
    } else if i: nat :| End(s, s', i) {
      AsideFile(init, s, s', i, s'.tasks[i], n);
    } else {
      var node :| TakeError(s, s', node);
      SameTasksFile(init, s, s', n);
    }
  }

  lemma SameTasksFile(init: seq<byte>, s: State, s': State, n: NodeKey)
    requires FileOk(init, s, n) && s'.tasks == s.tasks && s'.files == s.files
    ensures FileOk(init, s', n)
  {}

  lemma {:induction false} RunKeeps(ss: seq<State>, m: nat)
    requires Run(ss) && m < |ss|
    ensures Inv(ss[m])
  {
    hide Step, Inv;
    if m == 0 {
      assert Inv(ss[0]) by { FirstInv(ss[0]); }
    } else {
      RunKeeps(ss, m - 1);
      assert Step(ss[m - 1], ss[m - 1 + 1]);
      StepKeeps(ss[m - 1], ss[m]);
    }
  }

  lemma FirstInv(s: State)
    requires s.tasks == [] && s.free == SLOTS
    ensures Inv(s)
  {}

  lemma {:induction false} RunFile(ss: seq<State>, m: nat, n: NodeKey)
    requires Run(ss) && m < |ss|
    ensures FileOk(FileOf(ss[0], n), ss[m], n)
  {
    hide Step, Inv, FileOk;
    if m == 0 {
      FirstFile(ss[0], n);
    } else {
      RunFile(ss, m - 1, n);
      RunKeeps(ss, m - 1);
      assert Step(ss[m - 1], ss[m - 1 + 1]);
      StepFile(FileOf(ss[0], n), ss[m - 1], ss[m], n);
    }
  }

  lemma FirstFile(s: State, n: NodeKey)
    requires s.tasks == []
    ensures FileOk(FileOf(s, n), s, n)
  {}

  // ---- over a run --------------------------------------------------------------------------------------

  /** Once every batch of a file has landed without a failure, the file holds them one after another in
      order of arrival, whatever order the batches and their chunks ran in. */
  lemma BatchesLandInOrder(ss: seq<State>, m: nat, n: NodeKey)
    requires Run(ss) && m < |ss|
    requires forall i :: 0 <= i < |ss[m].tasks| && ss[m].tasks[i].node == n ==>
               Rank(ss[m].tasks[i].phase) >= Rank(Landed) && ss[m].tasks[i].ok
    ensures FileOf(ss[m], n) == InOrder(FileOf(ss[0], n), ss[m].tasks, n)
  {
    RunFile(ss, m, n);
    hide Step, Partly, LandedFile, InOrder;
    AllLanded(FileOf(ss[0], n), ss[m].tasks, n);
    assert Clean(ss[m].tasks, n);
    assert forall i: nat :: !IsWriting(ss[m].tasks, i, n);
  }

  lemma {:induction false} OnlyMoveOn(ss: seq<State>, a: nat, b: nat)
    requires Run(ss) && a <= b < |ss|
    ensures Advances(ss[a], ss[b])
    decreases b
  {
    hide Step, Inv;
    if a < b {
      OnlyMoveOn(ss, a, b - 1);
      RunKeeps(ss, b - 1);
      assert Step(ss[b - 1], ss[b - 1 + 1]);
      StepKeeps(ss[b - 1], ss[b]);
    }
  }

  /** Never more than 96 batches in flight. */
  lemma SlotsBound(ss: seq<State>, m: nat)
    requires Run(ss) && m < |ss|
    ensures InFlight(ss[m].tasks) <= 96
  {
    RunKeeps(ss, m);
    InFlightHeld(ss[m].tasks);
  }

  /** A write is taken exactly if it writes something and fewer than 96 batches have not ended. */
  lemma TakenIff(ss: seq<State>, m: nat, node: NodeKey, off: nat, data: seq<byte>)
    requires Run(ss) && m < |ss|
    ensures (exists s' :: Enqueue(ss[m], s', node, off, data)) <==> data != [] && Held(ss[m].tasks) < 96
  {
    RunKeeps(ss, m);
    var s := ss[m];
    if data != [] && s.free > 0 {
      var t := Task(node, off, data, TailOf(s.tasks, node), Queued, AllChunks(|data|), true);
      assert Enqueue(s, s.(free := s.free - 1, tasks := s.tasks + [t]), node, off, data);
    }
  }

  /** The oldest batch of a file that has not landed never waits for the chain; so as long as any batch
      has not ended, some task can move, without a new write and without a free slot. */
  lemma OldestNeverWaits(ss: seq<State>, m: nat, i: nat) returns (s': State)
    requires Run(ss) && m < |ss| && i < |ss[m].tasks| && ss[m].tasks[i].phase != Ended
    requires forall k :: 0 <= k < i && ss[m].tasks[k].node == ss[m].tasks[i].node ==>
               Rank(ss[m].tasks[k].phase) >= Rank(Landed)
    ensures MayStart(ss[m], i)
    ensures Step(ss[m], s') && |s'.tasks| == |ss[m].tasks| && s'.tasks[i] != ss[m].tasks[i]
  {
    var s := ss[m];
    RunKeeps(ss, m);
    var t := s.tasks[i];
    assert Chained(s.tasks, i) && Formed(t);
    match t.phase
    case Queued =>
      s' := SetTask(s, i, t.(phase := Writing));
      assert Start(s, s', i);
    case Writing =>
      if t.left == {} {
        s' := SetTask(s, i, t.(phase := Landed));
        assert Land(s, s', i);
      } else {
        var j :| j in t.left;
        s' := SetTask(s, i, t.(left := t.left - {j}, ok := false));
        assert Answer(s, s', i, j, false);
      }
    case Landed =>
      s' := SetTask(s, i, t.(phase := Recorded)).(errors := if t.ok then s.errors else s.errors + {t.node});
      assert Record(s, s', i);
    case Recorded =>
      s' := SetTask(s, i, t.(phase := Unregistered));
      assert Unregister(s, s', i);
    case Unregistered =>
      s' := SetTask(s, i, t.(phase := Uncounted));
      assert Uncount(s, s', i);
    case Uncounted =>
      s' := SetTask(s, i, t.(phase := Ended)).(free := s.free + 1);
      assert End(s, s', i);
  }
}
