/** Write-behind as a client sees it: what was asked for, what the guest answered, and what a drain reports. */
module WriteCalls {
  import opened Types
  import opened GuestFiles
  import opened WriteBehinds

  /** What can be seen of a step: a write is accepted, the guest answers a chunk of the `i`-th write, or a drain that
      waited takes the error noted for its file.  Everything else happens inside. */
  datatype Label =
    | Asks(node: NodeKey, off: nat, data: seq<byte>)
    | Answers(i: nat, j: nat, ok: bool)
    | Reports(node: NodeKey, failed: bool)
    | Inner

  ghost predicate Inside(s: State, s': State) {
    exists i: nat ::
      || Start(s, s', i) || Land(s, s', i) || Record(s, s', i)
      || Unregister(s, s', i) || Uncount(s, s', i) || End(s, s', i)
  }

  ghost predicate Does(s: State, s': State, l: Label) {
    match l
    case Asks(node, off, data) => Enqueue(s, s', node, off, data)
    case Answers(i, j, ok) => Answer(s, s', i, j, ok)
    case Reports(node, failed) => (failed <==> node in s.errors) && TakeError(s, s', node)
    case Inner => Inside(s, s')
  }

  ghost predicate Called(ss: seq<State>, ls: seq<Label>) {
    && |ss| == |ls| + 1 && ss[0].tasks == [] && ss[0].free == SLOTS && ss[0].errors == {}
    && forall i :: 0 <= i < |ls| ==> Does(ss[i], ss[i + 1], ls[i])
  }

  lemma DoesStep(s: State, s': State, l: Label)
    requires Does(s, s', l)
    ensures Step(s, s')
  {
    hide Enqueue, Start, Answer, Land, Record, Unregister, Uncount, End, TakeError;
    match l
    case Asks(node, off, data) => assert Enqueue(s, s', node, off, data);
    case Answers(i, j, ok) => assert Answer(s, s', i, j, ok);
    case Reports(node, _) => assert TakeError(s, s', node);
    case Inner =>
  }

  lemma CalledRuns(ss: seq<State>, ls: seq<Label>)
    requires Called(ss, ls)
    ensures Run(ss)
  {
    hide Step, Does;
    forall i | 0 <= i < |ss| - 1 ensures Step(ss[i], ss[i + 1]) {
      assert Does(ss[i], ss[i + 1], ls[i]);
      DoesStep(ss[i], ss[i + 1], ls[i]);
    }
  }

  // ---- the writes asked for ------------------------------------------------------------------------------

  /** The writes asked for, in the order of the calls. */
  function Writes(ls: seq<Label>): seq<Label>
    ensures forall i :: 0 <= i < |Writes(ls)| ==> Writes(ls)[i].Asks?
    decreases |ls|
  {
    if ls == [] then []
    else
      var rest := Writes(ls[..|ls| - 1]);
      if ls[|ls| - 1].Asks? then rest + [ls[|ls| - 1]] else rest
  }

  /** A file with the writes laid over it one after another. */
  function Overlaid(init: seq<byte>, ws: seq<Label>, n: NodeKey): seq<byte>
    requires forall i :: 0 <= i < |ws| ==> ws[i].Asks?
    decreases |ws|
  {
    if ws == [] then init
    else
      var w, f := ws[|ws| - 1], Overlaid(init, ws[..|ws| - 1], n);
      if w.node == n then WriteAt(f, w.off, w.data) else f
  }

  /** Every write asked for has its batch, and nothing else has. */
  ghost predicate Match(tasks: seq<Task>, ws: seq<Label>)
    requires forall i :: 0 <= i < |ws| ==> ws[i].Asks?
  {
    && |tasks| == |ws|
    && forall i :: 0 <= i < |tasks| ==>
         tasks[i].node == ws[i].node && tasks[i].off == ws[i].off && tasks[i].data == ws[i].data
  }

  /** A step inside moves one batch on to its next phase. */
  lemma InsideIs(s: State, s': State) returns (i: nat, p: Phase)
    requires Inside(s, s')
    ensures i < |s.tasks| && s'.tasks == s.tasks[i := s.tasks[i].(phase := p)] && s'.files == s.files
    ensures Rank(p) == Rank(s.tasks[i].phase) + 1
    ensures s'.errors == s.errors || (s.tasks[i].phase == Landed && !s.tasks[i].ok)
    ensures s.tasks[i].phase == Landed && !s.tasks[i].ok ==> s'.errors == s.errors + {s.tasks[i].node}
  {
    hide MayStart;
    var k: nat :| Start(s, s', k) || Land(s, s', k) || Record(s, s', k) || Unregister(s, s', k) || Uncount(s, s', k)
                  || End(s, s', k);
    i, p := k, s'.tasks[k].phase;
  }

  lemma AnswerIs(s: State, s': State, i: nat, j: nat, ok: bool)
    requires Answer(s, s', i, j, ok)
    ensures i < |s.tasks| && s'.errors == s.errors && j in s.tasks[i].left && s.tasks[i].phase == Writing
    ensures s'.tasks == s.tasks[i := s.tasks[i].(left := s.tasks[i].left - {j}, ok := s.tasks[i].ok && ok)]
  {
    hide AllChunks, WriteAt;
  }

  lemma DoesMatch(s: State, s': State, l: Label, ws: seq<Label>)
    requires Does(s, s', l) && (forall i :: 0 <= i < |ws| ==> ws[i].Asks?) && Match(s.tasks, ws)
    ensures Match(s'.tasks, if l.Asks? then ws + [l] else ws)
  {
    hide Answer, Inside, AllChunks, TailOf;
    match l
    case Asks(_, _, _) =>
    case Answers(i, j, ok) => AnswerIs(s, s', i, j, ok);
    case Reports(_, _) =>
    case Inner => var i, p := InsideIs(s, s');
  }

  lemma {:induction false} BatchesMatch(ss: seq<State>, ls: seq<Label>, m: nat)
    requires Called(ss, ls) && m < |ss|
    ensures Match(ss[m].tasks, Writes(ls[..m]))
  {
    hide Does, Match;
    if m == 0 {
      assert Match([], []) by { NoneMatch(); }
    } else {
      BatchesMatch(ss, ls, m - 1);
      assert Does(ss[m - 1], ss[m - 1 + 1], ls[m - 1]);
      assert ls[..m][..m - 1] == ls[..m - 1];
      DoesMatch(ss[m - 1], ss[m], ls[m - 1], Writes(ls[..m - 1]));
    }
  }

  lemma NoneMatch()
    ensures Match([], [])
  {}

  lemma {:induction false} InOrderIs(init: seq<byte>, tasks: seq<Task>, ws: seq<Label>, n: NodeKey)
    requires (forall i :: 0 <= i < |ws| ==> ws[i].Asks?) && Match(tasks, ws)
    ensures InOrder(init, tasks, n) == Overlaid(init, ws, n)
    decreases |ws|
  {
    if ws != [] { InOrderIs(init, tasks[..|tasks| - 1], ws[..|ws| - 1], n); }
  }

  // ---- what the guest answered ----------------------------------------------------------------------------

  /** The `i`-th write's chunk `j` was answered this way before moment `m`. */
  ghost predicate Answered(ls: seq<Label>, m: nat, i: nat, j: nat, ok: bool) {
    exists x: nat :: x < m && x < |ls| && ls[x] == Answers(i, j, ok)
  }

  /** No chunk of the `i`-th write was answered badly before `m`. */
  ghost predicate AllWell(ls: seq<Label>, m: nat, i: nat) {
    forall j: nat :: !Answered(ls, m, i, j, false)
  }

  /** A batch is well as long as no answer was bad; a chunk not left over was answered. */
  ghost predicate Heard(ls: seq<Label>, m: nat, i: nat, t: Task) {
    && (t.ok <==> AllWell(ls, m, i))
    && (forall j: nat :: IsChunk(|t.data|, j) && j !in t.left ==>
          Answered(ls, m, i, j, true) || Answered(ls, m, i, j, false))
  }

  ghost predicate HeardAll(ls: seq<Label>, m: nat, tasks: seq<Task>) {
    && (forall i :: 0 <= i < |tasks| ==> Heard(ls, m, i, tasks[i]))
    && (forall i: nat, j: nat, ok :: Answered(ls, m, i, j, ok) ==> i < |tasks|)
  }

  lemma AnsweredMore(ls: seq<Label>, m: nat, i: nat, j: nat, ok: bool)
    requires m < |ls|
    ensures Answered(ls, m + 1, i, j, ok) <==> Answered(ls, m, i, j, ok) || ls[m] == Answers(i, j, ok)
  {
    if Answered(ls, m + 1, i, j, ok) {
      var x: nat :| x < m + 1 && x < |ls| && ls[x] == Answers(i, j, ok);
    }
    if ls[m] == Answers(i, j, ok) { assert Answered(ls, m + 1, i, j, ok); }
  }

  /** An answer is heard by its own write, and by no other. */
  lemma HeardMore(ls: seq<Label>, m: nat, i: nat, t: Task, t': Task)
    requires m < |ls| && Heard(ls, m, i, t) && t'.data == t.data
    requires if ls[m].Answers? && ls[m].i == i
             then t'.left == t.left - {ls[m].j} && t'.ok == (t.ok && ls[m].ok)
             else t'.left == t.left && t'.ok == t.ok
    ensures Heard(ls, m + 1, i, t')
  {
    hide Answered, IsChunk;
    var m' := m + 1;
    forall j: nat, ok ensures Answered(ls, m', i, j, ok) <==> Answered(ls, m, i, j, ok) || ls[m] == Answers(i, j, ok) {
      AnsweredMore(ls, m, i, j, ok);
    }
    if ls[m].Answers? && ls[m].i == i && !ls[m].ok { assert Answered(ls, m', i, ls[m].j, false); }
    assert t'.ok <==> AllWell(ls, m', i);
  }

  /** Nothing was answered for a write that comes only now. */
  lemma HeardNew(ls: seq<Label>, m: nat, i: nat, t: Task)
    requires m < |ls| && !ls[m].Answers? && t.ok && t.left == AllChunks(|t.data|)
    requires forall j: nat, ok :: !Answered(ls, m, i, j, ok)
    ensures Heard(ls, m + 1, i, t)
  {
    hide Answered;
    var m' := m + 1;
    forall j: nat, ok ensures !Answered(ls, m', i, j, ok) { AnsweredMore(ls, m, i, j, ok); }
    assert AllWell(ls, m', i);
    forall j: nat | IsChunk(|t.data|, j) ensures j in t.left { ChunkIn(|t.data|, j); }
  }

  lemma DoesHeard(ss: seq<State>, ls: seq<Label>, m: nat)
    requires Called(ss, ls) && m < |ls| && HeardAll(ls, m, ss[m].tasks)
    ensures HeardAll(ls, m + 1, ss[m + 1].tasks)
  {
    var s, s', l := ss[m], ss[m + 1], ls[m];
    assert Does(ss[m], ss[m + 1], ls[m]);
    hide Answered, AllChunks, Answer, Inside, TailOf, Heard, Called;
    var i0: nat := 0;
    match l {
      case Asks(_, _, _) =>
      case Answers(i, j, ok) => AnswerIs(s, s', i, j, ok);
      case Reports(_, _) =>
      case Inner =>
        var i, p := InsideIs(s, s');
        i0 := i;
    }
    forall i | 0 <= i < |s'.tasks| ensures Heard(ls, m + 1, i, s'.tasks[i]) {
      if i < |s.tasks| { HeardMore(ls, m, i, s.tasks[i], s'.tasks[i]); } else { HeardNew(ls, m, i, s'.tasks[i]); }
    }
    var m' := m + 1;
    forall i: nat, j: nat, ok | Answered(ls, m', i, j, ok) ensures i < |s'.tasks| { AnsweredMore(ls, m, i, j, ok); }
  }

  lemma {:induction false} RunHeard(ss: seq<State>, ls: seq<Label>, m: nat)
    requires Called(ss, ls) && m < |ss|
    ensures HeardAll(ls, m, ss[m].tasks)
  {
    if m > 0 {
      hide Does, HeardAll;
      RunHeard(ss, ls, m - 1);
      DoesHeard(ss, ls, m - 1);
    }
  }

  // ---- the promises ----------------------------------------------------------------------------------------

  /** The `i`-th write is over with: its batch has landed, which means every chunk of it was answered. */
  predicate Over(s: State, i: nat) {
    i < |s.tasks| && Rank(s.tasks[i].phase) >= Rank(Landed)
  }

  lemma OverIsAnswered(ss: seq<State>, ls: seq<Label>, m: nat, i: nat, j: nat)
    requires Called(ss, ls) && m < |ss| && Over(ss[m], i) && i < |Writes(ls[..m])|
    requires IsChunk(|Writes(ls[..m])[i].data|, j)
    ensures Answered(ls, m, i, j, true) || Answered(ls, m, i, j, false)
  {
    BatchesMatch(ss, ls, m);
    RunHeard(ss, ls, m);
    CalledRuns(ss, ls);
    RunKeeps(ss, m);
    WellFormedAt(ss[m], i);
    hide Called, Run, Inv, AllChunks, Answered;
    assert Heard(ls, m, i, ss[m].tasks[i]);
  }

  /** Once every write asked for on a file is over with and none of their chunks was answered badly, the file is as it
      was with the writes laid over it in the order they were asked for, whatever order batches and chunks ran in. */
  lemma WritesLandInOrder(ss: seq<State>, ls: seq<Label>, m: nat, n: NodeKey)
    requires Called(ss, ls) && m < |ss|
    requires forall i :: 0 <= i < |Writes(ls[..m])| && Writes(ls[..m])[i].node == n ==>
               Over(ss[m], i) && AllWell(ls, m, i)
    ensures FileOf(ss[m], n) == Overlaid(FileOf(ss[0], n), Writes(ls[..m]), n)
  {
    CalledRuns(ss, ls);
    BatchesMatch(ss, ls, m);
    RunHeard(ss, ls, m);
    hide Called, Run, Answered, InOrder, Overlaid, AllWell;
    var ws, tasks := Writes(ls[..m]), ss[m].tasks;
    forall i | 0 <= i < |tasks| && tasks[i].node == n ensures Rank(tasks[i].phase) >= Rank(Landed) && tasks[i].ok {
      assert ws[i].node == n && Over(ss[m], i) && AllWell(ls, m, i);
      assert Heard(ls, m, i, tasks[i]);
    }
    BatchesLandInOrder(ss, m, n);
    InOrderIs(FileOf(ss[0], n), tasks, ws, n);
  }

  // ---- drains ----------------------------------------------------------------------------------------------

  /** Nothing of the file is in flight. */
  ghost predicate Idle(s: State, node: NodeKey) {
    forall i :: 0 <= i < |s.tasks| && s.tasks[i].node == node ==> Rank(s.tasks[i].phase) >= Rank(Uncounted)
  }

  /** A registered batch that meets the range [off, end) of a file. */
  predicate Blocks(t: Task, node: NodeKey, off: nat, end: nat) {
    t.node == node && Rank(t.phase) < Rank(Unregistered) && t.off < end && t.off + |t.data| > off
  }

  ghost predicate Clear(s: State, node: NodeKey, off: nat, end: nat) {
    forall i :: 0 <= i < |s.tasks| ==> !Blocks(s.tasks[i], node, off, end)
  }

  /** A drain of a range, begun at moment `a` and over at `b`.  If the file has nothing in flight it returns at once and
      reports nothing.  Otherwise it waits until, at `c`, no registered batch meets the range, and then takes the
      error noted for the file, if there is one. */
  ghost predicate Drains(ss: seq<State>, ls: seq<Label>, a: nat, c: nat, b: nat,
                         node: NodeKey, off: nat, end: nat, failed: bool) {
    && a <= c <= b < |ss|
    && if Idle(ss[a], node) then b == a && !failed
       else Clear(ss[c], node, off, end) && b < |ls| && ls[b] == Reports(node, failed)
  }

  predicate Meets(w: Label, node: NodeKey, off: nat, end: nat) {
    w.Asks? && w.node == node && w.off < end && w.off + |w.data| > off
  }

  /** A drain waits for exactly the writes that meet its range. */
  lemma ClearIff(ss: seq<State>, ls: seq<Label>, c: nat, node: NodeKey, off: nat, end: nat)
    requires Called(ss, ls) && c < |ss|
    ensures |ss[c].tasks| == |Writes(ls[..c])|
    ensures Clear(ss[c], node, off, end) <==>
            forall i :: 0 <= i < |Writes(ls[..c])| && Meets(Writes(ls[..c])[i], node, off, end) ==>
              Rank(ss[c].tasks[i].phase) >= Rank(Unregistered)
  {
    BatchesMatch(ss, ls, c);
    hide Called;
    var ws, tasks := Writes(ls[..c]), ss[c].tasks;
    forall i | 0 <= i < |ws|
      ensures Blocks(tasks[i], node, off, end) <==>
              Meets(ws[i], node, off, end) && Rank(tasks[i].phase) < Rank(Unregistered) {}
  }

  /** Writes asked for later come after those asked for before. */
  lemma {:induction false} WritesGrow(ls: seq<Label>, a: nat, b: nat)
    requires a <= b <= |ls|
    ensures Writes(ls[..a]) <= Writes(ls[..b])
    decreases b
  {
    if a < b {
      WritesGrow(ls, a, b - 1);
      assert ls[..b][..b - 1] == ls[..b - 1];
    }
  }

  /** The barrier: once a drain returns, every write accepted before it began that meets its range has had every
      chunk answered by the guest. */
  lemma DrainIsBarrier(ss: seq<State>, ls: seq<Label>, a: nat, c: nat, b: nat, node: NodeKey, off: nat, end: nat,
                       failed: bool, i: nat, j: nat)
    requires Called(ss, ls) && Drains(ss, ls, a, c, b, node, off, end, failed)
    requires i < |Writes(ls[..a])| && Meets(Writes(ls[..a])[i], node, off, end)
    requires IsChunk(|Writes(ls[..a])[i].data|, j)
    ensures Answered(ls, b, i, j, true) || Answered(ls, b, i, j, false)
  {
    WritesGrow(ls, a, b);
    WritesGrow(ls, a, c);
    DrainIsOver(ss, ls, a, c, b, node, off, end, failed, i);
    OverIsAnswered(ss, ls, b, i, j);
  }

  lemma DrainIsOver(ss: seq<State>, ls: seq<Label>, a: nat, c: nat, b: nat, node: NodeKey, off: nat, end: nat,
                    failed: bool, i: nat)
    requires Called(ss, ls) && Drains(ss, ls, a, c, b, node, off, end, failed)
    requires i < |Writes(ls[..a])| && Meets(Writes(ls[..a])[i], node, off, end)
    ensures i < |ss[b].tasks| && Rank(ss[b].tasks[i].phase) >= Rank(Unregistered)
  {
    CalledLen(ss, ls);
    hide Called, Writes, Meets, Clear, Idle, Does;
    if Idle(ss[a], node) {
      MeetsNode(Writes(ls[..a])[i], node, off, end);
      IdleOver(ss, ls, a, node, i);
    } else {
      WritesGrow(ls, a, c);
      ClearOver(ss, ls, c, b, node, off, end, i);
    }
  }

  lemma IdleOver(ss: seq<State>, ls: seq<Label>, a: nat, node: NodeKey, i: nat)
    requires Called(ss, ls) && a < |ss| && Idle(ss[a], node) && i < |Writes(ls[..a])| && Writes(ls[..a])[i].node == node
    ensures i < |ss[a].tasks| && Rank(ss[a].tasks[i].phase) >= Rank(Unregistered)
  {
    hide Called, Writes;
    BatchesMatch(ss, ls, a);
  }

  lemma ClearOver(ss: seq<State>, ls: seq<Label>, c: nat, b: nat, node: NodeKey, off: nat, end: nat, i: nat)
    requires Called(ss, ls) && c <= b < |ss| && Clear(ss[c], node, off, end)
    requires i < |Writes(ls[..c])| && Meets(Writes(ls[..c])[i], node, off, end)
    ensures i < |ss[b].tasks| && Rank(ss[b].tasks[i].phase) >= Rank(Unregistered)
  {
    hide Called, Writes, Meets, Clear, Run;
    ClearIff(ss, ls, c, node, off, end);
    CalledRuns(ss, ls);
    OnlyMoveOn(ss, c, b);
    assert Later(ss[c].tasks[i], ss[b].tasks[i]);
  }

  lemma MeetsNode(w: Label, node: NodeKey, off: nat, end: nat)
    requires Meets(w, node, off, end)
    ensures w.node == node
  {}

  // ---- what a drain reports ----------------------------------------------------------------------------------

  /** At step `r` the `i`-th write is put down as failed: it is over with, and some chunk was answered badly. */
  ghost predicate FailsAt(ss: seq<State>, ls: seq<Label>, r: nat, node: NodeKey, i: nat) {
    && r + 1 < |ss| && i < |ss[r].tasks| && i < |ss[r + 1].tasks| && ss[r].tasks[i].node == node && !AllWell(ls, r, i)
    && ss[r].tasks[i].phase == Landed && ss[r + 1].tasks[i].phase != Landed
  }

  /** No drain has taken the file's error from step `r` up to moment `m`. */
  ghost predicate Unreported(ls: seq<Label>, r: nat, m: nat, node: NodeKey) {
    forall x :: r <= x < m && x < |ls| ==> !(ls[x].Reports? && ls[x].node == node)
  }

  ghost predicate FailedBefore(ss: seq<State>, ls: seq<Label>, m: nat, node: NodeKey) {
    exists r: nat, i: nat :: r < m && FailsAt(ss, ls, r, node, i) && Unreported(ls, r + 1, m, node)
  }

  /** What one step does to the error of a file. */
  lemma DoesErrors(ss: seq<State>, ls: seq<Label>, m: nat, node: NodeKey)
    requires Called(ss, ls) && m < |ls|
    ensures node in ss[m + 1].errors <==>
            (exists i: nat :: FailsAt(ss, ls, m, node, i))
            || (node in ss[m].errors && !(ls[m].Reports? && ls[m].node == node))
  {
    var s, s', l := ss[m], ss[m + 1], ls[m];
    RunHeard(ss, ls, m);
    assert Does(ss[m], ss[m + 1], ls[m]);
    forall i | 0 <= i < |s.tasks| ensures s.tasks[i].ok <==> AllWell(ls, m, i) { assert Heard(ls, m, i, s.tasks[i]); }
    hide Answer, Inside, TailOf, AllChunks, Heard, HeardAll, AllWell, Called;
    match l
    case Asks(_, _, _) =>
    case Answers(i, j, ok) => AnswerIs(s, s', i, j, ok);
    case Reports(_, _) =>
    case Inner =>
      var i, p := InsideIs(s, s');
      if s.tasks[i].phase == Landed && !s.tasks[i].ok && s.tasks[i].node == node { assert FailsAt(ss, ls, m, node, i); }
  }

  /** An error is noted for a file exactly if a write of it failed and no drain has reported that since. */
  lemma {:induction false} ErrorsAre(ss: seq<State>, ls: seq<Label>, m: nat, node: NodeKey)
    requires Called(ss, ls) && m < |ss|
    ensures node in ss[m].errors <==> FailedBefore(ss, ls, m, node)
  {
    if m > 0 {
      hide Called, FailsAt, Does;
      assert m - 1 < |ls| by { CalledLen(ss, ls); }
      ErrorsAre(ss, ls, m - 1, node);
      DoesErrors(ss, ls, m - 1, node);
      FailedSplit(ss, ls, m - 1, node);
    }
  }

  lemma FailedSplit(ss: seq<State>, ls: seq<Label>, k: nat, node: NodeKey)
    requires k < |ls|
    ensures FailedBefore(ss, ls, k + 1, node) <==>
            (exists i: nat :: FailsAt(ss, ls, k, node, i))
            || (FailedBefore(ss, ls, k, node) && !(ls[k].Reports? && ls[k].node == node))
  {
    hide FailsAt;
    var m := k + 1;
    if FailedBefore(ss, ls, m, node) {
      var r: nat, i: nat :| r < m && FailsAt(ss, ls, r, node, i) && Unreported(ls, r + 1, m, node);
      if r < k {
        assert Unreported(ls, r + 1, k, node);
        assert FailedBefore(ss, ls, k, node);
      }
    }
    if i: nat :| FailsAt(ss, ls, k, node, i) {
      assert Unreported(ls, k + 1, m, node);
      assert FailedBefore(ss, ls, m, node);
    }
    if FailedBefore(ss, ls, k, node) && !(ls[k].Reports? && ls[k].node == node) {
      var r: nat, i: nat :| r < k && FailsAt(ss, ls, r, node, i) && Unreported(ls, r + 1, k, node);
      assert Unreported(ls, r + 1, m, node);
    }
  }

  lemma CalledLen(ss: seq<State>, ls: seq<Label>)
    requires Called(ss, ls)
    ensures |ss| == |ls| + 1
  {}

  /** What a drain reports, exactly: a failure, if and only if something of the file was still in flight when it began,
      and a write of it had failed by the time it returns without being reported since. */
  lemma DrainReportsIff(ss: seq<State>, ls: seq<Label>, a: nat, c: nat, b: nat, node: NodeKey, off: nat, end: nat,
                        failed: bool)
    requires Called(ss, ls) && Drains(ss, ls, a, c, b, node, off, end, failed)
    ensures failed <==> !Idle(ss[a], node) && FailedBefore(ss, ls, b, node)
  {
    ErrorsAre(ss, ls, b, node);
    if !Idle(ss[a], node) { assert Does(ss[b], ss[b + 1], ls[b]); }
    hide FailedBefore, Idle, Clear;
  }

  /** The barrier for failures that COMMIT is said to be does not hold: a write fails, its batch is done with, and a
      drain that begins then reports nothing. */
  lemma FailureUnreported(node: NodeKey, b: byte)
    ensures exists ss: seq<State>, ls: seq<Label> ::
              && Called(ss, ls) && |ss| == 8 && ls[0] == Asks(node, 0, [b]) && Answered(ls, 7, 0, 0, false)
              && FailedBefore(ss, ls, 7, node) && Drains(ss, ls, 7, 7, 7, node, 0, 1, false)
  {
    hide Does, Answered, FailedBefore, Called;
    var ss, ls := [First()], [];
    assert Called(ss, ls) by { NothingCalled(); }
    ss, ls := Next(ss, ls, One(node, b, Queued, {0}, true, {}), Asks(node, 0, [b])) by { AskOne(node, b); }
    ss, ls := Next(ss, ls, One(node, b, Writing, {0}, true, {}), Inner) by {
      MoveOne(node, b, Queued, Writing, {0}, true, {});
    }
    ss, ls := Next(ss, ls, One(node, b, Writing, {}, false, {}), Answers(0, 0, false)) by { FailOne(node, b); }
    ss, ls := Next(ss, ls, One(node, b, Landed, {}, false, {}), Inner) by {
      MoveOne(node, b, Writing, Landed, {}, false, {});
    }
    ss, ls := Next(ss, ls, One(node, b, Recorded, {}, false, {node}), Inner) by {
      assert {} + {node} == {node};
      MoveOne(node, b, Landed, Recorded, {}, false, {});
    }
    ss, ls := Next(ss, ls, One(node, b, Unregistered, {}, false, {node}), Inner) by {
      MoveOne(node, b, Recorded, Unregistered, {}, false, {node});
    }
    ss, ls := Next(ss, ls, One(node, b, Uncounted, {}, false, {node}), Inner) by {
      MoveOne(node, b, Unregistered, Uncounted, {}, false, {node});
    }
    assert Answered(ls, 7, 0, 0, false) by { AnsweredAt(ls, 7, 2); }
    ErrorsAre(ss, ls, 7, node);
    assert Drains(ss, ls, 7, 7, 7, node, 0, 1, false);
  }

  lemma AnsweredAt(ls: seq<Label>, m: nat, x: nat)
    requires x < m && x < |ls| && ls[x].Answers?
    ensures Answered(ls, m, ls[x].i, ls[x].j, ls[x].ok)
  {}

  function First(): State {
    State([], map[], SLOTS, {})
  }

  /** One batch of one byte. */
  function One(node: NodeKey, b: byte, phase: Phase, left: set<nat>, ok: bool, errors: set<NodeKey>): State {
    State([Task(node, 0, [b], None, phase, left, ok)], map[], SLOTS - 1, errors)
  }

  lemma NothingCalled()
    ensures Called([First()], [])
  {}

  lemma Next(ss: seq<State>, ls: seq<Label>, s: State, l: Label) returns (ss': seq<State>, ls': seq<Label>)
    requires ss != [] && Called(ss, ls) && Does(ss[|ss| - 1], s, l)
    ensures ss' == ss + [s] && ls' == ls + [l] && Called(ss', ls')
  {
    hide Does;
    ss', ls' := ss + [s], ls + [l];
  }

  lemma AskOne(node: NodeKey, b: byte)
    ensures Does(First(), One(node, b, Queued, {0}, true, {}), Asks(node, 0, [b]))
  {
    OneChunk();
  }

  lemma FailOne(node: NodeKey, b: byte)
    ensures Does(One(node, b, Writing, {0}, true, {}), One(node, b, Writing, {}, false, {}), Answers(0, 0, false))
  {
    OneChunk();
    assert {0} - {0} == {};
  }

  lemma MoveOne(node: NodeKey, b: byte, p: Phase, p': Phase, left: set<nat>, ok: bool, errors: set<NodeKey>)
    requires Rank(p') == Rank(p) + 1 && p' != Ended && (p == Writing ==> left == {})
    ensures Does(One(node, b, p, left, ok, errors),
                 One(node, b, p', left, ok, if p == Landed && !ok then errors + {node} else errors), Inner)
  {
    var s, s' := One(node, b, p, left, ok, errors),
                 One(node, b, p', left, ok, if p == Landed && !ok then errors + {node} else errors);
    match p
    case Queued => assert Start(s, s', 0);
    case Writing => assert Land(s, s', 0);
    case Landed => assert Record(s, s', 0);
    case Recorded => assert Unregister(s, s', 0);
    case Unregistered => assert Uncount(s, s', 0);
    case Uncounted =>
    case Ended =>
  }

  lemma OneChunk()
    ensures AllChunks(1) == {0}
  {
    forall j: nat ensures j in AllChunks(1) <==> j == 0 { ChunkIn(1, j); }
  }
}
