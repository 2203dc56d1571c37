/** The reply cache of an NFS version 4.1 session (section 2.10.6 of RFC 5661): a request on a slot is
    evaluated once.  A retry gets the result array the first one got, but not always its status. */
module NfsSlots {
  import opened Types

  const FORE_SLOTS := 64
  const MAX_OPS := 64
  const SEQ_MODULUS := 0x1_0000_0000

  const NFS4_OK := 0
  const ERR_BADXDR := 10036
  const ERR_BADSESSION := 10052
  const ERR_BADSLOT := 10053
  const ERR_MINOR_VERS_MISMATCH := 10021
  const ERR_SEQ_MISORDERED := 10063
  const ERR_SEQUENCE_POS := 10064
  const ERR_REQ_TOO_BIG := 10065
  const ERR_RETRY_UNCACHED_REP := 10068
  const OP_SEQUENCE := 53

  /** XDR output is counted in words. */
  type Words = seq<nat>
  type SessionId = nat

  /** A result array: how many results, and their encoding. */
  datatype Results = Results(count: nat, body: Words)

  datatype Slot = Slot(seqid: nat, reply: Option<Results>, hadUncached: bool)

  const FRESH_SLOT := Slot(0, None, false)

  /** An operation as it can be read from the request. */
  datatype Op =
    | Sequence(sid: SessionId, seqid: nat, slot: nat, cachethis: bool)
    | SequenceUnreadable
    | Other(code: nat)
    | Unreadable

  datatype Request = Request(minor: nat, ops: seq<Op>)

  /** What an operation answers if it is evaluated. */
  datatype Answer = Answer(status: nat, words: Words)

  datatype Reply = Reply(status: nat, results: Results)

  /** `evaluated` lists the operations evaluated so far; `log` the compounds run on each slot. */
  datatype Server = Server(
    sessions: map<SessionId, seq<Slot>>,
    evaluated: seq<nat>,
    log: map<(SessionId, nat), seq<Execution>>)

  datatype Execution = Execution(seqid: nat, cached: bool, status: nat, results: Results)

  function Log(s: Server, sid: SessionId, slot: nat): seq<Execution> {
    if (sid, slot) in s.log then s.log[(sid, slot)] else []
  }

  // ---- evaluating operations ----------------------------------------------------------------------

  /** How far a compound got. */
  datatype Outcome = Outcome(status: nat, results: Results, evaluated: seq<nat>)

  /** The operations from number `i` on.  The first that fails is the last; a SEQUENCE here is misplaced. */
  function EvalFrom(ops: seq<Op>, answers: seq<Answer>, i: nat, o: Outcome): Outcome
    requires i <= |ops| <= |answers|
    decreases |ops| - i
  {
    if i == |ops| then o
    else match ops[i]
      case Unreadable => o.(status := ERR_BADXDR)
      case Other(code) =>
        var a := answers[i];
        var o' := Outcome(a.status, Results(o.results.count + 1, o.results.body + a.words), o.evaluated + [code]);
        if a.status != NFS4_OK then o' else EvalFrom(ops, answers, i + 1, o')
      case _ =>
        o.(status := ERR_SEQUENCE_POS,
           results := Results(o.results.count + 1, o.results.body + [OP_SEQUENCE, ERR_SEQUENCE_POS]))
  }

  function NextSeqid(n: nat): nat {
    (n + 1) % SEQ_MODULUS
  }

  function SequenceOk(op: Op): Words
    requires op.Sequence?
  {
    [OP_SEQUENCE, NFS4_OK, op.sid, op.seqid, op.slot, FORE_SLOTS - 1, FORE_SLOTS - 1, 0]
  }

  function Refused(e: nat): Reply {
    Reply(e, Results(1, [OP_SEQUENCE, e]))
  }

  /** The compound after a SEQUENCE that was in order. */
  function Body(req: Request, answers: seq<Answer>): Outcome
    requires req.ops != [] && req.ops[0].Sequence? && |req.ops| <= |answers|
  {
    EvalFrom(req.ops, answers, 1, Outcome(NFS4_OK, Results(1, SequenceOk(req.ops[0])), []))
  }

  function SlotAfter(op: Op, results: Results): Slot
    requires op.Sequence?
  {
    Slot(op.seqid, if op.cachethis then Some(results) else None, !op.cachethis)
  }

  function Ran(s: Server, req: Request, answers: seq<Answer>): Server
    requires req.ops != [] && req.ops[0].Sequence? && |req.ops| <= |answers|
    requires req.ops[0].sid in s.sessions && req.ops[0].slot < |s.sessions[req.ops[0].sid]|
  {
    var op, o := req.ops[0], Body(req, answers);
    Server(s.sessions[op.sid := s.sessions[op.sid][op.slot := SlotAfter(op, o.results)]],
           s.evaluated + o.evaluated,
           s.log[(op.sid, op.slot) :=
             Log(s, op.sid, op.slot) + [Execution(op.seqid, op.cachethis, o.status, o.results)]])
  }

  function Compound(s: Server, req: Request, answers: seq<Answer>): (Server, Reply)
    requires |req.ops| <= |answers| && forall sid :: sid in s.sessions ==> |s.sessions[sid]| == FORE_SLOTS
  {
    if req.minor != 1 then (s, Reply(ERR_MINOR_VERS_MISMATCH, Results(0, [])))
    else if |req.ops| > MAX_OPS then (s, Reply(ERR_REQ_TOO_BIG, Results(0, [])))
    else if req.ops != [] && req.ops[0].SequenceUnreadable? then (s, Refused(ERR_BADXDR))
    else if req.ops != [] && req.ops[0].Sequence? then
      var op := req.ops[0];
      if op.sid !in s.sessions then (s, Refused(ERR_BADSESSION))
      else if op.slot >= FORE_SLOTS then (s, Refused(ERR_BADSLOT))
      else
        var slot := s.sessions[op.sid][op.slot];
        if op.seqid == slot.seqid then
          if slot.reply.Some? then (s, Reply(NFS4_OK, slot.reply.value))
          else if slot.hadUncached then (s, Refused(ERR_RETRY_UNCACHED_REP))
          else (s, Refused(ERR_SEQ_MISORDERED))
        else if op.seqid != NextSeqid(slot.seqid) then (s, Refused(ERR_SEQ_MISORDERED))
        else (Ran(s, req, answers), Reply(Body(req, answers).status, Body(req, answers).results))
    else
      var o := EvalFrom(req.ops, answers, 0, Outcome(NFS4_OK, Results(0, []), []));
      (s.(evaluated := s.evaluated + o.evaluated), Reply(o.status, o.results))
  }

  // ---- what evaluation does ------------------------------------------------------------------------

  /** Operation `i` can be read, is no SEQUENCE, and answers well. */
  predicate Good(ops: seq<Op>, answers: seq<Answer>, i: nat)
    requires i < |ops| <= |answers|
  {
    ops[i].Other? && answers[i].status == NFS4_OK
  }

  /** Of the operations from `from` on, `k` is the first that is not good, or none is left. */
  ghost predicate Stops(ops: seq<Op>, answers: seq<Answer>, from: nat, k: nat)
    requires |ops| <= |answers|
  {
    && from <= k <= |ops|
    && (forall j :: from <= j < k ==> Good(ops, answers, j))
    && (k < |ops| ==> !Good(ops, answers, k))
  }

  /** The words of the answers from `i` up to `k`, in order. */
  function WordsOf(answers: seq<Answer>, i: nat, k: nat): Words
    requires i <= k <= |answers|
    decreases k
  {
    if i == k then [] else WordsOf(answers, i, k - 1) + answers[k - 1].words
  }

  /** The codes of the operations from `i` up to `k`, in order. */
  function CodesOf(ops: seq<Op>, i: nat, k: nat): seq<nat>
    requires i <= k <= |ops| && forall j :: i <= j < k ==> ops[j].Other?
  {
    seq(k - i, x requires 0 <= x < k - i => ops[i + x].code)
  }

  lemma {:induction false} WordsFirst(answers: seq<Answer>, i: nat, k: nat)
    requires i < k <= |answers|
    ensures WordsOf(answers, i, k) == answers[i].words + WordsOf(answers, i + 1, k)
    decreases k
  {
    if i + 1 < k {
      WordsFirst(answers, i, k - 1);
    } else {
      assert WordsOf(answers, i, i) == [] && WordsOf(answers, i + 1, i + 1) == [];
    }
  }

  /** A run of good operations: each evaluated once, in order, and its words added behind the others. */
  lemma {:induction false} EvalGood(ops: seq<Op>, answers: seq<Answer>, i: nat, k: nat, o: Outcome)
    requires i <= k <= |ops| <= |answers| && o.status == NFS4_OK
    requires forall j :: i <= j < k ==> ops[j].Other? && Good(ops, answers, j)
    ensures EvalFrom(ops, answers, i, o)
         == EvalFrom(ops, answers, k,
                     Outcome(NFS4_OK, Results(o.results.count + (k - i), o.results.body + WordsOf(answers, i, k)),
                             o.evaluated + CodesOf(ops, i, k)))
    decreases k - i
  {
    if i == k {
      assert o.evaluated + CodesOf(ops, i, k) == o.evaluated && o.results.body + [] == o.results.body;
    } else {
      assert Good(ops, answers, i);
      var o' := Outcome(NFS4_OK, Results(o.results.count + 1, o.results.body + answers[i].words),
                        o.evaluated + [ops[i].code]);
      EvalGood(ops, answers, i + 1, k, o');
      WordsFirst(answers, i, k);
      assert o'.results.body + WordsOf(answers, i + 1, k) == o.results.body + WordsOf(answers, i, k);
      assert o'.evaluated + CodesOf(ops, i + 1, k) == o.evaluated + CodesOf(ops, i, k);
    }
  }

  /** What operation `k` adds, being the first that is not good: a failure is evaluated and answered like the others, a
      SEQUENCE is refused where it stands, and what cannot be read is not answered at all. */
  lemma EvalIs(ops: seq<Op>, answers: seq<Answer>, from: nat, k: nat, words: Words, count: nat)
    requires from <= |ops| <= |answers| && Stops(ops, answers, from, k)
    ensures forall j :: from <= j < k ==> ops[j].Other?
    ensures var o := EvalFrom(ops, answers, from, Outcome(NFS4_OK, Results(count, words), []));
            if k == |ops| then
              o == Outcome(NFS4_OK, Results(count + k - from, words + WordsOf(answers, from, k)), CodesOf(ops, from, k))
            else match ops[k]
              case Unreadable =>
                o == Outcome(ERR_BADXDR, Results(count + k - from, words + WordsOf(answers, from, k)),
                             CodesOf(ops, from, k))
              case Other(code) =>
                o == Outcome(answers[k].status,
                             Results(count + k + 1 - from, words + WordsOf(answers, from, k + 1)),
                             CodesOf(ops, from, k) + [code])
              case _ =>
                o == Outcome(ERR_SEQUENCE_POS,
                             Results(count + k + 1 - from,
                                     words + WordsOf(answers, from, k) + [OP_SEQUENCE, ERR_SEQUENCE_POS]),
                             CodesOf(ops, from, k))
  {
    var o := Outcome(NFS4_OK, Results(count, words), []);
    forall j | from <= j < k ensures ops[j].Other? { assert Good(ops, answers, j); }
    EvalGood(ops, answers, from, k, o);
    assert [] + CodesOf(ops, from, k) == CodesOf(ops, from, k);
    if k < |ops| && ops[k].Other? {
      assert (words + WordsOf(answers, from, k)) + answers[k].words == words + WordsOf(answers, from, k + 1);
    }
  }

  // ---- what every request keeps --------------------------------------------------------------------

  /** The compounds run on a slot carry consecutive sequence ids from 1 on, and the slot holds the last. */
  ghost predicate SlotOk(slot: Slot, log: seq<Execution>) {
    && (forall i :: 0 <= i < |log| ==> log[i].seqid == (i + 1) % SEQ_MODULUS)
    && (log == [] ==> slot == FRESH_SLOT)
    && (log != [] ==>
          var last := log[|log| - 1];
          slot == Slot(last.seqid, if last.cached then Some(last.results) else None, !last.cached))
  }

  ghost predicate ServerOk(s: Server) {
    && (forall sid :: sid in s.sessions ==> |s.sessions[sid]| == FORE_SLOTS)
    && (forall sid, i :: sid in s.sessions && 0 <= i < FORE_SLOTS ==> SlotOk(s.sessions[sid][i], Log(s, sid, i)))
  }

  lemma SlotRuns(slot: Slot, log: seq<Execution>, op: Op, status: nat, results: Results)
    requires SlotOk(slot, log) && op.Sequence? && op.seqid == NextSeqid(slot.seqid)
    ensures SlotOk(SlotAfter(op, results), log + [Execution(op.seqid, op.cachethis, status, results)])
  {
    var log' := log + [Execution(op.seqid, op.cachethis, status, results)];
    if log != [] { WrapTwice(|log|); }
    forall i | 0 <= i < |log'| ensures log'[i].seqid == (i + 1) % SEQ_MODULUS {}
  }

  lemma WrapTwice(n: nat)
    ensures (n % SEQ_MODULUS + 1) % SEQ_MODULUS == (n + 1) % SEQ_MODULUS
  {}

  lemma CompoundKeeps(s: Server, req: Request, answers: seq<Answer>)
    requires ServerOk(s) && |req.ops| <= |answers|
    ensures ServerOk(Compound(s, req, answers).0)
  {
    hide EvalFrom, SlotOk, SequenceOk;
    var s' := Compound(s, req, answers).0;
    if s'.sessions != s.sessions {
      var op := req.ops[0];
      SlotRuns(s.sessions[op.sid][op.slot], Log(s, op.sid, op.slot), op,
               Body(req, answers).status, Body(req, answers).results);
      hide SlotAfter, Body;
      forall sid, i | sid in s'.sessions && 0 <= i < FORE_SLOTS ensures SlotOk(s'.sessions[sid][i], Log(s', sid, i)) {
        if (sid, i) != (op.sid, op.slot) { assert SlotOk(s.sessions[sid][i], Log(s, sid, i)); }
      }
    }
  }

  /** A request led by a SEQUENCE on a known slot. */
  predicate Leads(s: Server, req: Request) {
    && req.minor == 1 && 0 < |req.ops| <= 64 && req.ops[0].Sequence?
    && req.ops[0].sid in s.sessions && req.ops[0].slot < 64
  }

  /** Exactly once.  With n compounds run on the slot so far, a request is run if and only if it carries
      number n + 1, mod 2^32.  The number of the last one is a retry: nothing is evaluated, nothing changes, and
      the answer is the first answer's result array, or that it was not kept.  Any other number is refused and
      changes nothing. */
  lemma ExactlyOnce(s: Server, req: Request, answers: seq<Answer>)
    requires ServerOk(s) && |req.ops| <= |answers| && Leads(s, req)
    ensures var op := req.ops[0];
            var (s', reply) := Compound(s, req, answers);
            var l := Log(s, op.sid, op.slot);
            if op.seqid == (|l| + 1) % SEQ_MODULUS then
              && Log(s', op.sid, op.slot) == l + [Execution(op.seqid, op.cachethis, reply.status, reply.results)]
              && s'.evaluated == s.evaluated + Body(req, answers).evaluated
              && (forall sid: SessionId, i: nat :: (sid, i) != (op.sid, op.slot) ==> Log(s', sid, i) == Log(s, sid, i))
            else if l != [] && op.seqid == |l| % SEQ_MODULUS then
              && s' == s
              && reply
                 == if l[|l| - 1].cached then Reply(NFS4_OK, l[|l| - 1].results) else Refused(ERR_RETRY_UNCACHED_REP)
            else
              s' == s && reply == Refused(ERR_SEQ_MISORDERED)
  {
    hide EvalFrom, SequenceOk;
    var op := req.ops[0];
    var slot, l := s.sessions[op.sid][op.slot], Log(s, op.sid, op.slot);
    assert SlotOk(slot, l);
    if l != [] {
      WrapTwice(|l|);
      assert l[|l| - 1].seqid == |l| % SEQ_MODULUS;
    }
  }

  /** Every operation after the SEQUENCE can be read and answers well. */
  ghost predicate AllWell(req: Request, answers: seq<Answer>, from: nat)
    requires |req.ops| <= |answers|
  {
    forall i :: from <= i < |req.ops| ==> req.ops[i].Other? && answers[i].status == NFS4_OK
  }

  lemma {:induction false} EvalOkIff(req: Request, answers: seq<Answer>, i: nat, o: Outcome)
    requires i <= |req.ops| <= |answers| && o.status == NFS4_OK
    ensures EvalFrom(req.ops, answers, i, o).status == NFS4_OK <==> AllWell(req, answers, i)
    decreases |req.ops| - i
  {
    if i < |req.ops| && req.ops[i].Other? && answers[i].status == NFS4_OK {
      var a := answers[i];
      EvalOkIff(req, answers, i + 1,
                Outcome(a.status, Results(o.results.count + 1, o.results.body + a.words),
                        o.evaluated + [req.ops[i].code]));
    }
  }

  /** The reply of a compound that is run, kept in the log, is well exactly if every operation was. */
  lemma FirstReply(s: Server, req: Request, answers: seq<Answer>)
    requires ServerOk(s) && |req.ops| <= |answers| && Leads(s, req)
    requires req.ops[0].seqid == (|Log(s, req.ops[0].sid, req.ops[0].slot)| + 1) % SEQ_MODULUS
    ensures var op := req.ops[0];
            var (s', reply) := Compound(s, req, answers);
            && Log(s', op.sid, op.slot)
               == Log(s, op.sid, op.slot) + [Execution(op.seqid, op.cachethis, reply.status, reply.results)]
            && (reply.status == NFS4_OK <==> AllWell(req, answers, 1))
  {
    hide EvalFrom, ServerOk, AllWell;
    ExactlyOnce(s, req, answers);
    EvalOkIff(req, answers, 1, Outcome(NFS4_OK, Results(1, SequenceOk(req.ops[0])), []));
    RunsInOrder(s, req, answers);
  }

  lemma RunsInOrder(s: Server, req: Request, answers: seq<Answer>)
    requires ServerOk(s) && |req.ops| <= |answers| && Leads(s, req)
    requires req.ops[0].seqid == (|Log(s, req.ops[0].sid, req.ops[0].slot)| + 1) % SEQ_MODULUS
    ensures Compound(s, req, answers).1 == Reply(Body(req, answers).status, Body(req, answers).results)
  {
    hide EvalFrom, SequenceOk;
    var op := req.ops[0];
    var slot, l := s.sessions[op.sid][op.slot], Log(s, op.sid, op.slot);
    assert SlotOk(slot, l);
    if l != [] { WrapTwice(|l|); }
  }

  /** A retry of a kept reply, whenever it comes, gets the whole of the first reply exactly if that one's status
      was well: the status sent is always NFS4_OK. */
  lemma SameReplyIff(s: Server, retry: Request, answers: seq<Answer>)
    requires ServerOk(s) && |retry.ops| <= |answers| && Leads(s, retry)
    requires var l := Log(s, retry.ops[0].sid, retry.ops[0].slot);
             l != [] && retry.ops[0].seqid == |l| % SEQ_MODULUS && l[|l| - 1].cached
    ensures var l := Log(s, retry.ops[0].sid, retry.ops[0].slot);
            var first := Reply(l[|l| - 1].status, l[|l| - 1].results);
            var (s', again) := Compound(s, retry, answers);
            && s' == s && again.results == first.results
            && (again == first <==> first.status == NFS4_OK)
  {
    hide EvalFrom, Body, Refused;
    ExactlyOnce(s, retry, answers);
    OtherNumber(|Log(s, retry.ops[0].sid, retry.ops[0].slot)|);
  }

  lemma OtherNumber(n: nat)
    ensures n % SEQ_MODULUS != (n + 1) % SEQ_MODULUS
  {}

  /** A compound whose second operation finds no file: the retry gets the same results under another status. */
  lemma FailureReplayedAsSuccess()
    ensures var s := Server(map[0 := seq(FORE_SLOTS, _ => FRESH_SLOT)], [], map[]);
            var req := Request(1, [Sequence(0, 1, 0, true), Other(15)]);
            var answers := [Answer(NFS4_OK, []), Answer(2, [15, 2])];
            var (s1, first) := Compound(s, req, answers);
            var (s2, again) := Compound(s1, req, answers);
            first.status == 2 && again.status == NFS4_OK && again.results == first.results && s2 == s1
  {
    var s := Server(map[0 := seq(FORE_SLOTS, _ => FRESH_SLOT)], [], map[]);
    var req := Request(1, [Sequence(0, 1, 0, true), Other(15)]);
    var answers := [Answer(NFS4_OK, []), Answer(2, [15, 2])];
    FirstReply(s, req, answers);
    var (s1, first) := Compound(s, req, answers);
    assert first.status == 2;
    CompoundKeeps(s, req, answers);
    SameReplyIff(s1, req, answers);
  }

  /** What a compound that is run does: its operations up to the first that is not good are evaluated, each once and
      in order, and the reply holds the answer to SEQUENCE and then theirs, in order. */
  lemma RunsEachOnce(s: Server, req: Request, answers: seq<Answer>, k: nat)
    requires ServerOk(s) && |req.ops| <= |answers| && Leads(s, req) && Stops(req.ops, answers, 1, k)
    requires req.ops[0].seqid == (|Log(s, req.ops[0].sid, req.ops[0].slot)| + 1) % SEQ_MODULUS
    ensures forall j :: 1 <= j < k ==> req.ops[j].Other?
    ensures var (s', reply) := Compound(s, req, answers);
            var op := req.ops[0];
            var first := [53, NFS4_OK, op.sid, op.seqid, op.slot, 63, 63, 0];
            var done := s.evaluated + CodesOf(req.ops, 1, k);
            if k == |req.ops| then
              && s'.evaluated == done
              && reply == Reply(NFS4_OK, Results(k, first + WordsOf(answers, 1, k)))
            else match req.ops[k]
              case Unreadable =>
                s'.evaluated == done && reply == Reply(ERR_BADXDR, Results(k, first + WordsOf(answers, 1, k)))
              case Other(code) =>
                && s'.evaluated == done + [code]
                && reply == Reply(answers[k].status, Results(k + 1, first + WordsOf(answers, 1, k + 1)))
              case _ =>
                && s'.evaluated == done
                && reply == Reply(ERR_SEQUENCE_POS,
                                  Results(k + 1, first + WordsOf(answers, 1, k) + [OP_SEQUENCE, ERR_SEQUENCE_POS]))
  {
    hide EvalFrom, Stops, ServerOk, WordsOf, CodesOf;
    assert Body(req, answers)
        == EvalFrom(req.ops, answers, 1, Outcome(NFS4_OK, Results(1, SequenceOk(req.ops[0])), []));
    assert 1 <= k <= |req.ops| by { StopsWithin(req.ops, answers, 1, k); }
    EvalIs(req.ops, answers, 1, k, SequenceOk(req.ops[0]), 1);
    ExactlyOnce(s, req, answers);
    RunsInOrder(s, req, answers);
    hide Body;
  }

  lemma StopsWithin(ops: seq<Op>, answers: seq<Answer>, from: nat, k: nat)
    requires |ops| <= |answers| && Stops(ops, answers, from, k)
    ensures from <= k <= |ops|
  {}

  /** There is always such a first operation. */
  lemma {:induction false} StopsSomewhere(ops: seq<Op>, answers: seq<Answer>, from: nat) returns (k: nat)
    requires from <= |ops| <= |answers|
    ensures Stops(ops, answers, from, k)
    decreases |ops| - from
  {
    if from == |ops| || !Good(ops, answers, from) {
      k := from;
    } else {
      k := StopsSomewhere(ops, answers, from + 1);
    }
  }

  /** What is refused outright evaluates nothing and changes nothing, with the error numbers of RFC 5661. */
  lemma RefusedOutright(s: Server, req: Request, answers: seq<Answer>)
    requires ServerOk(s) && |req.ops| <= |answers|
    ensures var (s', reply) := Compound(s, req, answers);
            && (req.minor != 1 ==> s' == s && reply == Reply(10021, Results(0, [])))
            && (req.minor == 1 && |req.ops| > 64 ==> s' == s && reply == Reply(10065, Results(0, [])))
            && (req.minor == 1 && 0 < |req.ops| <= 64 ==>
                  && (req.ops[0].SequenceUnreadable? ==> s' == s && reply == Reply(10036, Results(1, [53, 10036])))
                  && (req.ops[0].Sequence? && req.ops[0].sid !in s.sessions ==>
                        s' == s && reply == Reply(10052, Results(1, [53, 10052])))
                  && (req.ops[0].Sequence? && req.ops[0].sid in s.sessions && req.ops[0].slot >= 64 ==>
                        s' == s && reply == Reply(10053, Results(1, [53, 10053]))))
  {
    hide EvalFrom;
  }

  /** A compound without a SEQUENCE runs on no slot: no slot changes, nothing is kept for a retry. */
  lemma RunsUnsequenced(s: Server, req: Request, answers: seq<Answer>, k: nat)
    requires ServerOk(s) && |req.ops| <= |answers| && req.minor == 1 && |req.ops| <= 64
    requires req.ops == [] || req.ops[0].Other? || req.ops[0].Unreadable?
    requires Stops(req.ops, answers, 0, k)
    ensures forall j :: 0 <= j < k ==> req.ops[j].Other?
    ensures var (s', reply) := Compound(s, req, answers);
            && s'.sessions == s.sessions && s'.log == s.log
            && s'.evaluated
               == s.evaluated + CodesOf(req.ops, 0, k)
                  + (if k < |req.ops| && req.ops[k].Other? then [req.ops[k].code] else [])
            && WordsOf(answers, 0, k) <= reply.results.body
  {
    hide EvalFrom, Stops, ServerOk, WordsOf, CodesOf;
    StopsWithin(req.ops, answers, 0, k);
    EvalIs(req.ops, answers, 0, k, [], 0);
    assert [] + WordsOf(answers, 0, k) == WordsOf(answers, 0, k);
    if k < |req.ops| && req.ops[k].Other? { WordsMore(answers, 0, k); }
    UnsequencedIs(s, req, answers);
  }

  lemma WordsMore(answers: seq<Answer>, i: nat, k: nat)
    requires i <= k < |answers|
    ensures WordsOf(answers, i, k) <= WordsOf(answers, i, k + 1) == [] + WordsOf(answers, i, k + 1)
  {}

  lemma UnsequencedIs(s: Server, req: Request, answers: seq<Answer>)
    requires ServerOk(s) && |req.ops| <= |answers| && req.minor == 1 && |req.ops| <= 64
    requires req.ops == [] || req.ops[0].Other? || req.ops[0].Unreadable?
    ensures var o := EvalFrom(req.ops, answers, 0, Outcome(NFS4_OK, Results(0, []), []));
            Compound(s, req, answers) == (s.(evaluated := s.evaluated + o.evaluated), Reply(o.status, o.results))
  {
    hide EvalFrom;
  }

  /** A session is created with all slots unused. */
  function NewSession(s: Server, sid: SessionId): Server
    requires sid !in s.sessions
  {
    s.(sessions := s.sessions[sid := seq(FORE_SLOTS, _ => FRESH_SLOT)],
       log := map k | k in s.log && k.0 != sid :: s.log[k])
  }

  datatype Event = Asked(req: Request, answers: seq<Answer>) | Opened(sid: SessionId)

  ghost function Handle(s: Server, e: Event): Server
    requires ServerOk(s)
  {
    match e
    case Asked(req, answers) => if |req.ops| <= |answers| then Compound(s, req, answers).0 else s
    case Opened(sid) => if sid !in s.sessions then NewSession(s, sid) else s
  }

  lemma HandleKeeps(s: Server, e: Event)
    requires ServerOk(s)
    ensures ServerOk(Handle(s, e))
  {
    match e
    case Asked(req, answers) => if |req.ops| <= |answers| { CompoundKeeps(s, req, answers); }
    case Opened(sid) =>
      if sid !in s.sessions {
        var s' := NewSession(s, sid);
        forall id, i | id in s'.sessions && 0 <= i < FORE_SLOTS ensures SlotOk(s'.sessions[id][i], Log(s', id, i)) {
          if id != sid { assert SlotOk(s.sessions[id][i], Log(s, id, i)); }
        }
      }
  }

  ghost function HandleAll(s: Server, es: seq<Event>): Server
    requires ServerOk(s)
    decreases |es|
  {
    if es == [] then s else (
      HandleKeeps(s, es[0]);
      HandleAll(Handle(s, es[0]), es[1..]))
  }

  /** Over every sequence of requests: on each slot, the compounds ever run carry 1, 2, 3, ... mod 2^32. */
  lemma {:induction false} ConsecutiveAlways(s: Server, es: seq<Event>, sid: SessionId, slot: nat)
    requires ServerOk(s) && slot < FORE_SLOTS
    ensures var s' := HandleAll(s, es);
            && ServerOk(s')
            && (sid in s'.sessions ==>
                  forall i :: 0 <= i < |Log(s', sid, slot)| ==> Log(s', sid, slot)[i].seqid == (i + 1) % SEQ_MODULUS)
    decreases |es|
  {
    if es == [] {
      if sid in s.sessions { assert SlotOk(s.sessions[sid][slot], Log(s, sid, slot)); }
    } else {
      hide ServerOk, Handle;
      HandleKeeps(s, es[0]);
      ConsecutiveAlways(Handle(s, es[0]), es[1..], sid, slot);
    }
  }

  // ---- as the server runs it ------------------------------------------------------------------------

  class NfsServer {
    var sessions: map<SessionId, seq<Slot>>
    var evaluated: seq<nat>
    ghost var log: map<(SessionId, nat), seq<Execution>>

    ghost function Value(): Server
      reads this
    {
      Server(sessions, evaluated, log)
    }

    ghost predicate Valid()
      reads this
    {
      ServerOk(Value())
    }

    constructor ()
      ensures Valid() && Value() == Server(map[], [], map[])
    {
      sessions, evaluated, log := map[], [], map[];
    }

    /** Operations one by one into the reply, until one fails. */
    method Evaluate(ops: seq<Op>, answers: seq<Answer>, from: nat, results: Results)
      returns (status: nat, done: Results, ghost o: Outcome)
      requires from <= |ops| <= |answers|
      modifies this`evaluated
      ensures o == EvalFrom(ops, answers, from, Outcome(NFS4_OK, results, []))
      ensures status == o.status && done == o.results && evaluated == old(evaluated) + o.evaluated
    {
      o := EvalFrom(ops, answers, from, Outcome(NFS4_OK, results, []));
      status, done := NFS4_OK, results;
      ghost var ran: seq<nat> := [];
      var i := from;
      while i < |ops|
        invariant from <= i <= |ops|
        invariant evaluated == old(evaluated) + ran
        invariant EvalFrom(ops, answers, i, Outcome(NFS4_OK, done, ran)) == o && status == NFS4_OK
      {
        match ops[i] {
          case Unreadable =>
            return ERR_BADXDR, done, o;
          case Other(code) =>
            evaluated, ran := evaluated + [code], ran + [code];
            done := Results(done.count + 1, done.body + answers[i].words);
            if answers[i].status != NFS4_OK { return answers[i].status, done, o; }
          case _ =>
            return ERR_SEQUENCE_POS, Results(done.count + 1, done.body + [OP_SEQUENCE, ERR_SEQUENCE_POS]), o;
        }
        i := i + 1;
      }
    }

    method Serve(req: Request, answers: seq<Answer>) returns (reply: Reply)
      requires Valid() && |req.ops| <= |answers|
      modifies this
      ensures Valid() && (Value(), reply) == Compound(old(Value()), req, answers)
    {
      hide EvalFrom, SlotOk;
      CompoundKeeps(Value(), req, answers);
      if req.minor != 1 { return Reply(ERR_MINOR_VERS_MISMATCH, Results(0, [])); }
      if |req.ops| > MAX_OPS { return Reply(ERR_REQ_TOO_BIG, Results(0, [])); }
      if req.ops != [] && req.ops[0].SequenceUnreadable? { return Refused(ERR_BADXDR); }
      if req.ops == [] || !req.ops[0].Sequence? {
        var status, results, _ := Evaluate(req.ops, answers, 0, Results(0, []));
        return Reply(status, results);
      }
      var op := req.ops[0];
      if op.sid !in sessions { return Refused(ERR_BADSESSION); }
      if op.slot >= FORE_SLOTS { return Refused(ERR_BADSLOT); }
      var slot := sessions[op.sid][op.slot];
      if op.seqid == slot.seqid {
        if slot.reply.Some? { return Reply(NFS4_OK, slot.reply.value); }
        if slot.hadUncached { return Refused(ERR_RETRY_UNCACHED_REP); }
        return Refused(ERR_SEQ_MISORDERED);
      }
      if op.seqid != NextSeqid(slot.seqid) { return Refused(ERR_SEQ_MISORDERED); }
      ghost var before := Value();
      var status, results, o := Evaluate(req.ops, answers, 1, Results(1, SequenceOk(op)));
      assert o == Body(req, answers);
      sessions := sessions[op.sid := sessions[op.sid][op.slot := SlotAfter(op, results)]];
      log := log[(op.sid, op.slot) :=
        Log(before, op.sid, op.slot) + [Execution(op.seqid, op.cachethis, status, results)]];
      reply := Reply(status, results);
    }
  }
}
