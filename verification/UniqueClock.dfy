/** Optimistic timestamps: any number of writers race on one shared counter with compare-and-exchange. */
module UniqueClocks {
  import opened Types

  const MODULUS: nat := U64_MAX + 1
  const SECOND: nat := 1_000_000_000

  function Saturate(n: nat): nat {
    if n > U64_MAX then U64_MAX else n
  }

  /** A floor before the epoch counts as the epoch. */
  function FloorNanos(floor: Ts): nat {
    Saturate(Saturate((if floor.sec < 0 then 0 else floor.sec) * SECOND) + floor.nsec)
  }

  function TsOf(nanos: nat): Ts {
    Ts(nanos / SECOND, nanos % SECOND)
  }

  predicate Below(a: Ts, b: Ts) {
    a.sec < b.sec || (a.sec == b.sec && a.nsec < b.nsec)
  }

  /** A caller between its atomic steps: it has its base, and perhaps a value of the counter it read. */
  datatype Caller = Started(now: nat, floor: Ts, base: nat) | Loaded(now: nat, floor: Ts, base: nat, prev: nat)

  /** `now` and `floor` are what the call began with. */
  datatype Issue = Issue(nanos: nat, now: nat, floor: Ts)

  /** `issued` lists what the calls have returned, in the order of their exchanges. */
  datatype State = State(counter: nat, callers: map<nat, Caller>, issued: seq<Issue>)

  /** The wall clock counts nanoseconds in 64 bits. */
  predicate Begin(s: State, s': State, id: nat, now: nat, floor: Ts) {
    && id !in s.callers
    && s' == s.(callers := s.callers[id := Started(now, floor, Max(now % MODULUS, FloorNanos(floor)))])
  }

  predicate Load(s: State, s': State, id: nat) {
    && id in s.callers && s.callers[id].Started?
    && var c := s.callers[id];
       s' == s.(callers := s.callers[id := Loaded(c.now, c.floor, c.base, s.counter)])
  }

  /** One more than both: a 64-bit sum, so after the last number comes 0. */
  function Want(c: Caller): nat
    requires c.Loaded?
  {
    (Max(c.base, c.prev) + 1) % MODULUS
  }

  function IssueTo(c: Caller): Issue
    requires c.Loaded?
  {
    Issue(Want(c), c.now, c.floor)
  }

  predicate Wraps(c: Caller) {
    c.Loaded? && Max(c.base, c.prev) == U64_MAX
  }

  /** The exchange goes through only if the counter is still what was read. */
  predicate Exchange(s: State, s': State, id: nat) {
    && id in s.callers && s.callers[id].Loaded? && s.counter == s.callers[id].prev
    && s' == State(Want(s.callers[id]), s.callers - {id}, s.issued + [IssueTo(s.callers[id])])
  }

  /** It may also fail for no reason; either way the caller now knows the current value. */
  predicate Retry(s: State, s': State, id: nat) {
    && id in s.callers && s.callers[id].Loaded?
    && s' == s.(callers := s.callers[id := s.callers[id].(prev := s.counter)])
  }

  ghost predicate Step(s: State, s': State) {
    || (exists id: nat, now: nat, floor :: Begin(s, s', id, now, floor))
    || (exists id: nat :: Load(s, s', id))
    || (exists id: nat :: Exchange(s, s', id))
    || (exists id: nat :: Retry(s, s', id))
  }

  const FIRST := State(0, map[], [])

  ghost predicate Run(ss: seq<State>) {
    && ss != [] && ss[0] == FIRST
    && forall i :: 0 <= i < |ss| - 1 ==> Step(ss[i], ss[i + 1])
  }

  // ---- what every step keeps --------------------------------------------------------------------

  /** A caller's base is the later of its floor and of the clock when it began. */
  predicate BaseOk(c: Caller) {
    && FloorNanos(c.floor) <= c.base <= U64_MAX && c.now % MODULUS <= c.base
    && (c.base == FloorNanos(c.floor) || c.base == c.now % MODULUS)
  }

  /** Everything fits 64 bits. */
  ghost predicate Inv(s: State) {
    && s.counter <= U64_MAX
    && (forall id :: id in s.callers ==> BaseOk(s.callers[id]))
    && (forall id :: id in s.callers && s.callers[id].Loaded? ==> s.callers[id].prev <= U64_MAX)
    && (forall i :: 0 <= i < |s.issued| ==> s.issued[i].nanos <= U64_MAX)
  }

  lemma StepKeeps(s: State, s': State)
    requires Inv(s) && Step(s, s')
    ensures Inv(s') && s.issued <= s'.issued
  {
    FloorFits();
    hide FloorNanos;
  }

  lemma FloorFits()
    ensures forall floor :: FloorNanos(floor) <= U64_MAX
  {}

  lemma {:induction false} RunKeeps(ss: seq<State>, m: nat)
    requires Run(ss) && m < |ss|
    ensures Inv(ss[m])
  {
    hide Step;
    if m > 0 {
      RunKeeps(ss, m - 1);
      assert Step(ss[m - 1], ss[m - 1 + 1]);
      StepKeeps(ss[m - 1], ss[m]);
    }
  }

  // ---- one issue ----------------------------------------------------------------------------------

  /** Nanoseconds above a floor are a time above it. */
  lemma AboveFloor(floor: Ts, nanos: nat)
    requires FloorNanos(floor) < nanos <= U64_MAX
    ensures Below(floor, TsOf(nanos))
  {
    assert nanos == nanos / SECOND * SECOND + nanos % SECOND;
  }

  /** A floor is read for what it is, as far as 64 bits of nanoseconds reach. */
  lemma FloorIs(floor: Ts)
    requires 0 <= floor.sec && floor.nsec < SECOND
    ensures floor.sec * SECOND + floor.nsec <= U64_MAX ==> TsOf(FloorNanos(floor)) == floor
    ensures floor.sec * SECOND + floor.nsec > U64_MAX ==> FloorNanos(floor) == U64_MAX
  {
    var n := floor.sec * SECOND + floor.nsec;
    assert n / SECOND == floor.sec && n % SECOND == floor.nsec;
  }

  lemma DifferentTimes(a: nat, b: nat)
    requires a < b
    ensures Below(TsOf(a), TsOf(b))
  {
    assert a == a / SECOND * SECOND + a % SECOND && b == b / SECOND * SECOND + b % SECOND;
  }

  /** What an exchange promises, and when: it moves the counter on exactly if base and counter are both below the
      last number, and then the time issued is above the floor and after the clock of the call, and the first such
      time.  Otherwise it starts again at 0, a time above no floor but one before the epoch. */
  lemma IssueIff(s: State, s': State, id: nat)
    requires Inv(s) && Exchange(s, s', id)
    ensures var c, issue := s.callers[id], s'.issued[|s.issued|];
            && issue == Issue(s'.counter, c.now, c.floor)
            && (s'.counter > s.counter <==> c.base < U64_MAX && s.counter < U64_MAX)
            && (c.base < U64_MAX && s.counter < U64_MAX <==> !Wraps(c))
            && (Wraps(c) ==> s'.counter == 0)
            && (Below(c.floor, TsOf(issue.nanos)) <==> !Wraps(c) || c.floor.sec < 0)
            && (c.now % MODULUS < issue.nanos <==> !Wraps(c))
            && (!Wraps(c) ==> issue.nanos - 1 in {s.counter, FloorNanos(c.floor), c.now % MODULUS})
  {
    var c := s.callers[id];
    if Wraps(c) {
      assert Want(c) == 0;
    } else {
      assert Want(c) == Max(c.base, c.prev) + 1;
      AboveFloor(c.floor, Want(c));
    }
  }

  // ---- over a run -----------------------------------------------------------------------------------

  /** This step is an exchange that starts again at 0. */
  ghost predicate WrapsAt(ss: seq<State>, j: nat) {
    j + 1 < |ss| && IsWrap(ss[j], ss[j + 1])
  }

  ghost predicate IsWrap(s: State, s': State) {
    exists id: nat :: Exchange(s, s', id) && Wraps(s.callers[id])
  }

  /** In the order of their exchanges, each above the one before: so all are distinct. */
  ghost predicate Ascending(l: seq<Issue>) {
    forall i, j :: 0 <= i < j < |l| ==> Below(TsOf(l[i].nanos), TsOf(l[j].nanos))
  }

  ghost predicate Rising(s: State) {
    && (forall i :: 0 <= i < |s.issued| ==> s.issued[i].nanos <= s.counter)
    && (forall i, j :: 0 <= i < j < |s.issued| ==> s.issued[i].nanos < s.issued[j].nanos)
  }

  /** A step that does not issue leaves counter and issues alone. */
  lemma NoIssue(s: State, s': State)
    requires Step(s, s') && forall id: nat :: !Exchange(s, s', id)
    ensures s'.counter == s.counter && s'.issued == s.issued
  {
    hide Exchange;
  }

  lemma StepRises(ss: seq<State>, j: nat)
    requires Run(ss) && j + 1 < |ss| && Rising(ss[j]) && (WrapsAt(ss, j) ==> ss[j].issued == [])
    ensures Rising(ss[j + 1])
  {
    RunKeeps(ss, j);
    assert Step(ss[j], ss[j + 1]);
    hide Step, Run;
    var s, s' := ss[j], ss[j + 1];
    if id: nat :| Exchange(s, s', id) {
      IssueIff(s, s', id);
      hide Wraps, Want, FloorNanos, Below, TsOf;
      assert s'.issued == s.issued + [s'.issued[|s.issued|]];
    } else {
      NoIssue(s, s');
    }
  }

  lemma {:induction false} Rises(ss: seq<State>, m: nat)
    requires Run(ss) && m < |ss| && forall j: nat :: j < m && WrapsAt(ss, j) ==> ss[j].issued == []
    ensures Rising(ss[m])
  {
    hide Step, WrapsAt, Rising;
    if m == 0 {
      assert Rising(FIRST) by { FirstRising(); }
    } else {
      Rises(ss, m - 1);
      StepRises(ss, m - 1);
    }
  }

  lemma FirstRising()
    ensures Rising(FIRST)
  {}

  lemma {:induction false} IssuedGrow(ss: seq<State>, a: nat, b: nat)
    requires Run(ss) && a <= b < |ss|
    ensures ss[a].issued <= ss[b].issued
    decreases b
  {
    hide Step;
    if a < b {
      IssuedGrow(ss, a, b - 1);
      RunKeeps(ss, b - 1);
      assert Step(ss[b - 1], ss[b - 1 + 1]);
      StepKeeps(ss[b - 1], ss[b]);
    }
  }

  /** Nothing is below the time 0. */
  lemma NotBelowZero(nanos: nat)
    ensures !Below(TsOf(nanos), TsOf(0))
  {}

  lemma WrapBreaks(ss: seq<State>, j: nat, m: nat)
    requires Run(ss) && j < m < |ss| && WrapsAt(ss, j) && ss[j].issued != []
    ensures !Ascending(ss[m].issued)
  {
    RunKeeps(ss, j);
    var s, s' := ss[j], ss[j + 1];
    var id: nat :| Exchange(s, s', id) && Wraps(s.callers[id]);
    IssueIff(s, s', id);
    IssuedGrow(ss, j + 1, m);
    var n, l := |ss[j].issued|, ss[m].issued;
    assert l[n] == ss[j + 1].issued[n] && l[n].nanos == 0;
    NotBelowZero(l[0].nanos);
    assert !Below(TsOf(l[0].nanos), TsOf(l[n].nanos));
  }

  /** Whatever the interleaving, the timestamps issued are distinct and in the order of their exchanges exactly if no
      exchange but perhaps the first found base or counter at the last number. */
  lemma TimestampsUnique(ss: seq<State>, m: nat)
    requires Run(ss) && m < |ss|
    ensures Ascending(ss[m].issued) <==> forall j: nat :: j < m && WrapsAt(ss, j) ==> ss[j].issued == []
  {
    hide Run, WrapsAt, Below, TsOf;
    if j: nat :| j < m && WrapsAt(ss, j) && ss[j].issued != [] {
      WrapBreaks(ss, j, m);
    } else {
      Rises(ss, m);
      var l := ss[m].issued;
      forall i, j | 0 <= i < j < |l| ensures Below(TsOf(l[i].nanos), TsOf(l[j].nanos)) {
        DifferentTimes(l[i].nanos, l[j].nanos);
      }
    }
  }

  /** As long as no exchange finds the last number, every time issued is above the floor of its own call, and after
      the clock as the call read it. */
  lemma {:induction false} FloorsKept(ss: seq<State>, m: nat)
    requires Run(ss) && m < |ss| && forall j: nat :: j < m ==> !WrapsAt(ss, j)
    ensures forall i :: 0 <= i < |ss[m].issued| ==> Below(ss[m].issued[i].floor, TsOf(ss[m].issued[i].nanos))
    ensures forall i :: 0 <= i < |ss[m].issued| ==> ss[m].issued[i].now % MODULUS < ss[m].issued[i].nanos
  {
    hide Step, Below, TsOf;
    if m > 0 {
      FloorsKept(ss, m - 1);
      RunKeeps(ss, m - 1);
      assert Step(ss[m - 1], ss[m - 1 + 1]);
      var s, s' := ss[m - 1], ss[m];
      if id: nat :| Exchange(s, s', id) {
        IssueIff(s, s', id);
        assert !WrapsAt(ss, m - 1);
        assert s'.issued == s.issued + [s'.issued[|s.issued|]];
      } else {
        NoIssue(s, s');
      }
    }
  }

  /** Between two moments with no such exchange the counter never goes back, and moves only with an issue. */
  lemma {:induction false} CounterGrows(ss: seq<State>, a: nat, b: nat)
    requires Run(ss) && a <= b < |ss| && forall j: nat :: a <= j < b ==> !WrapsAt(ss, j)
    ensures ss[a].counter <= ss[b].counter && ss[a].issued <= ss[b].issued
    ensures |ss[a].issued| < |ss[b].issued| <==> ss[a].counter < ss[b].counter
    decreases b
  {
    hide Step, Below, TsOf;
    if a < b {
      CounterGrows(ss, a, b - 1);
      RunKeeps(ss, b - 1);
      assert Step(ss[b - 1], ss[b - 1 + 1]);
      var s, s' := ss[b - 1], ss[b];
      if id: nat :| Exchange(s, s', id) {
        IssueIff(s, s', id);
        assert !WrapsAt(ss, b - 1);
      } else {
        NoIssue(s, s');
      }
    }
  }

  // ---- no call waits for nothing ----------------------------------------------------------------------

  /** The caller's exchange would go through. */
  ghost predicate Ready(s: State, id: nat) {
    exists s' :: Exchange(s, s', id)
  }

  lemma ReadyIff(s: State, id: nat)
    ensures Ready(s, id) <==> id in s.callers && s.callers[id].Loaded? && s.callers[id].prev == s.counter
  {
    if id in s.callers && s.callers[id].Loaded? && s.callers[id].prev == s.counter {
      var c := s.callers[id];
      assert Exchange(s, State(Want(c), s.callers - {id}, s.issued + [IssueTo(c)]), id);
    }
  }

  /** A caller that looks, for the first time or after a failed exchange, is ready; and it stays ready as long as no
      other caller's exchange goes through.  So when one has to try again, another has got its time. */
  lemma SomeCallerGoesOn(s: State, s': State, id: nat)
    requires Step(s, s')
    ensures Load(s, s', id) || Retry(s, s', id) ==> Ready(s', id)
    ensures Ready(s, id) && !Ready(s', id) ==> exists rival: nat :: Exchange(s, s', rival)
  {
    ReadyIff(s, id);
    ReadyIff(s', id);
    hide Ready, FloorNanos;
    if Ready(s, id) && !Ready(s', id) {
      if forall rival: nat :: !Exchange(s, s', rival) {
        NoIssue(s, s');
        Untouched(s, s', id);
      }
    }
  }

  /** Whatever else happens, a caller that is ready keeps what it knows. */
  lemma Untouched(s: State, s': State, id: nat)
    requires Step(s, s') && (forall rival: nat :: !Exchange(s, s', rival))
    requires id in s.callers && s.callers[id].Loaded? && s.callers[id].prev == s.counter
    ensures id in s'.callers && s'.callers[id] == s.callers[id]
  {
    hide Exchange, FloorNanos;
  }

  // ---- a timestamp issued twice ----------------------------------------------------------------------

  /** One call from start to end, alone. */
  lemma OneCall(ss: seq<State>, now: nat, floor: Ts) returns (ss': seq<State>)
    requires ss != [] && Run(ss) && ss[|ss| - 1].callers == map[]
    ensures ss' != [] && Run(ss') && ss'[|ss'| - 1].callers == map[]
    ensures var s, s' := ss[|ss| - 1], ss'[|ss'| - 1];
            var nanos := (Max(Max(now % MODULUS, FloorNanos(floor)), s.counter) + 1) % MODULUS;
            s'.counter == nanos && s'.issued == s.issued + [Issue(nanos, now, floor)]
  {
    hide FloorNanos, Run;
    var s := ss[|ss| - 1];
    var base := Max(now % MODULUS, FloorNanos(floor));
    var s1 := s.(callers := map[0 := Started(now, floor, base)]);
    assert Begin(s, s1, 0, now, floor);
    var s2 := s1.(callers := map[0 := Loaded(now, floor, base, s.counter)]);
    assert Load(s1, s2, 0);
    var nanos := (Max(base, s.counter) + 1) % MODULUS;
    var s3 := State(nanos, map[], s.issued + [Issue(nanos, now, floor)]);
    assert s2.callers - {0} == map[];
    assert Exchange(s2, s3, 0);
    ss' := ss + [s1] + [s2] + [s3];
    assert Step(s, s1) && Step(s1, s2) && Step(s2, s3);
    hide Step;
    RunMore(ss, s1);
    RunMore(ss + [s1], s2);
    RunMore(ss + [s1] + [s2], s3);
  }

  lemma RunMore(ss: seq<State>, s: State)
    requires ss != [] && Run(ss) && Step(ss[|ss| - 1], s)
    ensures Run(ss + [s])
  {
    hide Step;
  }

  /** A write to a file dated ahead of the clock, a write to a file dated past the range of the counter, and another
      to the first file with its old date: the first and the third get the same timestamp. */
  lemma SameTimestampTwice(now: nat, floor: Ts, far: Ts)
    requires now % MODULUS <= FloorNanos(floor) < U64_MAX && FloorNanos(far) == U64_MAX && far.sec >= 0
    ensures exists ss: seq<State> :: ss != [] && Run(ss) && |ss[|ss| - 1].issued| == 3
              && ss[|ss| - 1].issued[0] == ss[|ss| - 1].issued[2]
              && !Below(far, TsOf(ss[|ss| - 1].issued[1].nanos))
  {
    hide FloorNanos, Run;
    assert Run([FIRST]) by { RunFirst(); }
    var a := OneCall([FIRST], now, floor);
    var b := OneCall(a, now, far);
    var c := OneCall(b, now, floor);
    assert c[|c| - 1].issued[1].nanos == 0;
    FarIsNotEarly(far);
  }

  lemma RunFirst()
    ensures Run([FIRST])
  {}

  /** A time from the epoch on is not below 0. */
  lemma FarIsNotEarly(far: Ts)
    requires far.sec >= 0
    ensures !Below(far, TsOf(0))
  {}
}
