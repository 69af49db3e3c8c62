/** Minute and day rules agree: in every run of the gateway, what a day window was charged is what
    the 1440 minute windows inside it were charged, but for charges that are still on their way. */
module DayMinutes {
  import opened Wrappers
  import opened Redis
  import opened Sums
  import opened Windows
  import opened TokenUsage
  import opened Admission
  import opened AdmissionRuns
  import opened Accounting
  import opened GatewaySteps

  /** The minute and the day rule of the same type, for the same user and model. */
  predicate Pair(m: Counter, d: Counter) {
    && m.Rate? && d.Rate? && m == d.(rule := m.rule)
    && ((m.rule == "rpm" && d.rule == "rpd") || (m.rule == "tpm" && d.rule == "tpd"))
  }

  /** The gateway's windows. */
  ghost predicate GatewayClock(p: Policy) { forall c, t :: p.win(c, t) == WindowOf(c, t) }

  lemma PairWindows(m: Counter, d: Counter, t: int)
    requires Pair(m, d)
    ensures WindowOf(m, t) == WindowStart(t / NANOS, 1, Minute) && WindowOf(d, t) == WindowStart(t / NANOS, 1, Day)
    ensures PerRequest(m) == PerRequest(d) && forall u :: Amount(m, u) == Amount(d, u)
  {
  }

  // ---------------------------------------------------------------------------------------
  // Windows

  /** A multiple of `size` is below `t` exactly when it is below `t` rounded down. */
  lemma AlignedBelow(x: int, t: int, size: int)
    requires size > 0 && x % size == 0
    ensures x <= t <==> x <= t - t % size
  {
    if x <= t { RoundDown(x, t, size); }
  }

  lemma DayIsMinutes(d: int)
    requires d % 86400 == 0
    ensures d % 60 == 0 && (d + 86400) % 86400 == 0
  {
    assert d == (d / 86400 * 1440) * 60 + 0;
    DivModUnique(d, 60, d / 86400 * 1440, 0);
  }

  lemma MinuteInDay(t: int, d: int)
    requires d % 86400 == 0
    ensures var m := WindowStart(t, 1, Minute);
            && (WindowStart(t, 1, Day) == d <==> d <= m < d + 86400)
            && (m - d) % 60 == 0
  {
    DayDivisorsAligned(t, 1, Minute);
    DayDivisorsAligned(t, 1, Day);
    DayIsMinutes(d);
    DayIsMinutes(d + 86400);
    AlignedBelow(d, t, 60);
    AlignedBelow(d + 86400, t, 60);
    if d <= t { RoundDown(d, t, 86400); }
    AlignedBelow(d, t, 86400);
    MinuteOffset(t, d);
  }

  lemma MinuteOffset(t: int, d: int)
    requires d % 60 == 0
    ensures (t - t % 60 - d) % 60 == 0
  {
    DivModUnique(t - t % 60 - d, 60, t / 60 - d / 60, 0);
  }

  // ---------------------------------------------------------------------------------------
  // What is charged and what is on its way

  /** What the first `n` minute windows from `start` on were charged. */
  function MinutesFrom(s: State, m: Counter, start: int, n: nat): int {
    if n == 0 then 0 else MinutesFrom(s, m, start, n - 1) + Charged(s, (m, start + 60 * (n - 1)))
  }

  lemma {:induction false} MinutesSame(s: State, s': State, m: Counter, start: int, n: nat)
    requires forall w :: Charged(s', (m, w)) == Charged(s, (m, w))
    ensures MinutesFrom(s', m, start, n) == MinutesFrom(s, m, start, n)
  {
    if n > 0 { MinutesSame(s, s', m, start, n - 1); }
  }

  lemma {:induction false} MinutesPlus(s: State, s': State, m: Counter, start: int, n: nat, hit: int, a: int)
    requires (hit - start) % 60 == 0
    requires forall w :: Charged(s', (m, w)) == Charged(s, (m, w)) + if w == hit then a else 0
    ensures MinutesFrom(s', m, start, n) == MinutesFrom(s, m, start, n) + if start <= hit < start + 60 * n then a else 0
  {
    if n > 0 { MinutesPlus(s, s', m, start, n - 1, hit, a); }
  }

  /** What the request has queued for `c` under a clock sample of the day that starts at `start`. */
  function Queued(r: Request, c: Counter, d: Counter, start: int): int {
    if Pending(r, c) && WindowOf(d, r.phase.t) == start then Amount(c, r.phase.usage) else 0
  }

  function QueuedBy(reqs: map<int, Request>, c: Counter, d: Counter, start: int): map<int, int> {
    map id | id in reqs :: Queued(reqs[id], c, d, start)
  }

  ghost function OnTheWay(s: State, c: Counter, d: Counter, start: int): int { Sum(QueuedBy(s.reqs, c, d, start)) }

  /** One request changes, arrives or leaves. */
  lemma OneMoves(s: State, s': State, id: int, c: Counter, d: Counter, start: int)
    requires s'.reqs.Keys - {id} == s.reqs.Keys - {id}
    requires forall i :: i in s.reqs && i in s'.reqs && i != id ==> s'.reqs[i] == s.reqs[i]
    ensures OnTheWay(s', c, d, start) - OnTheWay(s, c, d, start)
            == (if id in s'.reqs then Queued(s'.reqs[id], c, d, start) else 0)
               - (if id in s.reqs then Queued(s.reqs[id], c, d, start) else 0)
  {
    var b, b' := QueuedBy(s.reqs, c, d, start), QueuedBy(s'.reqs, c, d, start);
    assert b.Keys == s.reqs.Keys && b'.Keys == s'.reqs.Keys;
    SumChange(b, b', id);
  }

  /** Charged or on its way, the day has what its minutes have. */
  ghost predicate Balanced(s: State, m: Counter, d: Counter, start: int) {
    && (forall id :: id in s.reqs ==> (m in s.reqs[id].qos <==> d in s.reqs[id].qos))
    && Charged(s, (d, start)) + OnTheWay(s, d, d, start) == MinutesFrom(s, m, start, 1440) + OnTheWay(s, m, d, start)
  }

  // ---------------------------------------------------------------------------------------
  // Runs

  /** Every QoS that arrives has both rules or neither, and no request is dropped while a charge to
      one of them is queued. */
  predicate Fair(s: State, m: Counter, d: Counter, step: Step) {
    match step
    case Arrive(_, q) => m in q <==> d in q
    case Drop(id) => id in s.reqs ==> !Pending(s.reqs[id], m) && !Pending(s.reqs[id], d)
    case _ => true
  }

  ghost predicate FairPath(p: Policy, s: State, steps: seq<Step>, m: Counter, d: Counter)
    decreases |steps|
  {
    steps == [] ||
    (Fair(s, m, d, steps[0]) && Enabled(p, s, steps[0]) && FairPath(p, Do(p, s, steps[0]), steps[1..], m, d))
  }

  /** A step of request `id` that charges nothing and queues for both or for neither. */
  lemma QuietKeeps(s: State, s': State, id: int, m: Counter, d: Counter, start: int)
    requires Balanced(s, m, d, start) && s'.charged == s.charged
    requires s'.reqs.Keys - {id} == s.reqs.Keys - {id}
    requires forall i :: i in s.reqs && i in s'.reqs && i != id ==> s'.reqs[i] == s.reqs[i]
    requires id in s'.reqs ==> (m in s'.reqs[id].qos <==> d in s'.reqs[id].qos)
    requires (if id in s'.reqs then Queued(s'.reqs[id], m, d, start) - Queued(s'.reqs[id], d, d, start) else 0)
             == if id in s.reqs then Queued(s.reqs[id], m, d, start) - Queued(s.reqs[id], d, d, start) else 0
    ensures Balanced(s', m, d, start)
  {
    OneMoves(s, s', id, m, d, start);
    OneMoves(s, s', id, d, d, start);
    MinutesSame(s, s', m, start, 1440);
    forall i | i in s'.reqs ensures m in s'.reqs[i].qos <==> d in s'.reqs[i].qos {
      if i != id { assert i in s.reqs.Keys - {id}; }
    }
  }

  lemma IncrChanges(p: Policy, s: State, id: int, c: Counter, x: Counter, w: int)
    requires Enabled(p, s, Incr(id, c))
    ensures Charged(Do(p, s, Incr(id, c)), (x, w))
            == Charged(s, (x, w)) + if x == c && w == p.win(c, s.reqs[id].phase.t) then Amount(c, s.reqs[id].phase.usage) else 0
  {
  }

  lemma IncrQueued(p: Policy, s: State, id: int, c: Counter, x: Counter, d: Counter, start: int)
    requires Enabled(p, s, Incr(id, c)) && c !in s.reqs[id].phase.todo
    ensures var s' := Do(p, s, Incr(id, c));
            OnTheWay(s', x, d, start) == OnTheWay(s, x, d, start)
            - if x == c && WindowOf(d, s.reqs[id].phase.t) == start then Amount(c, s.reqs[id].phase.usage) else 0
    ensures Do(p, s, Incr(id, c)).reqs.Keys == s.reqs.Keys
    ensures forall i :: i in s.reqs ==> Do(p, s, Incr(id, c)).reqs[i].qos == s.reqs[i].qos
  {
    var s' := Do(p, s, Incr(id, c));
    assert s'.reqs.Keys == s.reqs.Keys;
    OneMoves(s, s', id, x, d, start);
  }

  /** What a charge adds to the minutes of the day. */
  lemma IncrMinutes(p: Policy, s: State, id: int, c: Counter, m: Counter, d: Counter, start: int)
    requires GatewayClock(p) && Pair(m, d) && start % 86400 == 0 && Enabled(p, s, Incr(id, c))
    ensures MinutesFrom(Do(p, s, Incr(id, c)), m, start, 1440) == MinutesFrom(s, m, start, 1440)
            + if c == m && WindowOf(d, s.reqs[id].phase.t) == start then Amount(c, s.reqs[id].phase.usage) else 0
  {
    var s' := Do(p, s, Incr(id, c));
    var t, a := s.reqs[id].phase.t, Amount(c, s.reqs[id].phase.usage);
    forall w ensures Charged(s', (m, w)) == Charged(s, (m, w)) + if m == c && w == p.win(c, t) then a else 0 {
      IncrChanges(p, s, id, c, m, w);
    }
    if c == m {
      PairWindows(m, d, t);
      MinuteInDay(t / NANOS, start);
      MinutesPlus(s, s', m, start, 1440, WindowOf(m, t), a);
    } else {
      MinutesSame(s, s', m, start, 1440);
    }
  }

  /** A charge takes from what is on its way what it adds to the window. */
  lemma IncrKeeps(p: Policy, s: State, id: int, c: Counter, m: Counter, d: Counter, start: int)
    requires GatewayClock(p) && Pair(m, d) && start % 86400 == 0 && Balanced(s, m, d, start)
    requires Enabled(p, s, Incr(id, c)) && c !in s.reqs[id].phase.todo
    ensures Balanced(Do(p, s, Incr(id, c)), m, d, start)
  {
    IncrMinutes(p, s, id, c, m, d, start);
    IncrChanges(p, s, id, c, d, start);
    IncrQueued(p, s, id, c, m, d, start);
    IncrQueued(p, s, id, c, d, d, start);
  }

  /** These steps move a request on without queueing, charging or forgetting a charge. */
  predicate Moving(step: Step) { step.Read? || step.Admit? || step.ReadTtl? || step.Arm? || step.Finish? }

  lemma MovingQueuesNothing(p: Policy, s: State, step: Step, c: Counter, d: Counter, start: int)
    requires Enabled(p, s, step) && Moving(step)
    ensures var r, r' := s.reqs[step.id], Do(p, s, step).reqs[step.id];
            Queued(r', c, d, start) == Queued(r, c, d, start) && r'.qos == r.qos
  {
  }

  lemma MovingKeeps(p: Policy, s: State, step: Step, m: Counter, d: Counter, start: int)
    requires Balanced(s, m, d, start) && Enabled(p, s, step) && Moving(step)
    ensures Balanced(Do(p, s, step), m, d, start)
  {
    MovingQueuesNothing(p, s, step, m, d, start);
    MovingQueuesNothing(p, s, step, d, d, start);
    QuietKeeps(s, Do(p, s, step), step.id, m, d, start);
  }

  lemma StepBalances(p: Policy, s: State, step: Step, m: Counter, d: Counter, start: int)
    requires ValidPolicy(p) && GatewayClock(p) && Pair(m, d) && start % 86400 == 0 && Inv(p, s) && Balanced(s, m, d, start)
    requires Enabled(p, s, step) && Fair(s, m, d, step)
    ensures Balanced(Do(p, s, step), m, d, start)
  {
    if Moving(step) {
      MovingKeeps(p, s, step, m, d, start);
    } else if step.Incr? {
      assert RequestOk(p, s.clock, s.reqs[step.id]);
      IncrKeeps(p, s, step.id, step.c, m, d, start);
    } else if step.Limit? || step.Respond? {
      StartKeeps(p, s, step, step.id, m, d, start);
    } else if step.Tick? || step.Vanish? {
      MinutesSame(s, Do(p, s, step), m, start, 1440);
    } else {
      QuietKeeps(s, Do(p, s, step), step.id, m, d, start);
    }
  }

  /** A pipeline starts with both rules or with neither. */
  lemma StartKeeps(p: Policy, s: State, step: Step, id: int, m: Counter, d: Counter, start: int)
    requires Pair(m, d) && Balanced(s, m, d, start) && Enabled(p, s, step)
    requires step == Limit(id) || (step.Respond? && step.id == id)
    ensures Balanced(Do(p, s, step), m, d, start)
  {
    var s' := Do(p, s, step);
    var r := s'.reqs[id];
    PairWindows(m, d, r.phase.t);
    assert Pending(r, m) <==> Pending(r, d);
    QuietKeeps(s, s', id, m, d, start);
  }

  lemma {:induction false} PathBalances(p: Policy, s: State, steps: seq<Step>, s': State, m: Counter, d: Counter, start: int)
    requires ValidPolicy(p) && GatewayClock(p) && Pair(m, d) && start % 86400 == 0 && Inv(p, s) && Balanced(s, m, d, start)
    requires Path(p, s, steps, s') && FairPath(p, s, steps, m, d)
    ensures Balanced(s', m, d, start)
    decreases |steps|
  {
    if steps != [] {
      StepKeeps(p, s, steps[0]);
      StepBalances(p, s, steps[0], m, d, start);
      PathBalances(p, Do(p, s, steps[0]), steps[1..], s', m, d, start);
    }
  }

  lemma {:induction false} NothingCharged(s: State, m: Counter, start: int, n: nat)
    requires s.charged == map[]
    ensures MinutesFrom(s, m, start, n) == 0
  {
    if n > 0 { NothingCharged(s, m, start, n - 1); }
  }

  /** In every run, a day window and the minute windows inside it were charged the same, counting
      what is still queued. */
  lemma DayIsSumOfMinutes(p: Policy, s0: State, steps: seq<Step>, s: State, m: Counter, d: Counter, start: int)
    requires ValidPolicy(p) && GatewayClock(p) && Pair(m, d) && start % 86400 == 0
    requires Initial(s0) && Path(p, s0, steps, s) && FairPath(p, s0, steps, m, d)
    ensures Charged(s, (d, start)) + OnTheWay(s, d, d, start) == MinutesFrom(s, m, start, 1440) + OnTheWay(s, m, d, start)
  {
    NothingCharged(s0, m, start, 1440);
    assert QueuedBy(s0.reqs, m, d, start) == QueuedBy(s0.reqs, d, d, start);
    PathBalances(p, s0, steps, s, m, d, start);
  }

  /** So they agree whenever nothing is queued for either. */
  lemma DayIsSumOfMinutesAtRest(p: Policy, s0: State, steps: seq<Step>, s: State, m: Counter, d: Counter, start: int)
    requires ValidPolicy(p) && GatewayClock(p) && Pair(m, d) && start % 86400 == 0
    requires Initial(s0) && Path(p, s0, steps, s) && FairPath(p, s0, steps, m, d)
    requires forall id :: id in s.reqs ==> !Pending(s.reqs[id], m) && !Pending(s.reqs[id], d)
    ensures Charged(s, (d, start)) == MinutesFrom(s, m, start, 1440)
  {
    DayIsSumOfMinutes(p, s0, steps, s, m, d, start);
    var b, b' := QueuedBy(s.reqs, m, d, start), QueuedBy(s.reqs, d, d, start);
    assert b.Keys == b'.Keys && forall id :: id in b ==> b[id] == b'[id];
    SumOverSame(b.Keys, b, b');
  }

  // ---------------------------------------------------------------------------------------
  // A request dropped inside its pipeline

  lemma OneIsCapped(p: Policy, s: State, id: int)
    requires s.reqs.Keys == {id} && forall c :: c in s.reqs[id].qos ==> p.clients(c) >= 1
    ensures Capped(p, s)
  {
    forall c ensures |Outstanding(s, c)| <= p.clients(c) {
      assert Outstanding(s, c) == if Owes(s.reqs[id], c) then {id} else {};
    }
  }

  /** The only request has read the expiries of both rules and is about to execute its pipeline. */
  function Piped(s0: State, m: Counter, d: Counter, id: int, arm: set<Counter>): State {
    s0.(reqs := map[id := Request({m, d}, Pipe(false, NO_USAGE, s0.clock, {}, {m, d}, arm), map[])])
  }

  lemma AdmittedRun(p: Policy, s0: State, m: Counter, d: Counter, id: int) returns (steps: seq<Step>)
    requires Initial(s0) && Pair(m, d) && m.rule == "rpm"
    requires p.limit(m) >= 1 && p.limit(d) >= 1 && p.clients(m) >= 1 && p.clients(d) >= 1
    ensures Path(p, s0, steps, s0.(reqs := s0.reqs[id := Request({m, d}, Admitted, map[])]))
  {
    var cs, q := [m, d], {m, d};
    assert Elems(cs) == q && Distinct(cs) && cs[..2] == cs && q - q == {};
    forall c ensures |Outstanding(s0, c)| <= p.clients(c) { assert Outstanding(s0, c) == {}; }
    OneIsCapped(p, Asking(s0, id, q, q), id);
    var a := ReadCounters(p, s0, id, cs, 2);
    steps := AdmitAfterReads(p, s0, id, q, a);
  }

  lemma LimitAndRead(p: Policy, s0: State, m: Counter, d: Counter, id: int) returns (steps: seq<Step>, arm: set<Counter>)
    requires Pair(m, d) && m.rule == "rpm" && s0.reqs == map[] && p.clients(m) >= 1 && p.clients(d) >= 1
    ensures var s1 := s0.(reqs := s0.reqs[id := Request({m, d}, Admitted, map[])]);
            Path(p, s1, steps, Piped(s0, m, d, id, arm)) && Capped(p, Piped(s0, m, d, id, arm))
  {
    var cs, q := [m, d], {m, d};
    assert Elems(cs) == q && Distinct(cs) && First(q) == q && {} + q == q;
    var s1 := s0.(reqs := s0.reqs[id := Request(q, Admitted, map[])]);
    OneIsCapped(p, s1, id);
    var r := Request(q, Pipe(false, NO_USAGE, s0.clock, q, {}, {}), map[]);
    var s2 := InPipe(s0, id, r, q, {}, {});
    assert Do(p, s1, Limit(id)).reqs == s1.reqs[id := r] == s2.reqs;
    StepPath(p, s1, Limit(id), id);
    var c := ReadTtls(p, s0, id, r, cs, {});
    arm := Unarmed(p, s0.store, s0.clock, cs);
    assert InPipe(s0, id, r, {}, q, arm).reqs == Piped(s0, m, d, id, arm).reqs;
    PathConcat(p, s1, [Limit(id)], s2, c, Piped(s0, m, d, id, arm));
    steps := [Limit(id)] + c;
  }

  /** The minute rule is charged and the request is dropped. */
  function Dropped(p: Policy, s0: State, m: Counter): State {
    var k := (m, p.win(m, s0.clock));
    State(s0.clock, Apply(s0.store, IncrBy(k, 1)), map[], s0.charged[k := Charged(s0, k) + 1])
  }

  lemma DropRun(p: Policy, s0: State, m: Counter, d: Counter, id: int, arm: set<Counter>)
    requires PerRequest(m) && Capped(p, Piped(s0, m, d, id, arm)) && p.clients(m) >= 1 && p.clients(d) >= 1
    ensures Path(p, Piped(s0, m, d, id, arm), [Incr(id, m), Drop(id)], Dropped(p, s0, m))
  {
    var s1, s := Piped(s0, m, d, id, arm), Dropped(p, s0, m);
    var s2 := Do(p, s1, Incr(id, m));
    OneIsCapped(p, s2, id);
    assert Do(p, s2, Drop(id)).reqs == map[];
    forall c ensures |Outstanding(s, c)| <= p.clients(c) { assert Outstanding(s, c) == {}; }
    assert Path(p, s, [], s);
    PathStep(p, s2, Drop(id), [], s);
    PathStep(p, s1, Incr(id, m), [Drop(id)] + [], s);
    assert [Incr(id, m)] + ([Drop(id)] + []) == [Incr(id, m), Drop(id)];
  }

  lemma RoundedDown(t: int)
    ensures (t - t % 86400) % 86400 == 0
  {
    DivModUnique(t - t % 86400, 86400, t / 86400, 0);
  }

  lemma MinuteAligned(t: int)
    ensures var start, hit := WindowStart(t, 1, Day), WindowStart(t, 1, Minute);
            start % 86400 == 0 && start <= hit < start + 86400 && (hit - start) % 60 == 0
  {
    DayDivisorsAligned(t, 1, Day);
    RoundedDown(t);
    MinuteInDay(t, t - t % 86400);
  }

  lemma PairAligned(m: Counter, d: Counter, t: int)
    requires Pair(m, d)
    ensures var start, hit := WindowOf(d, t), WindowOf(m, t);
            start % 86400 == 0 && start <= hit < start + 86400 && (hit - start) % 60 == 0
  {
    PairWindows(m, d, t);
    MinuteAligned(t / NANOS);
  }

  lemma DropCounts(p: Policy, s0: State, m: Counter, d: Counter)
    requires GatewayTimes(p) && Initial(s0) && Pair(m, d)
    ensures var s, start := Dropped(p, s0, m), WindowOf(d, s0.clock);
            start % 86400 == 0 && Charged(s, (d, start)) == 0 && MinutesFrom(s, m, start, 1440) == 1
  {
    var s, start, hit := Dropped(p, s0, m), WindowOf(d, s0.clock), WindowOf(m, s0.clock);
    PairAligned(m, d, s0.clock);
    NothingCharged(s0, m, start, 1440);
    MinutesPlus(s0, s, m, start, 1440, hit, 1);
  }

  /** Dropped between its two increments, a request leaves the minute charged and the day not, with
      nothing on its way. So the equality does need that no request is dropped there. */
  lemma DroppedRequestBreaksBalance(p: Policy, s0: State, m: Counter, d: Counter, id: int) returns (steps: seq<Step>, s: State)
    requires GatewayTimes(p) && Initial(s0) && Pair(m, d) && m.rule == "rpm"
    requires p.limit(m) >= 1 && p.limit(d) >= 1 && p.clients(m) >= 1 && p.clients(d) >= 1
    ensures Path(p, s0, steps, s) && s.reqs == map[]
    ensures var start := WindowOf(d, s0.clock);
            start % 86400 == 0 && Charged(s, (d, start)) == 0 && MinutesFrom(s, m, start, 1440) == 1
  {
    var a := AdmittedRun(p, s0, m, d, id);
    var b, arm := LimitAndRead(p, s0, m, d, id);
    var s1, s2 := s0.(reqs := s0.reqs[id := Request({m, d}, Admitted, map[])]), Piped(s0, m, d, id, arm);
    s := Dropped(p, s0, m);
    DropRun(p, s0, m, d, id, arm);
    PathConcat(p, s0, a, s1, b, s2);
    PathConcat(p, s0, a + b, s2, [Incr(id, m), Drop(id)], s);
    steps := a + b + [Incr(id, m), Drop(id)];
    DropCounts(p, s0, m, d);
  }
}
