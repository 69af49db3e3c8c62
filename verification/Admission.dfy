/** Admission and accounting under concurrency. Any number of gateway streams share one Redis.
    A stream samples the clock and reads every counter of its QoS, later samples the clock again
    and increments the request counters, and each time its response reports usage it samples the
    clock once more and charges the token counters and quotas. Reads, TTL reads, increments and expiries of
    different streams interleave freely, the clock moves between any two of them, and expired
    keys vanish. */
module Admission {
  import opened Wrappers
  import opened Redis
  import opened Sums
  import opened TokenUsage

  /** A rate counter is one rule of one (namespace, user, model); a quota counter is one type of
      one ArksQuota and may be shared by many users. */
  datatype Counter =
    | Rate(namespace: string, user: string, model: string, rule: string)
    | Quota(namespace: string, name: string, kind: string)

  /** A Redis key: the counter and the start of the window it counts (0 for a quota). */
  type Key = (Counter, int)

  /** Limits and clockwork. `win(c, t)` is the window that a clock sample `t` falls into,
      `life(c)` the shortest expiry set on a key of `c`, `maxCharge(c)` the most that one request
      adds to `c` in all, `clients(c)` the most requests that owe `c` a charge at the same time. */
  datatype Policy = Policy(
    win: (Counter, int) -> int,
    life: Counter -> int,
    limit: Counter -> int,
    maxCharge: Counter -> nat,
    clients: Counter -> nat)

  predicate PerRequest(c: Counter) {
    c.Rate? && (c.rule == "rpm" || c.rule == "rpd")
  }

  /** What one charge adds to `c`: requests count 1, rate rules on tokens the total, quotas the
      count of their own type (a type without a count adds 0). */
  function Amount(c: Counter, u: Usage): int {
    if PerRequest(c) then 1
    else if c.Rate? then u.total
    else if c.kind == "prompt" then u.prompt
    else if c.kind == "response" then u.response
    else if c.kind == "total" then u.total
    else 0
  }

  /** The admission check: a request rule asks for 1 more, every other counter for 0 more. */
  predicate OverLimit(p: Policy, c: Counter, current: int) {
    current + (if PerRequest(c) then 1 else 0) > p.limit(c)
  }

  /** The largest value that still passes the check. */
  function Threshold(p: Policy, c: Counter): int {
    if PerRequest(c) then p.limit(c) - 1 else p.limit(c)
  }

  ghost predicate ValidPolicy(p: Policy) {
    && (forall c: Counter, t1, t2 :: t1 <= t2 ==> p.win(c, t1) <= p.win(c, t2))
    && (forall c: Counter, t1, t2 :: c.Rate? && t1 + p.life(c) <= t2 ==> p.win(c, t1) < p.win(c, t2))
    && (forall c :: PerRequest(c) ==> p.maxCharge(c) == 1)
  }

  /** Where a request is. `Checking`: one clock sample `t`, counters in `todo` not yet read.
      `Pipe`: one clock sample `t`; TTLs of `todo` not yet read; INCRBY of `incr` and EXPIRE of
      `arm` queued or not yet executed; `second` separates the response-time charges. */
  datatype Phase =
    | Checking(t: int, todo: set<Counter>)
    | Admitted
    | Pipe(second: bool, usage: Usage, t: int, todo: set<Counter>, incr: set<Counter>, arm: set<Counter>)
    | InFlight

  /** `spent` is what the response has reported so far, per token counter. */
  datatype Request = Request(qos: set<Counter>, phase: Phase, spent: map<Counter, int>)

  function Spent(r: Request, c: Counter): int { if c in r.spent then r.spent[c] else 0 }

  /** `charged` remembers every increment ever made, per key, also after the key expired. */
  datatype State = State(clock: int, store: Store<Key>, reqs: map<int, Request>, charged: map<Key, int>)

  datatype Step =
    | Tick(now: int)
    | Vanish(key: Key)
    | Arrive(id: int, qos: set<Counter>)
    | Read(id: int, c: Counter)
    | Admit(id: int)
    | Limit(id: int)
    | Respond(id: int, usage: Usage)
    | ReadTtl(id: int, c: Counter)
    | Incr(id: int, c: Counter)
    | Arm(id: int, c: Counter, extra: nat)
    | Finish(id: int)
    | Drop(id: int)

  function First(q: set<Counter>): set<Counter> { set c | c in q && PerRequest(c) }

  function Second(q: set<Counter>): set<Counter> { set c | c in q && !PerRequest(c) }

  function Charged(s: State, k: Key): int { if k in s.charged then s.charged[k] else 0 }

  /** When a step can happen. A read that finds a counter over its limit is not a `Read` step:
      that request is answered with an error, which is a `Drop`. `Drop` also covers every other
      way a request ends early, at any point. */
  predicate Enabled(p: Policy, s: State, step: Step) {
    match step
    case Tick(now) => s.clock <= now
    case Vanish(k) => k in s.store && s.store[k].expireAt.Some? && s.store[k].expireAt.value <= s.clock
    case Arrive(id, q) => id !in s.reqs
    case Read(id, c) =>
      && id in s.reqs && s.reqs[id].phase.Checking? && c in s.reqs[id].phase.todo
      && !OverLimit(p, c, Get(s.store, (c, p.win(c, s.reqs[id].phase.t))))
    case Admit(id) => id in s.reqs && s.reqs[id].phase.Checking? && s.reqs[id].phase.todo == {}
    case Limit(id) => id in s.reqs && s.reqs[id].phase.Admitted?
    case Respond(id, u) =>
      && id in s.reqs && s.reqs[id].phase.InFlight?
      && forall c :: c in Second(s.reqs[id].qos) ==> 0 <= Amount(c, u) <= p.maxCharge(c) - Spent(s.reqs[id], c)
    case ReadTtl(id, c) => id in s.reqs && s.reqs[id].phase.Pipe? && c in s.reqs[id].phase.todo
    case Incr(id, c) =>
      id in s.reqs && s.reqs[id].phase.Pipe? && s.reqs[id].phase.todo == {} && c in s.reqs[id].phase.incr
    case Arm(id, c, _) =>
      && id in s.reqs && s.reqs[id].phase.Pipe? && s.reqs[id].phase.todo == {}
      && c in s.reqs[id].phase.arm && c !in s.reqs[id].phase.incr
    case Finish(id) =>
      && id in s.reqs && s.reqs[id].phase.Pipe? && s.reqs[id].phase.todo == {}
      && s.reqs[id].phase.incr == {} && s.reqs[id].phase.arm == {}
    case Drop(id) => id in s.reqs
  }

  function WithPhase(s: State, id: int, ph: Phase): State
    requires id in s.reqs
  {
    s.(reqs := s.reqs[id := s.reqs[id].(phase := ph)])
  }

  /** The request once its response has reported usage `u`. */
  function Reported(r: Request, u: Usage, now: int): Request {
    var q := Second(r.qos);
    Request(r.qos, Pipe(true, u, now, set c | c in q && c.Rate?, set c | c in q && c.Quota?, {}),
            map c | c in q :: Spent(r, c) + Amount(c, u))
  }

  function Do(p: Policy, s: State, step: Step): State
    requires Enabled(p, s, step)
  {
    match step
    case Tick(now) => s.(clock := now)
    case Vanish(k) => s.(store := s.store - {k})
    case Arrive(id, q) => s.(reqs := s.reqs[id := Request(q, Checking(s.clock, q), map[])])
    case Read(id, c) =>
      var ph := s.reqs[id].phase;
      WithPhase(s, id, Checking(ph.t, ph.todo - {c}))
    case Admit(id) => WithPhase(s, id, Admitted)
    case Limit(id) => WithPhase(s, id, Pipe(false, NO_USAGE, s.clock, First(s.reqs[id].qos), {}, {}))
    case Respond(id, u) =>
      s.(reqs := s.reqs[id := Reported(s.reqs[id], u, s.clock)])
    case ReadTtl(id, c) =>
      var ph := s.reqs[id].phase;
      var armed := Ttl(s.store, (c, p.win(c, ph.t)), s.clock) < 0;
      WithPhase(s, id, ph.(todo := ph.todo - {c}, incr := ph.incr + {c},
                           arm := if armed then ph.arm + {c} else ph.arm))
    case Incr(id, c) =>
      var ph := s.reqs[id].phase;
      var k := (c, p.win(c, ph.t));
      var a := Amount(c, ph.usage);
      WithPhase(s, id, ph.(incr := ph.incr - {c}))
      .(store := Apply(s.store, IncrBy(k, a)), charged := s.charged[k := Charged(s, k) + a])
    case Arm(id, c, extra) =>
      var ph := s.reqs[id].phase;
      WithPhase(s, id, ph.(arm := ph.arm - {c}))
      .(store := Apply(s.store, Expire((c, p.win(c, ph.t)), s.clock + p.life(c) + extra)))
    case Finish(id) => WithPhase(s, id, InFlight)
    case Drop(id) => s.(reqs := s.reqs - {id})
  }

  // ---------------------------------------------------------------------------------------
  // Who can still charge what

  /** The request still has a charge to `c` ahead of it. */
  predicate Owes(r: Request, c: Counter) {
    && c in r.qos
    && match r.phase
       case Checking(_, _) => true
       case Admitted => true
       case Pipe(_, _, _, todo, incr, _) => c in todo || c in incr || !PerRequest(c)
       case InFlight => !PerRequest(c)
  }

  function Outstanding(s: State, c: Counter): set<int> {
    set id | id in s.reqs && Owes(s.reqs[id], c)
  }

  /** The charge ahead can still land in window `w`. A request that has not read `c` yet is
      counted only for windows after the one it will read: the read of `w` itself decides. */
  predicate MayCharge(p: Policy, clock: int, r: Request, c: Counter, w: int) {
    && Owes(r, c)
    && match r.phase
       case Checking(t, todo) => if c in todo then p.win(c, t) < w else p.win(c, clock) <= w
       case Admitted => p.win(c, clock) <= w
       case Pipe(_, _, t, todo, incr, _) =>
         || ((c in todo || c in incr) && p.win(c, t) == w)
         || (!PerRequest(c) && p.win(c, clock) <= w)
       case InFlight => p.win(c, clock) <= w
  }

  /** The charge to `c` is queued but not made. */
  predicate Pending(r: Request, c: Counter) { r.phase.Pipe? && (c in r.phase.todo || c in r.phase.incr) }

  /** What the request can still add to `c`. */
  function Remaining(p: Policy, r: Request, c: Counter): int {
    if PerRequest(c) then 1
    else p.maxCharge(c) - Spent(r, c) + if Pending(r, c) then Amount(c, r.phase.usage) else 0
  }

  /** What each request can still add to window `k.1` of `k.0`. */
  function Budgets(p: Policy, s: State, k: Key): map<int, int> {
    map id | id in s.reqs && MayCharge(p, s.clock, s.reqs[id], k.0, k.1) :: Remaining(p, s.reqs[id], k.0)
  }

  // ---------------------------------------------------------------------------------------
  // The invariant

  /** The request is past the check of `c`. */
  predicate Passed(r: Request, c: Counter) {
    c in r.qos && !(r.phase.Checking? && c in r.phase.todo)
  }

  ghost predicate RequestOk(p: Policy, clock: int, r: Request) {
    && (r.phase.Checking? ==> r.phase.t <= clock && r.phase.todo <= r.qos)
    && (r.phase.Pipe? ==>
          && r.phase.t <= clock
          && r.phase.todo !! r.phase.incr
          && r.phase.todo + r.phase.incr + r.phase.arm <= r.qos
          && (forall c :: c in r.phase.todo + r.phase.incr ==> PerRequest(c) == !r.phase.second)
          && (forall c :: c in r.phase.todo + r.phase.arm ==> c.Rate?)
          && (forall c :: c in r.phase.todo + r.phase.incr ==>
                0 <= Amount(c, r.phase.usage) && (!PerRequest(c) ==> Amount(c, r.phase.usage) <= Spent(r, c))))
    && (forall c :: c in r.qos && !PerRequest(c) ==> 0 <= Spent(r, c) <= p.maxCharge(c))
    && (forall c :: Passed(r, c) ==> Threshold(p, c) >= 0)
  }

  ghost predicate ExpiryOk(p: Policy, s: State) {
    forall k: Key, t :: k in s.store && s.store[k].expireAt.Some? && s.store[k].expireAt.value <= t
                   ==> k.1 < p.win(k.0, t)
  }

  ghost predicate CountsOk(p: Policy, s: State) {
    && (forall k: Key :: p.win(k.0, s.clock) <= k.1 ==> Get(s.store, k) == Charged(s, k))
    && (forall k: Key :: 0 <= Charged(s, k) && 0 <= Get(s.store, k))
    && (forall k: Key :: 0 < Charged(s, k) ==> k.1 <= p.win(k.0, s.clock) && Threshold(p, k.0) >= 0)
  }

  /** The heart of the proof: a window that has passed its threshold has room for everything that
      can still be charged to it. */
  ghost predicate WithinBound(p: Policy, s: State, k: Key) {
    || Charged(s, k) <= Threshold(p, k.0)
    || Charged(s, k) + Sum(Budgets(p, s, k))
       <= Threshold(p, k.0) + p.maxCharge(k.0) * p.clients(k.0)
  }

  ghost predicate Inv(p: Policy, s: State) {
    && (forall id :: id in s.reqs ==> RequestOk(p, s.clock, s.reqs[id]))
    && ExpiryOk(p, s)
    && CountsOk(p, s)
    && (forall k: Key :: Charged(s, k) > 0 ==> WithinBound(p, s, k))
  }

  predicate Initial(s: State) { s.store == map[] && s.reqs == map[] && s.charged == map[] }

  /** The concurrency assumption on a state. */
  ghost predicate Capped(p: Policy, s: State) {
    forall c :: |Outstanding(s, c)| <= p.clients(c)
  }

  lemma SubsetSize(a: set<int>, b: set<int>)
    requires a <= b
    ensures |a| <= |b|
  {
    assert b == a + (b - a);
  }

  lemma MulMono(m: nat, a: nat, b: nat)
    requires a <= b
    ensures m * a <= m * b
  {
  }

  lemma BudgetsOk(p: Policy, s: State, k: Key)
    requires ValidPolicy(p) && Inv(p, s)
    ensures forall id :: id in Budgets(p, s, k) ==> 0 <= Budgets(p, s, k)[id] <= p.maxCharge(k.0)
  {
    forall id | id in Budgets(p, s, k) ensures 0 <= Budgets(p, s, k)[id] <= p.maxCharge(k.0) {
      assert RequestOk(p, s.clock, s.reqs[id]);
    }
  }

  /** No request can add more to window `k.1` than before. */
  predicate Shrinks(p: Policy, s: State, s': State, k: Key) {
    var b, b' := Budgets(p, s, k), Budgets(p, s', k);
    b'.Keys <= b.Keys && forall id :: id in b' ==> b'[id] <= b[id]
  }

  /** Smaller budgets and the same charge keep a key within its bound. */
  lemma BoundShrinks(p: Policy, s: State, s': State, k: Key)
    requires ValidPolicy(p) && Inv(p, s) && WithinBound(p, s, k)
    requires Charged(s', k) == Charged(s, k) && Shrinks(p, s, s', k)
    ensures WithinBound(p, s', k)
  {
    BudgetsOk(p, s, k);
    SumMono(Budgets(p, s', k), Budgets(p, s, k));
  }

  /** A step that changes no charge and raises no budget of any key that has already passed its
      threshold. */
  ghost predicate NoNewBudget(p: Policy, s: State, s': State) {
    && s'.charged == s.charged
    && forall k: Key :: Charged(s, k) > 0 && Charged(s, k) > Threshold(p, k.0) ==> Shrinks(p, s, s', k)
  }

  lemma BoundKept(p: Policy, s: State, s': State)
    requires ValidPolicy(p) && Inv(p, s) && NoNewBudget(p, s, s')
    ensures forall k: Key :: Charged(s', k) > 0 ==> WithinBound(p, s', k)
  {
    forall k: Key | Charged(s', k) > 0 ensures WithinBound(p, s', k) {
      if Charged(s, k) > Threshold(p, k.0) {
        assert WithinBound(p, s, k);
        BoundShrinks(p, s, s', k);
      }
    }
  }

  lemma TickKeeps(p: Policy, s: State, now: int)
    requires ValidPolicy(p) && Inv(p, s) && s.clock <= now
    ensures Inv(p, Do(p, s, Tick(now)))
  {
    var s' := Do(p, s, Tick(now));
    forall k: Key ensures Shrinks(p, s, s', k) {
      forall i | i in Budgets(p, s', k) ensures i in Budgets(p, s, k) { }
    }
    BoundKept(p, s, s');
  }

  lemma VanishKeeps(p: Policy, s: State, k: Key)
    requires ValidPolicy(p) && Inv(p, s) && Enabled(p, s, Vanish(k))
    ensures Inv(p, Do(p, s, Vanish(k)))
  {
    BoundKept(p, s, Do(p, s, Vanish(k)));
  }

  lemma ArriveKeeps(p: Policy, s: State, id: int, q: set<Counter>)
    requires ValidPolicy(p) && Inv(p, s) && Enabled(p, s, Arrive(id, q))
    ensures Inv(p, Do(p, s, Arrive(id, q)))
  {
    var s' := Do(p, s, Arrive(id, q));
    forall k: Key | Charged(s, k) > 0 ensures Shrinks(p, s, s', k) {
      forall i | i in Budgets(p, s', k) ensures i in Budgets(p, s, k) { }
    }
    BoundKept(p, s, s');
  }

  lemma ReadKeeps(p: Policy, s: State, id: int, c: Counter)
    requires ValidPolicy(p) && Inv(p, s) && Enabled(p, s, Read(id, c))
    ensures Inv(p, Do(p, s, Read(id, c)))
  {
    var s' := Do(p, s, Read(id, c));
    var t := s.reqs[id].phase.t;
    assert RequestOk(p, s.clock, s.reqs[id]);
    assert Get(s.store, (c, p.win(c, t))) <= Threshold(p, c);
    BoundKept(p, s, s');
  }

  /** The request changes into `r'`, which can add nothing that it could not add before. */
  ghost predicate Moves(p: Policy, clock: int, r: Request, r': Request) {
    && RequestOk(p, clock, r')
    && forall c, w :: MayCharge(p, clock, r', c, w) ==> MayCharge(p, clock, r, c, w) && Remaining(p, r', c) <= Remaining(p, r, c)
  }

  lemma RequestMoves(p: Policy, s: State, id: int, r': Request)
    requires ValidPolicy(p) && Inv(p, s) && id in s.reqs && Moves(p, s.clock, s.reqs[id], r')
    ensures Inv(p, s.(reqs := s.reqs[id := r']))
  {
    var s' := s.(reqs := s.reqs[id := r']);
    forall k: Key ensures Shrinks(p, s, s', k) { }
    BoundKept(p, s, s');
  }

  lemma RequestLeaves(p: Policy, s: State, id: int)
    requires ValidPolicy(p) && Inv(p, s) && id in s.reqs
    ensures Inv(p, s.(reqs := s.reqs - {id}))
  {
    var s' := s.(reqs := s.reqs - {id});
    forall k: Key ensures Shrinks(p, s, s', k) { }
    BoundKept(p, s, s');
  }

  lemma LimitKeeps(p: Policy, s: State, id: int)
    requires ValidPolicy(p) && Inv(p, s) && Enabled(p, s, Limit(id))
    ensures Inv(p, Do(p, s, Limit(id)))
  {
    assert RequestOk(p, s.clock, s.reqs[id]);
    RequestMoves(p, s, id, Do(p, s, Limit(id)).reqs[id]);
  }

  lemma RespondKeeps(p: Policy, s: State, id: int, u: Usage)
    requires ValidPolicy(p) && Inv(p, s) && Enabled(p, s, Respond(id, u))
    ensures Inv(p, Do(p, s, Respond(id, u)))
  {
    assert RequestOk(p, s.clock, s.reqs[id]);
    RequestMoves(p, s, id, Reported(s.reqs[id], u, s.clock));
  }

  lemma ReadTtlKeeps(p: Policy, s: State, id: int, c: Counter)
    requires ValidPolicy(p) && Inv(p, s) && Enabled(p, s, ReadTtl(id, c))
    ensures Inv(p, Do(p, s, ReadTtl(id, c)))
  {
    assert RequestOk(p, s.clock, s.reqs[id]);
    RequestMoves(p, s, id, Do(p, s, ReadTtl(id, c)).reqs[id]);
  }

  lemma AdmitKeeps(p: Policy, s: State, id: int)
    requires ValidPolicy(p) && Inv(p, s) && Enabled(p, s, Admit(id))
    ensures Inv(p, Do(p, s, Admit(id)))
  {
    assert RequestOk(p, s.clock, s.reqs[id]);
    RequestMoves(p, s, id, s.reqs[id].(phase := Admitted));
  }

  lemma FinishKeeps(p: Policy, s: State, id: int)
    requires ValidPolicy(p) && Inv(p, s) && Enabled(p, s, Finish(id))
    ensures Inv(p, Do(p, s, Finish(id)))
  {
    assert RequestOk(p, s.clock, s.reqs[id]);
    RequestMoves(p, s, id, s.reqs[id].(phase := InFlight));
  }

  /** An EXPIRE that outlives the window of its key. */
  lemma ExpireKeeps(p: Policy, s: State, k: Key, at: int)
    requires ValidPolicy(p) && Inv(p, s)
    requires forall t :: at <= t ==> k.1 < p.win(k.0, t)
    ensures Inv(p, s.(store := Apply(s.store, Expire(k, at))))
  {
    var s' := s.(store := Apply(s.store, Expire(k, at)));
    forall x: Key ensures Get(s'.store, x) == Get(s.store, x) { }
    forall x: Key ensures Shrinks(p, s, s', x) { }
    BoundKept(p, s, s');
  }

  lemma ArmMoves(p: Policy, s: State, id: int, c: Counter)
    requires ValidPolicy(p) && Inv(p, s) && Enabled(p, s, Arm(id, c, 0))
    ensures Inv(p, WithPhase(s, id, s.reqs[id].phase.(arm := s.reqs[id].phase.arm - {c})))
    ensures c.Rate? && s.reqs[id].phase.t <= s.clock
  {
    assert RequestOk(p, s.clock, s.reqs[id]);
    var ph := s.reqs[id].phase;
    var r' := s.reqs[id].(phase := Pipe(ph.second, ph.usage, ph.t, ph.todo, ph.incr, ph.arm - {c}));
    forall d, w | MayCharge(p, s.clock, r', d, w)
      ensures MayCharge(p, s.clock, s.reqs[id], d, w) && Remaining(p, r', d) <= Remaining(p, s.reqs[id], d) { }
    RequestMoves(p, s, id, r');
  }

  lemma LifeOutlivesWindow(p: Policy, c: Counter, t0: int, at: int)
    requires ValidPolicy(p) && c.Rate? && t0 + p.life(c) <= at
    ensures forall t :: at <= t ==> p.win(c, t0) < p.win(c, t)
  {
  }

  lemma ArmKeeps(p: Policy, s: State, id: int, c: Counter, extra: nat)
    requires ValidPolicy(p) && Inv(p, s) && Enabled(p, s, Arm(id, c, extra))
    ensures Inv(p, Do(p, s, Arm(id, c, extra)))
  {
    var ph := s.reqs[id].phase;
    var at := s.clock + p.life(c) + extra;
    assert Do(p, s, Arm(id, c, extra))
        == WithPhase(s, id, ph.(arm := ph.arm - {c})).(store := Apply(s.store, Expire((c, p.win(c, ph.t)), at)));
    ArmMoves(p, s, id, c);
    LifeOutlivesWindow(p, c, ph.t, at);
    ExpireKeeps(p, WithPhase(s, id, ph.(arm := ph.arm - {c})), (c, p.win(c, ph.t)), at);
  }

  /** What a charge does to the charging request. */
  lemma IncrRequest(p: Policy, s: State, id: int, c: Counter, x: Counter, w: int)
    requires Inv(p, s) && Enabled(p, s, Incr(id, c))
    ensures var r, r' := s.reqs[id], Do(p, s, Incr(id, c)).reqs[id];
            && (MayCharge(p, s.clock, r', x, w) ==> MayCharge(p, s.clock, r, x, w) && Remaining(p, r', x) <= Remaining(p, r, x))
            && (x == c && w == p.win(c, r.phase.t) ==>
                  && MayCharge(p, s.clock, r, x, w) && Amount(c, r.phase.usage) <= Remaining(p, r, x)
                  && (MayCharge(p, s.clock, r', x, w) ==> Remaining(p, r', x) <= Remaining(p, r, x) - Amount(c, r.phase.usage)))
  {
    assert RequestOk(p, s.clock, s.reqs[id]);
  }

  /** The charge itself takes as much out of the charging request's budget as it adds to the key,
      and raises no budget of any key. */
  lemma IncrBudgets(p: Policy, s: State, id: int, c: Counter, k: Key)
    requires Inv(p, s) && Enabled(p, s, Incr(id, c))
    ensures Shrinks(p, s, Do(p, s, Incr(id, c)), k)
    ensures var b, b' := Budgets(p, s, k), Budgets(p, Do(p, s, Incr(id, c)), k);
            && (forall i :: i in b && i != id ==> i in b' && b'[i] == b[i])
            && (k == (c, p.win(c, s.reqs[id].phase.t)) ==>
                  id in b && At(b', id) <= b[id] - Amount(c, s.reqs[id].phase.usage))
  {
    IncrRequest(p, s, id, c, k.0, k.1);
    var s' := Do(p, s, Incr(id, c));
    assert s'.clock == s.clock && s'.reqs.Keys == s.reqs.Keys;
    assert forall i :: i in s.reqs && i != id ==> s'.reqs[i] == s.reqs[i];
  }

  lemma IncrWithinBound(p: Policy, s: State, id: int, c: Counter)
    requires ValidPolicy(p) && Inv(p, s) && Capped(p, s) && Enabled(p, s, Incr(id, c))
    ensures WithinBound(p, Do(p, s, Incr(id, c)), (c, p.win(c, s.reqs[id].phase.t)))
  {
    var s' := Do(p, s, Incr(id, c));
    var k := (c, p.win(c, s.reqs[id].phase.t));
    var before, after := Budgets(p, s, k), Budgets(p, s', k);
    IncrBudgets(p, s, id, c, k);
    SumChange(before, after, id);
    BudgetsFit(p, s, k);
    assert Charged(s, k) > Threshold(p, c) ==> WithinBound(p, s, k);
  }

  /** The budgets of a window never exceed what all clients together may charge. */
  lemma BudgetsFit(p: Policy, s: State, k: Key)
    requires ValidPolicy(p) && Inv(p, s) && Capped(p, s)
    ensures Sum(Budgets(p, s, k)) <= p.maxCharge(k.0) * p.clients(k.0)
  {
    var b := Budgets(p, s, k);
    BudgetsOk(p, s, k);
    SumOverCap(b.Keys, b, p.maxCharge(k.0));
    forall i | i in b.Keys ensures i in Outstanding(s, k.0) { }
    SubsetSize(b.Keys, Outstanding(s, k.0));
    MulMono(p.maxCharge(k.0), |b.Keys|, p.clients(k.0));
  }

  lemma IncrKeepsCounts(p: Policy, s: State, id: int, c: Counter)
    requires ValidPolicy(p) && Inv(p, s) && Enabled(p, s, Incr(id, c))
    ensures ExpiryOk(p, Do(p, s, Incr(id, c))) && CountsOk(p, Do(p, s, Incr(id, c)))
  {
    assert RequestOk(p, s.clock, s.reqs[id]);
    assert Passed(s.reqs[id], c);
  }

  lemma IncrKeeps(p: Policy, s: State, id: int, c: Counter)
    requires ValidPolicy(p) && Inv(p, s) && Capped(p, s) && Enabled(p, s, Incr(id, c))
    ensures Inv(p, Do(p, s, Incr(id, c)))
  {
    var s' := Do(p, s, Incr(id, c));
    IncrKeepsCounts(p, s, id, c);
    forall i | i in s'.reqs ensures RequestOk(p, s'.clock, s'.reqs[i]) {
      assert RequestOk(p, s.clock, s.reqs[i]);
    }
    forall k: Key | Charged(s', k) > 0 ensures WithinBound(p, s', k) {
      if k == (c, p.win(c, s.reqs[id].phase.t)) {
        IncrWithinBound(p, s, id, c);
      } else {
        IncrBudgets(p, s, id, c, k);
        BoundShrinks(p, s, s', k);
      }
    }
  }

  lemma StepKeeps(p: Policy, s: State, step: Step)
    requires ValidPolicy(p) && Inv(p, s) && Capped(p, s) && Enabled(p, s, step)
    ensures Inv(p, Do(p, s, step))
  {
    match step
    case Tick(now) => TickKeeps(p, s, now);
    case Vanish(k) => VanishKeeps(p, s, k);
    case Arrive(id, q) => ArriveKeeps(p, s, id, q);
    case Read(id, c) => ReadKeeps(p, s, id, c);
    case Incr(id, c) => IncrKeeps(p, s, id, c);
    case Arm(id, c, extra) => ArmKeeps(p, s, id, c, extra);
    case Admit(id) => AdmitKeeps(p, s, id);
    case Limit(id) => LimitKeeps(p, s, id);
    case Respond(id, u) => RespondKeeps(p, s, id, u);
    case ReadTtl(id, c) => ReadTtlKeeps(p, s, id, c);
    case Finish(id) => FinishKeeps(p, s, id);
    case Drop(id) => RequestLeaves(p, s, id);
  }
}
