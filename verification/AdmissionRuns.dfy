/** The admission theorems over whole runs, and a run that attains the bound. */
module AdmissionRuns {
  import opened Wrappers
  import opened Redis
  import opened Sums
  import opened TokenUsage
  import opened Admission

  /** `steps` leads from `s` to `s'`, and in every state on the way at most `clients(c)` requests
      owe a charge to `c`. */
  ghost predicate Path(p: Policy, s: State, steps: seq<Step>, s': State)
    decreases |steps|
  {
    && Capped(p, s)
    && if steps == [] then s' == s
       else Enabled(p, s, steps[0]) && Path(p, Do(p, s, steps[0]), steps[1..], s')
  }

  ghost predicate Reachable(p: Policy, s: State) {
    exists s0, steps :: Initial(s0) && Path(p, s0, steps, s)
  }

  lemma {:induction false} PathKeeps(p: Policy, s: State, steps: seq<Step>, s': State)
    requires ValidPolicy(p) && Inv(p, s) && Path(p, s, steps, s')
    ensures Inv(p, s')
    decreases |steps|
  {
    if steps != [] {
      StepKeeps(p, s, steps[0]);
      PathKeeps(p, Do(p, s, steps[0]), steps[1..], s');
    }
  }

  lemma ReachableInv(p: Policy, s: State)
    requires ValidPolicy(p) && Reachable(p, s)
    ensures Inv(p, s)
  {
    var s0, steps :| Initial(s0) && Path(p, s0, steps, s);
    PathKeeps(p, s0, steps, s);
  }

  lemma BoundHolds(p: Policy, s: State, k: Key)
    requires ValidPolicy(p) && Reachable(p, s)
    ensures Threshold(p, k.0) >= 0 ==> Charged(s, k) <= Threshold(p, k.0) + p.maxCharge(k.0) * p.clients(k.0)
    ensures Threshold(p, k.0) < 0 ==> Charged(s, k) == 0
  {
    ReachableInv(p, s);
    BudgetsOk(p, s, k);
    SumNonNegative(Budgets(p, s, k));
    MulMono(p.maxCharge(k.0), 0, p.clients(k.0));
    if Charged(s, k) > 0 {
      assert WithinBound(p, s, k);
    }
  }

  /** With at most K requests between the clock sample of their check and their increment, no
      window of a request rule is ever charged more than L - 1 + K, also when requests check in
      one window and increment in the next. A limit of 0 admits nothing. */
  lemma RequestsBounded(p: Policy, s: State, c: Counter, w: int)
    requires ValidPolicy(p) && Reachable(p, s) && PerRequest(c)
    ensures p.limit(c) >= 1 ==> Charged(s, (c, w)) <= p.limit(c) - 1 + p.clients(c)
    ensures p.limit(c) <= 0 ==> Charged(s, (c, w)) == 0
  {
    BoundHolds(p, s, (c, w));
  }

  /** Tokens are checked at request time and charged whenever the response reports usage: a token
      window or a quota overshoots its limit by at most M tokens for each of the K outstanding
      requests, when a request charges at most M in all, in however many parts. */
  lemma TokensBounded(p: Policy, s: State, c: Counter, w: int)
    requires ValidPolicy(p) && Reachable(p, s) && !PerRequest(c)
    ensures p.limit(c) >= 0 ==> Charged(s, (c, w)) <= p.limit(c) + p.maxCharge(c) * p.clients(c)
    ensures p.limit(c) < 0 ==> Charged(s, (c, w)) == 0
  {
    BoundHolds(p, s, (c, w));
  }

  /** No key expires while its window lasts, however TTL reads and EXPIREs of different requests
      interleave; so a live window's Redis value is exactly what was charged to it. */
  lemma LiveWindowExact(p: Policy, s: State, k: Key)
    requires ValidPolicy(p) && Reachable(p, s)
    ensures p.win(k.0, s.clock) <= k.1 ==> Get(s.store, k) == Charged(s, k)
    ensures k in s.store && s.store[k].expireAt.Some? ==>
              forall t :: p.win(k.0, t) <= k.1 ==> t < s.store[k].expireAt.value
  {
    ReachableInv(p, s);
  }

  // ---------------------------------------------------------------------------------------
  // The bound is attained

  lemma {:induction false} PathConcat(p: Policy, s: State, a: seq<Step>, m: State, b: seq<Step>, s': State)
    requires Path(p, s, a, m) && Path(p, m, b, s')
    ensures Path(p, s, a + b, s')
    decreases |a|
  {
    if a == [] {
      assert a + b == b;
    } else {
      assert (a + b)[1..] == a[1..] + b;
      PathConcat(p, Do(p, s, a[0]), a[1..], m, b, s');
    }
  }

  lemma PathStep(p: Policy, s: State, step: Step, rest: seq<Step>, s': State)
    requires Capped(p, s) && Enabled(p, s, step) && Path(p, Do(p, s, step), rest, s')
    ensures Path(p, s, [step] + rest, s')
  {
    assert ([step] + rest)[1..] == rest;
  }

  /** Every request has the single counter `c`, and there are at most `clients(c)` of them. */
  predicate Crowd(p: Policy, s: State, c: Counter) {
    (forall id :: id in s.reqs ==> s.reqs[id].qos == {c}) && |s.reqs.Keys| <= p.clients(c)
  }

  lemma CrowdCapped(p: Policy, s: State, c: Counter)
    requires Crowd(p, s, c)
    ensures Capped(p, s)
  {
    forall d ensures |Outstanding(s, d)| <= p.clients(d) {
      if d == c {
        SubsetSize(Outstanding(s, c), s.reqs.Keys);
      } else {
        forall id | id in s.reqs ensures !Owes(s.reqs[id], d) {
          assert s.reqs[id].qos == {c};
        }
        assert Outstanding(s, d) == {};
      }
    }
  }

  lemma CrowdStep(p: Policy, s: State, c: Counter, step: Step, m: State, rest: seq<Step>, s': State)
    requires Crowd(p, s, c) && Enabled(p, s, step) && Do(p, s, step) == m && Path(p, m, rest, s')
    ensures Path(p, s, [step] + rest, s')
  {
    CrowdCapped(p, s, c);
    PathStep(p, s, step, rest, s');
  }

  function Put(s: State, id: int, r: Request): State { s.(reqs := s.reqs[id := r]) }

  lemma PutCrowd(p: Policy, s: State, id: int, r: Request, c: Counter)
    requires Crowd(p, s, c) && r.qos == {c} && (id in s.reqs || |s.reqs.Keys| < p.clients(c))
    ensures Crowd(p, Put(s, id, r), c)
  {
    assert Put(s, id, r).reqs.Keys == s.reqs.Keys + {id};
  }

  function Waiting(c: Counter): Request { Request({c}, Admitted, map[]) }

  /** Request `id` arrives, reads its counter below the threshold and is admitted. */
  lemma AdmitOne(p: Policy, s: State, id: int, c: Counter) returns (steps: seq<Step>)
    requires Crowd(p, s, c) && id !in s.reqs && |s.reqs.Keys| < p.clients(c)
    requires Get(s.store, (c, p.win(c, s.clock))) <= Threshold(p, c)
    ensures Path(p, s, steps, Put(s, id, Waiting(c)))
  {
    var r1, r2 := Request({c}, Checking(s.clock, {c}), map[]), Request({c}, Checking(s.clock, {}), map[]);
    var s1, s2, s3 := Put(s, id, r1), Put(s, id, r2), Put(s, id, Waiting(c));
    PutCrowd(p, s, id, r1, c);
    PutCrowd(p, s, id, r2, c);
    PutCrowd(p, s, id, Waiting(c), c);
    CrowdCapped(p, s3, c);
    assert Path(p, s3, [], s3);
    assert {c} - {c} == {};
    CrowdStep(p, s2, c, Admit(id), s3, [], s3);
    CrowdStep(p, s1, c, Read(id, c), s2, [Admit(id)] + [], s3);
    CrowdStep(p, s, c, Arrive(id, {c}), s1, [Read(id, c)] + ([Admit(id)] + []), s3);
    steps := [Arrive(id, {c})] + ([Read(id, c)] + ([Admit(id)] + []));
  }

  /** What the pipeline of one charge leaves in Redis: one INCRBY, and an EXPIRE if it is to be set. */
  function AfterCharge(p: Policy, s: State, c: Counter, amount: int, armed: bool): State {
    var k := (c, p.win(c, s.clock));
    var up := Apply(s.store, IncrBy(k, amount));
    s.(store := if armed then Apply(up, Expire(k, s.clock + p.life(c) + 0)) else up,
       charged := s.charged[k := Charged(s, k) + amount])
  }

  lemma PutTwice(p: Policy, s: State, id: int, r: Request, r': Request, c: Counter, amount: int, armed: bool)
    ensures Put(AfterCharge(p, Put(s, id, r), c, amount, armed), id, r') == Put(AfterCharge(p, s, c, amount, armed), id, r')
  {
    assert s.reqs[id := r][id := r'] == s.reqs[id := r'];
  }

  /** A request of counter `c` in a pipeline that it started at clock value `t`. */
  function Piping(c: Counter, b: Request, t: int, todo: set<Counter>, incr: set<Counter>, arm: set<Counter>): Request
    requires b.phase.Pipe?
  {
    Request({c}, Pipe(b.phase.second, b.phase.usage, t, todo, incr, arm), b.spent)
  }

  lemma ArmStep(p: Policy, s: State, id: int, c: Counter, b: Request, rest: seq<Step>, s': State)
    requires Crowd(p, s, c) && id in s.reqs && b.phase.Pipe? && s.reqs[id] == Piping(c, b, s.clock, {}, {}, {c})
    requires var k := (c, p.win(c, s.clock));
             Path(p, Put(s, id, Piping(c, b, s.clock, {}, {}, {}))
                     .(store := Apply(s.store, Expire(k, s.clock + p.life(c) + 0))), rest, s')
    ensures Path(p, s, [Arm(id, c, 0)] + rest, s')
  {
    var ph := s.reqs[id].phase;
    assert ph.arm - {c} == {};
    var m := Put(s, id, Piping(c, b, s.clock, {}, {}, {}));
    assert WithPhase(s, id, ph.(arm := ph.arm - {c})) == m;
    CrowdStep(p, s, c, Arm(id, c, 0), m.(store := Apply(s.store, Expire((c, p.win(c, s.clock)), s.clock + p.life(c) + 0))), rest, s');
  }

  lemma IncrAndArm(p: Policy, s: State, id: int, c: Counter, b: Request, armed: bool, rest: seq<Step>, s': State)
      returns (steps: seq<Step>)
    requires Crowd(p, s, c) && id in s.reqs && b.phase.Pipe?
    requires s.reqs[id] == Piping(c, b, s.clock, {}, {c}, if armed then {c} else {})
    requires Path(p, Put(AfterCharge(p, s, c, Amount(c, b.phase.usage), armed), id, Piping(c, b, s.clock, {}, {}, {})), rest, s')
    ensures Path(p, s, steps, s')
  {
    assert {c} - {c} == {};
    var a := Amount(c, b.phase.usage);
    var r := Piping(c, b, s.clock, {}, {}, if armed then {c} else {});
    var s1 := Put(AfterCharge(p, s, c, a, false), id, r);
    PutCrowd(p, AfterCharge(p, s, c, a, false), id, r, c);
    steps := rest;
    if armed {
      var done := Piping(c, b, s.clock, {}, {}, {});
      assert Put(s1, id, done).reqs == Put(AfterCharge(p, s, c, a, true), id, done).reqs;
      ArmStep(p, s1, id, c, b, rest, s');
      steps := [Arm(id, c, 0)] + rest;
    }
    CrowdStep(p, s, c, Incr(id, c), s1, steps, s');
    steps := [Incr(id, c)] + steps;
  }

  /** The request has read its TTL, or needs none. */
  lemma TtlRead(p: Policy, s: State, id: int, c: Counter, b: Request, rest: seq<Step>, s': State) returns (steps: seq<Step>)
    requires Crowd(p, s, c) && id in s.reqs && b.phase.Pipe?
    requires s.reqs[id] == if c.Rate? then Piping(c, b, s.clock, {c}, {}, {}) else Piping(c, b, s.clock, {}, {c}, {})
    requires var armed := c.Rate? && Ttl(s.store, (c, p.win(c, s.clock)), s.clock) < 0;
             Path(p, Put(s, id, Piping(c, b, s.clock, {}, {c}, if armed then {c} else {})), rest, s')
    ensures Path(p, s, steps, s')
  {
    var armed := c.Rate? && Ttl(s.store, (c, p.win(c, s.clock)), s.clock) < 0;
    var s1 := Put(s, id, Piping(c, b, s.clock, {}, {c}, if armed then {c} else {}));
    if c.Rate? {
      assert {c} - {c} == {} && {} + {c} == {c};
      assert Do(p, s, ReadTtl(id, c)) == s1;
      CrowdStep(p, s, c, ReadTtl(id, c), s1, rest, s');
      steps := [ReadTtl(id, c)] + rest;
    } else {
      assert s1.reqs == s.reqs;
      steps := rest;
    }
  }

  /** From the start of a pipeline for `c` to its end. */
  lemma Drain(p: Policy, s: State, id: int, c: Counter, b: Request, rest: seq<Step>, s': State) returns (steps: seq<Step>)
    requires Crowd(p, s, c) && id in s.reqs && b.phase.Pipe?
    requires s.reqs[id] == if c.Rate? then Piping(c, b, s.clock, {c}, {}, {}) else Piping(c, b, s.clock, {}, {c}, {})
    requires var armed := c.Rate? && Ttl(s.store, (c, p.win(c, s.clock)), s.clock) < 0;
             Path(p, Put(AfterCharge(p, s, c, Amount(c, b.phase.usage), armed), id, Piping(c, b, s.clock, {}, {}, {})), rest, s')
    ensures Path(p, s, steps, s')
  {
    var armed := c.Rate? && Ttl(s.store, (c, p.win(c, s.clock)), s.clock) < 0;
    var r := Piping(c, b, s.clock, {}, {c}, if armed then {c} else {});
    var s1 := Put(s, id, r);
    PutCrowd(p, s, id, r, c);
    var a, end := Amount(c, b.phase.usage), Piping(c, b, s.clock, {}, {}, {});
    PutTwice(p, s, id, r, end, c, a, armed);
    steps := IncrAndArm(p, s1, id, c, b, armed, rest, s');
    steps := TtlRead(p, s, id, c, b, steps, s');
  }

  /** A finished pipeline, and the request goes away. */
  lemma FinishAndLeave(p: Policy, s: State, id: int, c: Counter, b: Request) returns (steps: seq<Step>)
    requires Crowd(p, s, c) && id in s.reqs && b.phase.Pipe? && s.reqs[id] == Piping(c, b, s.clock, {}, {}, {})
    ensures Path(p, s, steps, s.(reqs := s.reqs - {id}))
  {
    var r := Request({c}, InFlight, b.spent);
    var s1, s2 := Put(s, id, r), s.(reqs := s.reqs - {id});
    PutCrowd(p, s, id, r, c);
    SubsetSize(s2.reqs.Keys, s.reqs.Keys);
    CrowdCapped(p, s2, c);
    assert Path(p, s2, [], s2);
    CrowdStep(p, s1, c, Drop(id), s2, [], s2);
    CrowdStep(p, s, c, Finish(id), s1, [Drop(id)] + [], s2);
    steps := [Finish(id)] + ([Drop(id)] + []);
  }

  /** A started pipeline for `c` runs to its end and the request goes away: the counter is charged
      once. */
  lemma PipeOut(p: Policy, s: State, id: int, c: Counter, b: Request) returns (steps: seq<Step>, s': State)
    requires Crowd(p, s, c) && id in s.reqs && b.phase.Pipe?
    requires s.reqs[id] == if c.Rate? then Piping(c, b, s.clock, {c}, {}, {}) else Piping(c, b, s.clock, {}, {c}, {})
    ensures Path(p, s, steps, s')
    ensures s'.clock == s.clock && s'.reqs == s.reqs - {id}
    ensures var k, a := (c, p.win(c, s.clock)), Amount(c, b.phase.usage);
            Get(s'.store, k) == Get(s.store, k) + a && Charged(s', k) == Charged(s, k) + a
  {
    var armed := c.Rate? && Ttl(s.store, (c, p.win(c, s.clock)), s.clock) < 0;
    var charged := AfterCharge(p, s, c, Amount(c, b.phase.usage), armed);
    var r := Piping(c, b, s.clock, {}, {}, {});
    var s1 := Put(charged, id, r);
    PutCrowd(p, charged, id, r, c);
    steps := FinishAndLeave(p, s1, id, c, b);
    s' := s1.(reqs := s1.reqs - {id});
    assert s'.reqs == s.reqs - {id};
    steps := Drain(p, s, id, c, b, steps, s');
  }

  /** The usage that charges `a` to every counter that counts tokens. */
  function Even(a: int): Usage { Usage(a, a, a) }

  /** Counters that a request can raise: all but quotas of an unknown type. */
  predicate Counted(c: Counter) { c.Rate? || c.kind == "prompt" || c.kind == "response" || c.kind == "total" }

  predicate Chargeable(p: Policy, c: Counter, a: int) {
    Counted(c) && if PerRequest(c) then a == 1 else 0 <= a <= p.maxCharge(c)
  }

  /** An admitted request with a request counter charges 1 and goes away. */
  lemma ServeRequest(p: Policy, s: State, id: int, c: Counter) returns (steps: seq<Step>, s': State)
    requires PerRequest(c) && Crowd(p, s, c) && id in s.reqs && s.reqs[id] == Waiting(c)
    ensures Path(p, s, steps, s')
    ensures s'.clock == s.clock && s'.reqs == s.reqs - {id}
    ensures var k := (c, p.win(c, s.clock)); Get(s'.store, k) == Get(s.store, k) + 1 && Charged(s', k) == Charged(s, k) + 1
  {
    assert First({c}) == {c};
    var b := Request({c}, Pipe(false, NO_USAGE, s.clock, {c}, {}, {}), map[]);
    var s1 := Put(s, id, b);
    PutCrowd(p, s, id, b, c);
    steps, s' := PipeOut(p, s1, id, c, b);
    assert s1.reqs - {id} == s.reqs - {id};
    CrowdStep(p, s, c, Limit(id), s1, steps, s');
    steps := [Limit(id)] + steps;
  }

  /** An admitted request with a token counter is forwarded, its response reports `a` tokens, and it
      goes away. */
  lemma ServeTokens(p: Policy, s: State, id: int, c: Counter, a: int) returns (steps: seq<Step>, s': State)
    requires !PerRequest(c) && Chargeable(p, c, a) && Crowd(p, s, c) && id in s.reqs && s.reqs[id] == Waiting(c)
    ensures Path(p, s, steps, s')
    ensures s'.clock == s.clock && s'.reqs == s.reqs - {id}
    ensures var k := (c, p.win(c, s.clock)); Get(s'.store, k) == Get(s.store, k) + a && Charged(s', k) == Charged(s, k) + a
  {
    assert First({c}) == {} && Second({c}) == {c};
    var r1 := Request({c}, Pipe(false, NO_USAGE, s.clock, {}, {}, {}), map[]);
    var r2 := Request({c}, InFlight, map[]);
    var b := Reported(r2, Even(a), s.clock);
    var s1, s2, s3 := Put(s, id, r1), Put(s, id, r2), Put(s, id, b);
    PutCrowd(p, s, id, r1, c);
    PutCrowd(p, s, id, r2, c);
    PutCrowd(p, s, id, b, c);
    assert (set d | d in {c} && d.Rate?) == (if c.Rate? then {c} else {}) && (set d | d in {c} && d.Quota?) == if c.Rate? then {} else {c};
    steps, s' := PipeOut(p, s3, id, c, b);
    assert s3.reqs - {id} == s.reqs - {id};
    CrowdStep(p, s2, c, Respond(id, Even(a)), s3, steps, s');
    CrowdStep(p, s1, c, Finish(id), s2, [Respond(id, Even(a))] + steps, s');
    CrowdStep(p, s, c, Limit(id), s1, [Finish(id)] + ([Respond(id, Even(a))] + steps), s');
    steps := [Limit(id)] + ([Finish(id)] + ([Respond(id, Even(a))] + steps));
  }

  lemma Serve(p: Policy, s: State, id: int, c: Counter, a: int) returns (steps: seq<Step>, s': State)
    requires Chargeable(p, c, a) && Crowd(p, s, c) && id in s.reqs && s.reqs[id] == Waiting(c)
    ensures Path(p, s, steps, s')
    ensures s'.clock == s.clock && s'.reqs == s.reqs - {id}
    ensures var k := (c, p.win(c, s.clock)); Get(s'.store, k) == Get(s.store, k) + a && Charged(s', k) == Charged(s, k) + a
  {
    if PerRequest(c) { steps, s' := ServeRequest(p, s, id, c); } else { steps, s' := ServeTokens(p, s, id, c, a); }
  }

  /** `n` requests one after the other, each charging 1. */
  lemma {:induction false} OneByOne(p: Policy, s: State, c: Counter, n: nat) returns (steps: seq<Step>, s': State)
    requires Chargeable(p, c, 1) && p.clients(c) >= 1 && s.reqs == map[]
    requires Get(s.store, (c, p.win(c, s.clock))) + n <= Threshold(p, c) + 1
    ensures Path(p, s, steps, s') && s'.clock == s.clock && s'.reqs == map[]
    ensures var k := (c, p.win(c, s.clock));
            Get(s'.store, k) == Get(s.store, k) + n && Charged(s', k) == Charged(s, k) + n
  {
    if n == 0 {
      CrowdCapped(p, s, c);
      steps, s' := [], s;
    } else {
      var a, m := OneByOne(p, s, c, n - 1);
      var b := AdmitOne(p, m, 0, c);
      var m1 := Put(m, 0, Waiting(c));
      assert m1.reqs.Keys == {0};
      var d, m2 := Serve(p, m1, 0, c, 1);
      PathConcat(p, s, a, m, b, m1);
      PathConcat(p, s, a + b, m1, d, m2);
      steps, s' := a + b + d, m2;
    }
  }

  /** Requests 0 .. n-1, all admitted. */
  function Queue(c: Counter, n: nat): map<int, Request> {
    if n == 0 then map[] else Queue(c, n - 1)[n - 1 := Waiting(c)]
  }

  lemma {:induction false} QueueSize(c: Counter, n: nat)
    ensures |Queue(c, n).Keys| == n
    ensures forall id :: id in Queue(c, n) ==> 0 <= id < n && Queue(c, n)[id].qos == {c}
  {
    if n > 0 {
      QueueSize(c, n - 1);
      assert Queue(c, n).Keys == Queue(c, n - 1).Keys + {n - 1};
    }
  }

  lemma QueuePop(c: Counter, n: nat)
    requires n > 0
    ensures n - 1 in Queue(c, n) && Queue(c, n)[n - 1] == Waiting(c)
    ensures Queue(c, n) - {n - 1} == Queue(c, n - 1)
  {
    QueueSize(c, n - 1);
  }

  /** `n` requests all pass the check before any of them increments. */
  lemma {:induction false} AllCheck(p: Policy, s: State, c: Counter, n: nat) returns (steps: seq<Step>)
    requires n <= p.clients(c) && s.reqs == map[]
    requires Get(s.store, (c, p.win(c, s.clock))) <= Threshold(p, c)
    ensures Path(p, s, steps, s.(reqs := Queue(c, n)))
  {
    if n == 0 {
      CrowdCapped(p, s, c);
      assert s.reqs == Queue(c, 0);
      steps := [];
    } else {
      var a := AllCheck(p, s, c, n - 1);
      var m := s.(reqs := Queue(c, n - 1));
      QueueSize(c, n - 1);
      var b := AdmitOne(p, m, n - 1, c);
      assert Put(m, n - 1, Waiting(c)) == s.(reqs := Queue(c, n));
      PathConcat(p, s, a, m, b, s.(reqs := Queue(c, n)));
      steps := a + b;
    }
  }

  /** ... and then each of them charges `a`. */
  lemma {:induction false} AllCharge(p: Policy, s: State, c: Counter, a: int, n: nat) returns (steps: seq<Step>, s': State)
    requires Chargeable(p, c, a) && n <= p.clients(c) && s.reqs == Queue(c, n)
    ensures Path(p, s, steps, s')
    ensures var k := (c, p.win(c, s.clock)); Charged(s', k) == Charged(s, k) + Times(a, n)
    decreases n
  {
    QueueSize(c, n);
    if n == 0 {
      CrowdCapped(p, s, c);
      steps, s' := [], s;
    } else {
      QueuePop(c, n);
      assert Crowd(p, s, c);
      var d, m := Serve(p, s, n - 1, c, a);
      var e, m' := AllCharge(p, m, c, a, n - 1);
      PathConcat(p, s, d, m, e, m');
      steps, s' := d + e, m';
    }
  }

  function Times(a: int, n: nat): int { if n == 0 then 0 else Times(a, n - 1) + a }

  lemma {:induction false} TimesIs(a: int, n: nat)
    ensures Times(a, n) == a * n
  {
    if n > 0 {
      TimesIs(a, n - 1);
      assert a * n == a * (n - 1) + a;
    }
  }

  lemma Attained(p: Policy, c: Counter) returns (s: State, w: int)
    requires Chargeable(p, c, 1) && Chargeable(p, c, p.maxCharge(c)) && Threshold(p, c) >= 0 && p.clients(c) >= 1
    ensures Reachable(p, s) && Charged(s, (c, w)) == Threshold(p, c) + p.maxCharge(c) * p.clients(c)
  {
    var s0 := State(0, map[], map[], map[]);
    var a, s1 := OneByOne(p, s0, c, Threshold(p, c));
    var b := AllCheck(p, s1, c, p.clients(c));
    var s2 := s1.(reqs := Queue(c, p.clients(c)));
    var d, s3 := AllCharge(p, s2, c, p.maxCharge(c), p.clients(c));
    PathConcat(p, s0, a, s1, b, s2);
    PathConcat(p, s0, a + b, s2, d, s3);
    assert Initial(s0) && Path(p, s0, a + b + d, s3);
    TimesIs(p.maxCharge(c), p.clients(c));
    s, w := s3, p.win(c, 0);
  }

  /** The bound of `RequestsBounded` is attained for every limit and every K. */
  lemma BoundAttained(p: Policy, c: Counter) returns (s: State, w: int)
    requires ValidPolicy(p) && PerRequest(c) && p.limit(c) >= 1 && p.clients(c) >= 1
    ensures Reachable(p, s) && Charged(s, (c, w)) == p.limit(c) - 1 + p.clients(c)
  {
    s, w := Attained(p, c);
  }

  /** The bound of `TokensBounded` is attained for every limit, every M and every K, by every counter
      that counts tokens. */
  lemma TokenBoundAttained(p: Policy, c: Counter) returns (s: State, w: int)
    requires Counted(c) && !PerRequest(c) && p.limit(c) >= 0 && p.clients(c) >= 1 && p.maxCharge(c) >= 1
    ensures Reachable(p, s) && Charged(s, (c, w)) == p.limit(c) + p.maxCharge(c) * p.clients(c)
  {
    s, w := Attained(p, c);
  }

  /** A request limit is respected in every run if and only if no two requests of the same user
      and model are ever between their check and their increment at the same time. */
  lemma LimitRespectedIff(p: Policy, c: Counter)
    requires ValidPolicy(p) && PerRequest(c) && p.limit(c) >= 1
    ensures (forall s, w :: Reachable(p, s) ==> Charged(s, (c, w)) <= p.limit(c)) <==> p.clients(c) <= 1
  {
    if p.clients(c) <= 1 {
      forall s, w | Reachable(p, s) ensures Charged(s, (c, w)) <= p.limit(c) {
        RequestsBounded(p, s, c, w);
      }
    } else {
      var s, w := BoundAttained(p, c);
      assert Reachable(p, s) && Charged(s, (c, w)) > p.limit(c);
    }
  }
}
