/** The gateway's methods against the step machine: an undisturbed check or charge, as the limiter and
    the quota service carry it out on key strings, is a path of `Admission` on the store those strings
    represent. */
module GatewaySteps {
  import opened Wrappers
  import opened Redis
  import opened Windows
  import opened Keys
  import opened TokenUsage
  import opened RateLimiter
  import opened Quotas
  import opened Gateway
  import opened Admission
  import opened AdmissionRuns
  import opened Accounting

  /** The gateway's windows and expiries. */
  ghost predicate GatewayTimes(p: Policy) {
    (forall c, t :: p.win(c, t) == WindowOf(c, t)) && (forall c :: p.life(c) == Lifetime(c))
  }

  function Elems(cs: seq<Counter>): set<Counter> { set c | c in cs }

  predicate Distinct(cs: seq<Counter>) { forall i, j :: 0 <= i < j < |cs| ==> cs[i] != cs[j] }

  predicate AllRates(cs: seq<Counter>) { forall c :: c in cs ==> c.Rate? }

  predicate AllQuotas(cs: seq<Counter>) { forall c :: c in cs ==> c.Quota? }

  function KeyAt(c: Counter, now: int): Key { (c, WindowOf(c, now)) }

  // ---------------------------------------------------------------------------------------
  // Steps of one request

  /** Request `id` moves to phase `ph`, owing no more than before. */
  lemma StillCapped(p: Policy, s: State, s': State, id: int)
    requires Capped(p, s) && id in s.reqs && id in s'.reqs && s'.reqs == s.reqs[id := s'.reqs[id]]
    requires forall c :: Owes(s'.reqs[id], c) ==> Owes(s.reqs[id], c)
    ensures Capped(p, s')
  {
    forall c ensures |Outstanding(s', c)| <= p.clients(c) {
      forall i | i in Outstanding(s', c) ensures i in Outstanding(s, c) { }
      SubsetSize(Outstanding(s', c), Outstanding(s, c));
    }
  }

  lemma StepPath(p: Policy, s: State, step: Step, id: int)
    requires Capped(p, s) && Enabled(p, s, step) && id in s.reqs
    requires var s' := Do(p, s, step); id in s'.reqs && s'.reqs == s.reqs[id := s'.reqs[id]]
    requires forall c :: Owes(Do(p, s, step).reqs[id], c) ==> Owes(s.reqs[id], c)
    ensures Path(p, s, [step], Do(p, s, step)) && Capped(p, Do(p, s, step))
  {
    var s' := Do(p, s, step);
    StillCapped(p, s, s', id);
    assert Path(p, s', [], s');
    PathStep(p, s, step, [], s');
    assert [step] + [] == [step];
  }

  /** `s` with request `id` in a pipeline that it started at the present clock value. */
  function InPipe(s: State, id: int, b: Request, todo: set<Counter>, incr: set<Counter>, arm: set<Counter>): State
    requires b.phase.Pipe?
  {
    s.(reqs := s.reqs[id := Request(b.qos, Pipe(b.phase.second, b.phase.usage, s.clock, todo, incr, arm), b.spent)])
  }

  /** The counters among `cs` whose key has no expiry. */
  function Unarmed(p: Policy, store: Store<Key>, now: int, cs: seq<Counter>): set<Counter> {
    set c | c in cs && Ttl(store, (c, p.win(c, now)), now) < 0
  }

  lemma ReadOne(p: Policy, s: State, id: int, b: Request, c: Counter, todo: set<Counter>, incr: set<Counter>, arm: set<Counter>)
    requires b.phase.Pipe? && c in todo && Capped(p, InPipe(s, id, b, todo, incr, arm))
    ensures var m := InPipe(s, id, b, todo, incr, arm);
            var s' := InPipe(s, id, b, todo - {c}, incr + {c},
                             arm + if Ttl(s.store, (c, p.win(c, s.clock)), s.clock) < 0 then {c} else {});
            Path(p, m, [ReadTtl(id, c)], s') && Capped(p, s')
  {
    var m := InPipe(s, id, b, todo, incr, arm);
    var add := if Ttl(s.store, (c, p.win(c, s.clock)), s.clock) < 0 then {c} else {};
    var s' := InPipe(s, id, b, todo - {c}, incr + {c}, arm + add);
    assert arm + {} == arm;
    assert Do(p, m, ReadTtl(id, c)).reqs[id] == s'.reqs[id];
    assert Do(p, m, ReadTtl(id, c)).reqs == m.reqs[id := s'.reqs[id]] == s'.reqs;
    StepPath(p, m, ReadTtl(id, c), id);
  }

  /** The TTLs of `cs` are read one by one. */
  lemma {:induction false} ReadTtls(p: Policy, s: State, id: int, b: Request, cs: seq<Counter>, incr: set<Counter>) returns (steps: seq<Step>)
    requires b.phase.Pipe? && Distinct(cs) && incr !! Elems(cs) && Capped(p, InPipe(s, id, b, Elems(cs), incr, {}))
    ensures var s' := InPipe(s, id, b, {}, incr + Elems(cs), Unarmed(p, s.store, s.clock, cs));
            Path(p, InPipe(s, id, b, Elems(cs), incr, {}), steps, s') && Capped(p, s')
  {
    steps := ReadSome(p, s, id, b, cs, incr, |cs|);
    assert cs[..|cs|] == cs && Elems(cs) - Elems(cs) == {};
  }

  lemma ElemsSplit(cs: seq<Counter>, n: nat)
    requires n < |cs| && Distinct(cs)
    ensures Elems(cs[..n + 1]) == Elems(cs[..n]) + {cs[n]} && cs[n] !in Elems(cs[..n])
  {
    assert cs[..n + 1] == cs[..n] + [cs[n]];
  }

  lemma {:induction false} ReadSome(p: Policy, s: State, id: int, b: Request, cs: seq<Counter>, incr: set<Counter>, n: nat) returns (steps: seq<Step>)
    requires b.phase.Pipe? && Distinct(cs) && incr !! Elems(cs) && n <= |cs| && Capped(p, InPipe(s, id, b, Elems(cs), incr, {}))
    ensures var done := Elems(cs[..n]);
            var s' := InPipe(s, id, b, Elems(cs) - done, incr + done, Unarmed(p, s.store, s.clock, cs[..n]));
            Path(p, InPipe(s, id, b, Elems(cs), incr, {}), steps, s') && Capped(p, s')
    decreases n
  {
    var s0 := InPipe(s, id, b, Elems(cs), incr, {});
    if n == 0 {
      steps := [];
      assert Elems(cs[..0]) == {} && Unarmed(p, s.store, s.clock, cs[..0]) == {};
      assert Elems(cs) - {} == Elems(cs) && incr + {} == incr;
    } else {
      var a := ReadSome(p, s, id, b, cs, incr, n - 1);
      var c, done := cs[n - 1], Elems(cs[..n - 1]);
      var m := InPipe(s, id, b, Elems(cs) - done, incr + done, Unarmed(p, s.store, s.clock, cs[..n - 1]));
      ElemsSplit(cs, n - 1);
      UnarmedSplit(p, s.store, s.clock, cs, n - 1);
      var s' := InPipe(s, id, b, Elems(cs) - Elems(cs[..n]), incr + Elems(cs[..n]), Unarmed(p, s.store, s.clock, cs[..n]));
      assert (Elems(cs) - done) - {c} == Elems(cs) - Elems(cs[..n]) && (incr + done) + {c} == incr + Elems(cs[..n]);
      ReadOne(p, s, id, b, c, Elems(cs) - done, incr + done, Unarmed(p, s.store, s.clock, cs[..n - 1]));
      PathConcat(p, s0, a, m, [ReadTtl(id, c)], s');
      steps := a + [ReadTtl(id, c)];
    }
  }

  lemma UnarmedSplit(p: Policy, store: Store<Key>, now: int, cs: seq<Counter>, n: nat)
    requires n < |cs|
    ensures Unarmed(p, store, now, cs[..n + 1])
            == Unarmed(p, store, now, cs[..n]) + if Ttl(store, (cs[n], p.win(cs[n], now)), now) < 0 then {cs[n]} else {}
  {
    assert cs[..n + 1] == cs[..n] + [cs[n]];
  }

  // ---------------------------------------------------------------------------------------
  // Executing the pipeline

  /** The commands for one counter: INCRBY, and EXPIRE if its TTL was found missing. */
  function CommandsOf(c: Counter, u: Usage, now: int, armed: bool, jitter: nat): seq<Cmd<Key>> {
    var k := KeyAt(c, now);
    [IncrBy(k, Amount(c, u))] + if armed then [Expire(k, now + Lifetime(c) + jitter)] else []
  }

  /** The commands for `cs` in order; TTLs were read on `base`. */
  function CommandsOfAll(base: Store<Key>, cs: seq<Counter>, u: Usage, now: int, jitter: seq<nat>): seq<Cmd<Key>>
    requires |jitter| == |cs|
  {
    if cs == [] then []
    else
      var n := |cs| - 1;
      CommandsOfAll(base, cs[..n], u, now, jitter[..n])
      + CommandsOf(cs[n], u, now, cs[n].Rate? && Ttl(base, KeyAt(cs[n], now), now) < 0, jitter[n])
  }

  /** One INCRBY. */
  function Raised(s: State, k: Key, amount: int): State {
    s.(store := Apply(s.store, IncrBy(k, amount)), charged := s.charged[k := Charged(s, k) + amount])
  }

  lemma IncrOne(p: Policy, s: State, id: int, b: Request, c: Counter, incr: set<Counter>, arm: set<Counter>)
    requires GatewayTimes(p) && b.phase.Pipe? && c in incr && Capped(p, InPipe(s, id, b, {}, incr, arm))
    ensures var s' := InPipe(Raised(s, KeyAt(c, s.clock), Amount(c, b.phase.usage)), id, b, {}, incr - {c}, arm);
            Path(p, InPipe(s, id, b, {}, incr, arm), [Incr(id, c)], s') && Capped(p, s')
  {
    var m := InPipe(s, id, b, {}, incr, arm);
    var s' := InPipe(Raised(s, KeyAt(c, s.clock), Amount(c, b.phase.usage)), id, b, {}, incr - {c}, arm);
    assert Do(p, m, Incr(id, c)).reqs == m.reqs[id := s'.reqs[id]] == s'.reqs;
    StepPath(p, m, Incr(id, c), id);
  }

  lemma ArmOne(p: Policy, s: State, id: int, b: Request, c: Counter, incr: set<Counter>, arm: set<Counter>, jitter: nat)
    requires GatewayTimes(p) && b.phase.Pipe? && c in arm && c !in incr && Capped(p, InPipe(s, id, b, {}, incr, arm))
    ensures var up := s.(store := Apply(s.store, Expire(KeyAt(c, s.clock), s.clock + Lifetime(c) + jitter)));
            var s' := InPipe(up, id, b, {}, incr, arm - {c});
            Path(p, InPipe(s, id, b, {}, incr, arm), [Arm(id, c, jitter)], s') && Capped(p, s')
  {
    var m := InPipe(s, id, b, {}, incr, arm);
    var up := s.(store := Apply(s.store, Expire(KeyAt(c, s.clock), s.clock + Lifetime(c) + jitter)));
    var s' := InPipe(up, id, b, {}, incr, arm - {c});
    assert Do(p, m, Arm(id, c, jitter)).reqs == m.reqs[id := s'.reqs[id]] == s'.reqs;
    StepPath(p, m, Arm(id, c, jitter), id);
  }

  lemma ApplyOneOrTwo(store: Store<Key>, x: Cmd<Key>, y: Cmd<Key>)
    ensures ApplyAll(store, [x]) == Apply(store, x) && ApplyAll(store, [x] + [y]) == Apply(Apply(store, x), y)
  {
    assert [x][1..] == [] && ApplyAll(Apply(store, x), []) == Apply(store, x);
    ApplyAllSnoc(store, [x], y);
  }

  /** The INCRBY of one counter and, if it is to be set, its EXPIRE. */
  lemma ExecOne(p: Policy, s: State, id: int, b: Request, c: Counter, incr: set<Counter>, arm: set<Counter>, jitter: nat)
      returns (steps: seq<Step>, s': State)
    requires GatewayTimes(p) && b.phase.Pipe? && c in incr && Capped(p, InPipe(s, id, b, {}, incr, arm))
    ensures Path(p, InPipe(s, id, b, {}, incr, arm), steps, InPipe(s', id, b, {}, incr - {c}, arm - {c}))
    ensures Capped(p, InPipe(s', id, b, {}, incr - {c}, arm - {c}))
    ensures s'.store == ApplyAll(s.store, CommandsOf(c, b.phase.usage, s.clock, c in arm, jitter))
    ensures s'.clock == s.clock && s'.reqs == s.reqs
  {
    var k, a := KeyAt(c, s.clock), Amount(c, b.phase.usage);
    var s1 := Raised(s, k, a);
    var y := Expire(k, s.clock + Lifetime(c) + jitter);
    IncrOne(p, s, id, b, c, incr, arm);
    ApplyOneOrTwo(s.store, IncrBy(k, a), y);
    if c in arm {
      s' := s1.(store := Apply(s1.store, y));
      ArmOne(p, s1, id, b, c, incr - {c}, arm, jitter);
      PathConcat(p, InPipe(s, id, b, {}, incr, arm), [Incr(id, c)], InPipe(s1, id, b, {}, incr - {c}, arm),
                 [Arm(id, c, jitter)], InPipe(s', id, b, {}, incr - {c}, arm - {c}));
      steps := [Incr(id, c)] + [Arm(id, c, jitter)];
    } else {
      assert arm - {c} == arm;
      assert [IncrBy(k, a)] + [] == [IncrBy(k, a)];
      steps, s' := [Incr(id, c)], s1;
    }
  }

  /** Which expiries are queued. */
  ghost predicate ArmsRight(base: Store<Key>, now: int, cs: seq<Counter>, arm: set<Counter>) {
    forall c :: c in cs ==> (c in arm <==> c.Rate? && Ttl(base, KeyAt(c, now), now) < 0)
  }

  /** The first `n` counters of the list. */
  lemma {:induction false} ExecSome(p: Policy, s: State, id: int, b: Request, cs: seq<Counter>, incr: set<Counter>, arm: set<Counter>,
                                    base: Store<Key>, jitter: seq<nat>, n: nat)
      returns (steps: seq<Step>, s': State)
    requires GatewayTimes(p) && b.phase.Pipe? && Distinct(cs) && Elems(cs) <= incr && |jitter| == |cs| && n <= |cs|
    requires ArmsRight(base, s.clock, cs, arm) && Capped(p, InPipe(s, id, b, {}, incr, arm))
    ensures var done := Elems(cs[..n]);
            Path(p, InPipe(s, id, b, {}, incr, arm), steps, InPipe(s', id, b, {}, incr - done, arm - done))
            && Capped(p, InPipe(s', id, b, {}, incr - done, arm - done))
    ensures s'.store == ApplyAll(s.store, CommandsOfAll(base, cs[..n], b.phase.usage, s.clock, jitter[..n]))
    ensures s'.clock == s.clock && s'.reqs == s.reqs
    decreases n
  {
    if n == 0 {
      assert Elems(cs[..0]) == {} && incr - {} == incr && arm - {} == arm;
      steps, s' := [], s;
    } else {
      var x, m := ExecSome(p, s, id, b, cs, incr, arm, base, jitter, n - 1);
      var c, done := cs[n - 1], Elems(cs[..n - 1]);
      ElemsSplit(cs, n - 1);
      assert c in cs;
      var y, m' := ExecOne(p, m, id, b, c, incr - done, arm - done, jitter[n - 1]);
      s' := m';
      assert (incr - done) - {c} == incr - Elems(cs[..n]) && (arm - done) - {c} == arm - Elems(cs[..n]);
      PathConcat(p, InPipe(s, id, b, {}, incr, arm), x, InPipe(m, id, b, {}, incr - done, arm - done), y,
                 InPipe(s', id, b, {}, incr - Elems(cs[..n]), arm - Elems(cs[..n])));
      steps := x + y;
      CommandsSplit(s.store, base, cs, b.phase.usage, s.clock, jitter, n - 1);
    }
  }

  lemma CommandsSplit(store: Store<Key>, base: Store<Key>, cs: seq<Counter>, u: Usage, now: int, jitter: seq<nat>, n: nat)
    requires |jitter| == |cs| && n < |cs|
    ensures ApplyAll(store, CommandsOfAll(base, cs[..n + 1], u, now, jitter[..n + 1]))
            == ApplyAll(ApplyAll(store, CommandsOfAll(base, cs[..n], u, now, jitter[..n])),
                        CommandsOf(cs[n], u, now, cs[n].Rate? && Ttl(base, KeyAt(cs[n], now), now) < 0, jitter[n]))
  {
    assert cs[..n + 1][..n] == cs[..n] && jitter[..n + 1][..n] == jitter[..n];
    ApplyAllConcat(store, CommandsOfAll(base, cs[..n], u, now, jitter[..n]),
                   CommandsOf(cs[n], u, now, cs[n].Rate? && Ttl(base, KeyAt(cs[n], now), now) < 0, jitter[n]));
  }

  /** A whole pipeline: the TTLs of `rates` are read, then the commands of `rates` and of `quotas` are
      executed in order, and the request is in flight. */
  lemma PipePath(p: Policy, s: State, id: int, b: Request, rates: seq<Counter>, quotas: seq<Counter>, jitter: seq<nat>)
      returns (steps: seq<Step>, s': State)
    requires GatewayTimes(p) && b.phase.Pipe? && AllRates(rates) && AllQuotas(quotas) && Distinct(rates) && Distinct(quotas)
    requires |jitter| == |rates + quotas| && Capped(p, InPipe(s, id, b, Elems(rates), Elems(quotas), {}))
    ensures Path(p, InPipe(s, id, b, Elems(rates), Elems(quotas), {}), steps, s')
    ensures s'.store == ApplyAll(s.store, CommandsOfAll(s.store, rates + quotas, b.phase.usage, s.clock, jitter))
    ensures s'.clock == s.clock && s'.reqs == s.reqs[id := Request(b.qos, InFlight, b.spent)]
  {
    var cs, arm := rates + quotas, Unarmed(p, s.store, s.clock, rates);
    var s0 := InPipe(s, id, b, Elems(rates), Elems(quotas), {});
    ListsJoin(p, s.store, s.clock, rates, quotas);
    var x := ReadTtls(p, s, id, b, rates, Elems(quotas));
    var y, m := ExecSome(p, s, id, b, cs, Elems(cs), arm, s.store, jitter, |cs|);
    assert cs[..|cs|] == cs && jitter[..|jitter|] == jitter && Elems(cs) - Elems(cs) == {} && arm - Elems(cs) == {};
    PathConcat(p, s0, x, InPipe(s, id, b, {}, Elems(cs), arm), y, InPipe(m, id, b, {}, {}, {}));
    var z := FinishOne(p, m, id, b);
    s' := m.(reqs := m.reqs[id := Request(b.qos, InFlight, b.spent)]);
    PathConcat(p, s0, x + y, InPipe(m, id, b, {}, {}, {}), z, s');
    steps := x + y + z;
  }

  lemma ListsJoin(p: Policy, store: Store<Key>, now: int, rates: seq<Counter>, quotas: seq<Counter>)
    requires GatewayTimes(p) && AllRates(rates) && AllQuotas(quotas) && Distinct(rates) && Distinct(quotas)
    ensures Distinct(rates + quotas) && Elems(rates) !! Elems(quotas) && Elems(quotas) + Elems(rates) == Elems(rates + quotas)
    ensures ArmsRight(store, now, rates + quotas, Unarmed(p, store, now, rates))
    ensures Unarmed(p, store, now, rates) <= Elems(rates + quotas)
  {
    forall i, j | 0 <= i < j < |rates + quotas| ensures (rates + quotas)[i] != (rates + quotas)[j] {
      if i < |rates| <= j {
        assert rates[i] in rates && quotas[j - |rates|] in quotas;
      }
    }
  }

  lemma FinishOne(p: Policy, s: State, id: int, b: Request) returns (steps: seq<Step>)
    requires b.phase.Pipe? && Capped(p, InPipe(s, id, b, {}, {}, {}))
    ensures Path(p, InPipe(s, id, b, {}, {}, {}), steps, s.(reqs := s.reqs[id := Request(b.qos, InFlight, b.spent)]))
  {
    var m := InPipe(s, id, b, {}, {}, {});
    var r := Request(b.qos, InFlight, b.spent);
    assert Do(p, m, Finish(id)).reqs == m.reqs[id := r] == s.reqs[id := r];
    StepPath(p, m, Finish(id), id);
    steps := [Finish(id)];
  }

  // ---------------------------------------------------------------------------------------
  // The same on key strings

  function TextCmds(rp: string, qp: string, cmds: seq<Cmd<Key>>): seq<Cmd<string>> {
    if cmds == [] then [] else TextCmds(rp, qp, cmds[..|cmds| - 1]) + [TextCmd(rp, qp, cmds[|cmds| - 1])]
  }

  lemma {:induction false} TextConcat(rp: string, qp: string, a: seq<Cmd<Key>>, b: seq<Cmd<Key>>)
    ensures TextCmds(rp, qp, a + b) == TextCmds(rp, qp, a) + TextCmds(rp, qp, b)
  {
    if b == [] {
      assert a + b == a;
    } else {
      var n := |b| - 1;
      assert (a + b)[..|a + b| - 1] == a + b[..n];
      TextConcat(rp, qp, a, b[..n]);
    }
  }

  /** A sequence of commands on strings refines the commands on keys. */
  lemma {:induction false} CommandsRefine(rp: string, qp: string, text: Store<string>, store: Store<Key>, cmds: seq<Cmd<Key>>)
    requires Represents(rp, qp, text, store) && forall c :: c in cmds ==> SafeKey(c.key)
    ensures Represents(rp, qp, ApplyAll(text, TextCmds(rp, qp, cmds)), ApplyAll(store, cmds))
    decreases |cmds|
  {
    if cmds != [] {
      var n := |cmds| - 1;
      var init, last := cmds[..n], cmds[n];
      assert cmds == init + [last];
      CommandsRefine(rp, qp, text, store, init);
      ApplyAllSnoc(store, init, last);
      ApplyAllSnoc(text, TextCmds(rp, qp, init), TextCmd(rp, qp, last));
      CommandRefines(rp, qp, ApplyAll(text, TextCmds(rp, qp, init)), ApplyAll(store, init), last, 0);
    }
  }

  // ---------------------------------------------------------------------------------------
  // The counters of a QoS

  function RateCounter(q: UserQos, kind: string): Counter { Rate(q.namespace, q.user, q.model, kind) }

  function QuotaCounter(q: UserQos, kind: string): Counter { Quota(q.namespace, q.quotaName, kind) }

  /** The counters of the rules of type `t` among the first `n` limits. */
  function RateList(rules: Rules, q: UserQos, t: LimitType, n: nat): (cs: seq<Counter>)
    requires n <= |q.rateLimits| && KnownUpTo(rules, q, n)
    ensures |cs| <= n
  {
    if n == 0 then []
    else
      var kind := q.rateLimits[n - 1].kind;
      RateList(rules, q, t, n - 1) + if rules[kind].kind == t then [RateCounter(q, kind)] else []
  }

  function QuotaList(q: UserQos, items: seq<QuotaItem>): seq<Counter> {
    if items == [] then [] else QuotaList(q, items[..|items| - 1]) + [QuotaCounter(q, items[|items| - 1].kind)]
  }

  /** Kubernetes names, which hold no `=`. */
  predicate SafeQos(q: UserQos) { '=' !in q.namespace && '=' !in q.user && '=' !in q.model && '=' !in q.quotaName }

  predicate SafeItems(items: seq<QuotaItem>) { forall i :: 0 <= i < |items| ==> '=' !in items[i].kind }

  predicate DistinctItems(items: seq<QuotaItem>) { forall i, j :: 0 <= i < j < |items| ==> items[i].kind != items[j].kind }

  lemma DefaultNames(kind: string)
    requires kind in DefaultRules()
    ensures '.' !in kind && DefaultRules()[kind].name == kind
    ensures forall q :: PerRequest(RateCounter(q, kind)) <==> DefaultRules()[kind].kind.TypeRequest?
  {
  }

  lemma {:induction false} RateListIs(rules: Rules, q: UserQos, t: LimitType, n: nat)
    requires n <= |q.rateLimits| && KnownUpTo(rules, q, n) && DistinctKinds(q)
    ensures AllRates(RateList(rules, q, t, n)) && Distinct(RateList(rules, q, t, n))
    ensures forall c :: c in RateList(rules, q, t, n) <==>
              exists i :: 0 <= i < n && c == RateCounter(q, q.rateLimits[i].kind) && rules[q.rateLimits[i].kind].kind == t
  {
    if n > 0 {
      RateListIs(rules, q, t, n - 1);
      DistinctSnoc(RateList(rules, q, t, n - 1), RateCounter(q, q.rateLimits[n - 1].kind));
    }
  }

  lemma DistinctSnoc(cs: seq<Counter>, c: Counter)
    requires Distinct(cs) && c !in cs
    ensures Distinct(cs + [c])
  {
    forall i, j | 0 <= i < j < |cs + [c]| ensures (cs + [c])[i] != (cs + [c])[j] {
      assert cs[i] in cs;
    }
  }

  lemma {:induction false} QuotaListIs(q: UserQos, items: seq<QuotaItem>)
    requires DistinctItems(items)
    ensures AllQuotas(QuotaList(q, items)) && |QuotaList(q, items)| == |items|
    ensures forall i :: 0 <= i < |items| ==> QuotaList(q, items)[i] == QuotaCounter(q, items[i].kind)
  {
    if items != [] { QuotaListIs(q, items[..|items| - 1]); }
  }

  /** The commands for one rule, as strings. */
  lemma CommandsForIsText(rp: string, qp: string, text: Store<string>, store: Store<Key>, q: UserQos, l: RateLimit, u: Usage, count: int, now: int, jitter: nat)
    requires Represents(rp, qp, text, store) && SafeQos(q) && l.kind in DefaultRules()
    requires Amount(RateCounter(q, l.kind), u) == count
    ensures var c := RateCounter(q, l.kind);
            CommandsFor(DefaultRules(), rp, text, now, ToRateLimitRequest(q, l.kind, l.value, count), now, jitter)
            == TextCmds(rp, qp, CommandsOf(c, u, now, c.Rate? && Ttl(store, KeyAt(c, now), now) < 0, jitter))
    ensures SafeKey(KeyAt(RateCounter(q, l.kind), now))
  {
    var c := RateCounter(q, l.kind);
    var k := KeyAt(c, now);
    DefaultNames(l.kind);
    CommandRefines(rp, qp, text, store, IncrBy(k, count), now);
    var x, y := IncrBy(k, count), Expire(k, now + Lifetime(c) + jitter);
    TextOfTwo(rp, qp, x, y);
    assert [x] + [] == [x];
  }

  /** What a charge of type `t` with usage `u` adds to each counter. */
  predicate Charges(t: LimitType, u: Usage, count: int) { count == if t.TypeRequest? then 1 else u.total }

  predicate AllSafe(cmds: seq<Cmd<Key>>) { forall c :: c in cmds ==> SafeKey(c.key) }

  function Flat<K>(lists: seq<seq<Cmd<K>>>): seq<Cmd<K>> {
    if lists == [] then [] else Flat(lists[..|lists| - 1]) + lists[|lists| - 1]
  }

  /** `xs` is the pipeline of `sel`, request by request. */
  predicate PipelineOf(rules: Rules, rp: string, text: Store<string>, sel: seq<RateRequest>, now: int, jitter: seq<nat>, xs: seq<seq<Cmd<string>>>) {
    |xs| == |sel| == |jitter| && forall i :: 0 <= i < |sel| ==> xs[i] == CommandsFor(rules, rp, text, now, sel[i], now, jitter[i])
  }

  lemma {:induction false} PipelineIsFlat(rules: Rules, rp: string, text: Store<string>, sel: seq<RateRequest>, now: int, jitter: seq<nat>, xs: seq<seq<Cmd<string>>>)
    requires PipelineOf(rules, rp, text, sel, now, jitter, xs)
    ensures Pipeline(rules, rp, text, now, sel, now, jitter) == Flat(xs)
  {
    if sel != [] {
      var n := |sel| - 1;
      PipelineIsFlat(rules, rp, text, sel[..n], now, jitter[..n], xs[..n]);
    }
  }

  /** `ys` is the commands for `cs`, counter by counter. */
  predicate CommandsListed(store: Store<Key>, cs: seq<Counter>, u: Usage, now: int, jitter: seq<nat>, ys: seq<seq<Cmd<Key>>>) {
    |ys| == |cs| == |jitter| && forall i :: 0 <= i < |cs| ==>
      ys[i] == CommandsOf(cs[i], u, now, cs[i].Rate? && Ttl(store, KeyAt(cs[i], now), now) < 0, jitter[i])
  }

  lemma {:induction false} CommandsAreFlat(store: Store<Key>, cs: seq<Counter>, u: Usage, now: int, jitter: seq<nat>, ys: seq<seq<Cmd<Key>>>)
    requires CommandsListed(store, cs, u, now, jitter, ys)
    ensures CommandsOfAll(store, cs, u, now, jitter) == Flat(ys)
  {
    if cs != [] {
      var n := |cs| - 1;
      CommandsAreFlat(store, cs[..n], u, now, jitter[..n], ys[..n]);
    }
  }

  lemma {:induction false} TextOfFlat(rp: string, qp: string, ys: seq<seq<Cmd<Key>>>, xs: seq<seq<Cmd<string>>>)
    requires |xs| == |ys| && forall i :: 0 <= i < |ys| ==> xs[i] == TextCmds(rp, qp, ys[i]) && AllSafe(ys[i])
    ensures Flat(xs) == TextCmds(rp, qp, Flat(ys)) && AllSafe(Flat(ys))
  {
    if ys != [] {
      var n := |ys| - 1;
      TextOfFlat(rp, qp, ys[..n], xs[..n]);
      TextConcat(rp, qp, Flat(ys[..n]), ys[n]);
    }
  }

  /** Request `r` and counter `c` are those of one limit of type `t`. */
  ghost predicate Listed(rules: Rules, q: UserQos, t: LimitType, count: int, r: RateRequest, c: Counter) {
    exists l: RateLimit :: ListedAs(rules, q, t, count, r, c, l)
  }

  predicate ListedAs(rules: Rules, q: UserQos, t: LimitType, count: int, r: RateRequest, c: Counter, l: RateLimit) {
    l.kind in rules && rules[l.kind].kind == t && r == ToRateLimitRequest(q, l.kind, l.value, count) && c == RateCounter(q, l.kind)
  }

  /** The requests that the gateway selects are those of the listed counters. */
  lemma {:induction false} SelectedAreListed(rules: Rules, q: UserQos, t: LimitType, count: int, n: nat)
    requires n <= |q.rateLimits| && KnownUpTo(rules, q, n)
    ensures var sel, cs := Selected(rules, q, t, count, n), RateList(rules, q, t, n);
            |sel| == |cs| && forall i :: 0 <= i < |sel| ==> Listed(rules, q, t, count, sel[i], cs[i])
  {
    if n > 0 {
      SelectedAreListed(rules, q, t, count, n - 1);
      var l := q.rateLimits[n - 1];
      if rules[l.kind].kind == t {
        assert ListedAs(rules, q, t, count, ToRateLimitRequest(q, l.kind, l.value, count), RateCounter(q, l.kind), l);
      }
    }
  }

  /** The limiter's pipeline is the text of the commands of the QoS' counters. */
  lemma PipelineIsText(rp: string, qp: string, text: Store<string>, store: Store<Key>,
                       q: UserQos, t: LimitType, u: Usage, count: int, now: int, jitter: seq<nat>)
    requires Represents(rp, qp, text, store) && SafeQos(q) && Charges(t, u, count) && RulesKnown(DefaultRules(), q)
    requires |jitter| == |RateList(DefaultRules(), q, t, |q.rateLimits|)|
    ensures var sel, cs := Selected(DefaultRules(), q, t, count, |q.rateLimits|), RateList(DefaultRules(), q, t, |q.rateLimits|);
            && |sel| == |cs|
            && Pipeline(DefaultRules(), rp, text, now, sel, now, jitter) == TextCmds(rp, qp, CommandsOfAll(store, cs, u, now, jitter))
            && AllSafe(CommandsOfAll(store, cs, u, now, jitter))
  {
    var rules, n := DefaultRules(), |q.rateLimits|;
    var sel, cs := Selected(rules, q, t, count, n), RateList(rules, q, t, n);
    SelectedAreListed(rules, q, t, count, n);
    var xs := seq(|sel|, i requires 0 <= i < |sel| => CommandsFor(rules, rp, text, now, sel[i], now, jitter[i]));
    var ys := Lists(store, cs, u, now, jitter);
    forall i | 0 <= i < |sel| ensures xs[i] == TextCmds(rp, qp, ys[i]) && AllSafe(ys[i]) {
      assert Listed(rules, q, t, count, sel[i], cs[i]);
      OneIsText(rp, qp, text, store, q, t, u, count, now, sel[i], cs[i], jitter[i]);
    }
    PipelineIsFlat(rules, rp, text, sel, now, jitter, xs);
    CommandsAreFlat(store, cs, u, now, jitter, ys);
    TextOfFlat(rp, qp, ys, xs);
  }

  lemma OneIsText(rp: string, qp: string, text: Store<string>, store: Store<Key>, q: UserQos, t: LimitType, u: Usage, count: int, now: int,
                  r: RateRequest, c: Counter, jitter: nat)
    requires Represents(rp, qp, text, store) && SafeQos(q) && Charges(t, u, count) && Listed(DefaultRules(), q, t, count, r, c)
    ensures var cmds := CommandsOf(c, u, now, c.Rate? && Ttl(store, KeyAt(c, now), now) < 0, jitter);
            CommandsFor(DefaultRules(), rp, text, now, r, now, jitter) == TextCmds(rp, qp, cmds) && AllSafe(cmds)
  {
    var l :| ListedAs(DefaultRules(), q, t, count, r, c, l);
    DefaultNames(l.kind);
    CommandsForIsText(rp, qp, text, store, q, l, u, count, now, jitter);
  }

  /** The quota charges are the text of the commands of the quota's counters. */
  lemma {:induction false} QuotaChargesAreText(rp: string, qp: string, store: Store<Key>, q: UserQos, items: seq<QuotaItem>, u: Usage, now: int, jitter: seq<nat>)
    requires SafeQos(q) && SafeItems(items) && |jitter| == |items| == |QuotaList(q, items)|
    ensures var cmds := CommandsOfAll(store, QuotaList(q, items), u, now, jitter);
            QuotaCharges(qp, q, items, Counts(u)) == TextCmds(rp, qp, cmds) && AllSafe(cmds)
  {
    if items != [] {
      var n := |items| - 1;
      var c := QuotaCounter(q, items[n].kind);
      var list, list' := QuotaList(q, items[..n]), QuotaList(q, items);
      assert list' == list + [c];
      assert |list| == n && list'[..n] == list && list'[n] == c;
      QuotaChargesAreText(rp, qp, store, q, items[..n], u, now, jitter[..n]);
      var x := IncrBy(KeyAt(c, now), Amount(c, u));
      TextOfTwo(rp, qp, x, x);
      assert CommandsOf(c, u, now, false, jitter[n]) == [x] + [] == [x];
      assert Amount(c, u) == CountOf(Counts(u), items[n].kind);
      TextConcat(rp, qp, CommandsOfAll(store, list, u, now, jitter[..n]), [x]);
    }
  }

  lemma TextOfTwo(rp: string, qp: string, x: Cmd<Key>, y: Cmd<Key>)
    ensures TextCmds(rp, qp, [x]) == [TextCmd(rp, qp, x)]
    ensures TextCmds(rp, qp, [x] + [y]) == [TextCmd(rp, qp, x)] + [TextCmd(rp, qp, y)]
  {
    assert [x][..0] == [] && ([x] + [y])[..1] == [x];
  }

  // ---------------------------------------------------------------------------------------
  // The charges

  /** An admitted request charges its request counters `cs`. */
  lemma LimitRun(p: Policy, s: State, id: int, cs: seq<Counter>, j: seq<nat>) returns (steps: seq<Step>, s': State)
    requires GatewayTimes(p) && Capped(p, s) && id in s.reqs && s.reqs[id].phase == Admitted
    requires AllRates(cs) && Distinct(cs) && First(s.reqs[id].qos) == Elems(cs) && |j| == |cs|
    ensures Path(p, s, steps, s') && s'.reqs == s.reqs[id := s.reqs[id].(phase := InFlight)]
    ensures s'.store == ApplyAll(s.store, CommandsOfAll(s.store, cs, NO_USAGE, s.clock, j))
  {
    var r := s.reqs[id];
    var b := Request(r.qos, Pipe(false, NO_USAGE, s.clock, First(r.qos), {}, {}), r.spent);
    var s1 := InPipe(s, id, b, Elems(cs), Elems([]), {});
    assert Elems([]) == {};
    assert Do(p, s, Limit(id)).reqs == s1.reqs;
    StepPath(p, s, Limit(id), id);
    assert cs + [] == cs;
    var rest;
    rest, s' := PipePath(p, s, id, b, cs, [], j);
    PathConcat(p, s, [Limit(id)], s1, rest, s');
    steps := [Limit(id)] + rest;
  }

  /** The charge on the request side, as the limiter carries it out on strings, is a path of the step
      machine from admission to flight. */
  lemma RequestChargeIsPath(p: Policy, rp: string, qp: string, text: Store<string>, s: State, id: int, q: UserQos, jitter: seq<nat>)
      returns (steps: seq<Step>, s': State)
    requires GatewayTimes(p) && Capped(p, s) && Represents(rp, qp, text, s.store)
    requires SafeQos(q) && RulesKnown(DefaultRules(), q) && DistinctKinds(q) && |jitter| == |q.rateLimits|
    requires id in s.reqs && s.reqs[id].phase == Admitted
    requires First(s.reqs[id].qos) == Elems(RateList(DefaultRules(), q, TypeRequest, |q.rateLimits|))
    ensures Path(p, s, steps, s') && s'.reqs == s.reqs[id := s.reqs[id].(phase := InFlight)]
    ensures Represents(rp, qp, ApplyAll(text, RatePipeline(DefaultRules(), rp, text, s.clock, q, TypeRequest, 1, s.clock, jitter)), s'.store)
  {
    var cs := RateList(DefaultRules(), q, TypeRequest, |q.rateLimits|);
    var j := jitter[..|cs|];
    RateListIs(DefaultRules(), q, TypeRequest, |q.rateLimits|);
    PipelineIsText(rp, qp, text, s.store, q, TypeRequest, NO_USAGE, 1, s.clock, j);
    steps, s' := LimitRun(p, s, id, cs, j);
    CommandsRefine(rp, qp, text, s.store, CommandsOfAll(s.store, cs, NO_USAGE, s.clock, j));
  }

  lemma {:induction false} FlatConcat<K>(a: seq<seq<Cmd<K>>>, b: seq<seq<Cmd<K>>>)
    ensures Flat(a + b) == Flat(a) + Flat(b)
  {
    if b == [] {
      assert a + b == a;
    } else {
      var n := |b| - 1;
      assert (a + b)[..|a| + n] == a + b[..n];
      FlatConcat(a, b[..n]);
    }
  }

  function Lists(base: Store<Key>, cs: seq<Counter>, u: Usage, now: int, jitter: seq<nat>): seq<seq<Cmd<Key>>>
    requires |jitter| == |cs|
  {
    seq(|cs|, i requires 0 <= i < |cs| => CommandsOf(cs[i], u, now, cs[i].Rate? && Ttl(base, KeyAt(cs[i], now), now) < 0, jitter[i]))
  }

  lemma CommandsAreLists(base: Store<Key>, cs: seq<Counter>, u: Usage, now: int, jitter: seq<nat>)
    requires |jitter| == |cs|
    ensures CommandsOfAll(base, cs, u, now, jitter) == Flat(Lists(base, cs, u, now, jitter))
  {
    CommandsAreFlat(base, cs, u, now, jitter, Lists(base, cs, u, now, jitter));
  }

  lemma ListsConcat(base: Store<Key>, a: seq<Counter>, b: seq<Counter>, u: Usage, now: int, ja: seq<nat>, jb: seq<nat>)
    requires |ja| == |a| && |jb| == |b|
    ensures Lists(base, a + b, u, now, ja + jb) == Lists(base, a, u, now, ja) + Lists(base, b, u, now, jb)
  {
    var cs, j := a + b, ja + jb;
    forall i | 0 <= i < |cs| ensures Lists(base, cs, u, now, j)[i] == (Lists(base, a, u, now, ja) + Lists(base, b, u, now, jb))[i] {
      if i < |a| {
        assert cs[i] == a[i] && j[i] == ja[i];
      } else {
        assert cs[i] == b[i - |a|] && j[i] == jb[i - |a|];
      }
    }
  }

  lemma CommandsConcat(base: Store<Key>, a: seq<Counter>, b: seq<Counter>, u: Usage, now: int, ja: seq<nat>, jb: seq<nat>)
    requires |ja| == |a| && |jb| == |b|
    ensures CommandsOfAll(base, a + b, u, now, ja + jb) == CommandsOfAll(base, a, u, now, ja) + CommandsOfAll(base, b, u, now, jb)
  {
    CommandsAreLists(base, a, u, now, ja);
    CommandsAreLists(base, b, u, now, jb);
    CommandsAreLists(base, a + b, u, now, ja + jb);
    ListsConcat(base, a, b, u, now, ja, jb);
    FlatConcat(Lists(base, a, u, now, ja), Lists(base, b, u, now, jb));
  }

  /** What a response charges on strings: the token rates, then the quota. */
  function ResponseCommands(rp: string, qp: string, text: Store<string>, q: UserQos, items: seq<QuotaItem>, u: Usage, now: int, jitter: seq<nat>): seq<Cmd<string>>
    requires RulesKnown(DefaultRules(), q) && |jitter| == |q.rateLimits|
  {
    RatePipeline(DefaultRules(), rp, text, now, q, TypeToken, u.total, now, jitter) + QuotaCharges(qp, q, items, Counts(u))
  }

  lemma ResponseIsText(rp: string, qp: string, text: Store<string>, store: Store<Key>, q: UserQos, items: seq<QuotaItem>, u: Usage, now: int, jitter: seq<nat>)
      returns (j: seq<nat>)
    requires Represents(rp, qp, text, store) && SafeQos(q) && SafeItems(items) && DistinctItems(items)
    requires RulesKnown(DefaultRules(), q) && |jitter| == |q.rateLimits|
    ensures var cs := RateList(DefaultRules(), q, TypeToken, |q.rateLimits|) + QuotaList(q, items);
            && |j| == |cs| && AllSafe(CommandsOfAll(store, cs, u, now, j))
            && ResponseCommands(rp, qp, text, q, items, u, now, jitter) == TextCmds(rp, qp, CommandsOfAll(store, cs, u, now, j))
  {
    var rates, quotas := RateList(DefaultRules(), q, TypeToken, |q.rateLimits|), QuotaList(q, items);
    QuotaListIs(q, items);
    var ja, jb := jitter[..|rates|], seq(|items|, _ => 0);
    j := ja + jb;
    PipelineIsText(rp, qp, text, store, q, TypeToken, u, u.total, now, ja);
    QuotaChargesAreText(rp, qp, store, q, items, u, now, jb);
    CommandsConcat(store, rates, quotas, u, now, ja, jb);
    TextConcat(rp, qp, CommandsOfAll(store, rates, u, now, ja), CommandsOfAll(store, quotas, u, now, jb));
  }

  lemma DistinctQuotas(q: UserQos, items: seq<QuotaItem>)
    requires DistinctItems(items)
    ensures Distinct(QuotaList(q, items))
  {
    QuotaListIs(q, items);
  }

  /** A response reports usage `u`, and `rates` and `quotas` are charged. */
  lemma RespondRun(p: Policy, s: State, id: int, rates: seq<Counter>, quotas: seq<Counter>, u: Usage, j: seq<nat>) returns (steps: seq<Step>, s': State)
    requires GatewayTimes(p) && Capped(p, s) && Enabled(p, s, Respond(id, u))
    requires AllRates(rates) && AllQuotas(quotas) && Distinct(rates) && Distinct(quotas) && |j| == |rates + quotas|
    requires Admission.Second(s.reqs[id].qos) == Elems(rates) + Elems(quotas)
    ensures Path(p, s, steps, s') && s'.reqs == s.reqs[id := Reported(s.reqs[id], u, s.clock).(phase := InFlight)]
    ensures s'.store == ApplyAll(s.store, CommandsOfAll(s.store, rates + quotas, u, s.clock, j))
  {
    var b := Reported(s.reqs[id], u, s.clock);
    assert b.phase.todo == Elems(rates) && b.phase.incr == Elems(quotas);
    var s1 := InPipe(s, id, b, Elems(rates), Elems(quotas), {});
    assert Do(p, s, Respond(id, u)) == s1;
    StepPath(p, s, Respond(id, u), id);
    var rest;
    rest, s' := PipePath(p, s, id, b, rates, quotas, j);
    PathConcat(p, s, [Respond(id, u)], s1, rest, s');
    steps := [Respond(id, u)] + rest;
  }

  /** The charge on the response side, as limiter and quota service carry it out on strings, is a path
      of the step machine that leaves the request in flight. */
  lemma ResponseChargeIsPath(p: Policy, rp: string, qp: string, text: Store<string>, s: State, id: int, q: UserQos, items: seq<QuotaItem>, u: Usage, jitter: seq<nat>)
      returns (steps: seq<Step>, s': State)
    requires GatewayTimes(p) && Capped(p, s) && Represents(rp, qp, text, s.store) && Enabled(p, s, Respond(id, u))
    requires SafeQos(q) && RulesKnown(DefaultRules(), q) && DistinctKinds(q) && |jitter| == |q.rateLimits|
    requires SafeItems(items) && DistinctItems(items)
    requires Admission.Second(s.reqs[id].qos) == Elems(RateList(DefaultRules(), q, TypeToken, |q.rateLimits|)) + Elems(QuotaList(q, items))
    ensures Path(p, s, steps, s') && s'.reqs == s.reqs[id := Reported(s.reqs[id], u, s.clock).(phase := InFlight)]
    ensures Represents(rp, qp, ApplyAll(text, ResponseCommands(rp, qp, text, q, items, u, s.clock, jitter)), s'.store)
  {
    var rates, quotas := RateList(DefaultRules(), q, TypeToken, |q.rateLimits|), QuotaList(q, items);
    RateListIs(DefaultRules(), q, TypeToken, |q.rateLimits|);
    QuotaListIs(q, items);
    DistinctQuotas(q, items);
    var j := ResponseIsText(rp, qp, text, s.store, q, items, u, s.clock, jitter);
    steps, s' := RespondRun(p, s, id, rates, quotas, u, j);
    CommandsRefine(rp, qp, text, s.store, CommandsOfAll(s.store, rates + quotas, u, s.clock, j));
  }

  // ---------------------------------------------------------------------------------------
  // The check

  /** The counters of a QoS with quota types `items`, in the order of the checks. */
  function Checked(q: UserQos, items: seq<QuotaItem>): seq<Counter>
    requires RulesKnown(DefaultRules(), q)
  {
    RateList(DefaultRules(), q, TypeRequest, |q.rateLimits|) + RateList(DefaultRules(), q, TypeToken, |q.rateLimits|) + QuotaList(q, items)
  }

  /** The policy's limits are those of the QoS and the quota. */
  predicate LimitsOf(p: Policy, q: UserQos, items: seq<QuotaItem>) {
    && (forall i :: 0 <= i < |q.rateLimits| ==> p.limit(RateCounter(q, q.rateLimits[i].kind)) == q.rateLimits[i].value)
    && (forall i :: 0 <= i < |items| ==> p.limit(QuotaCounter(q, items[i].kind)) == items[i].value)
  }

  predicate CounterOver(p: Policy, s: State, c: Counter) { OverLimit(p, c, Get(s.store, (c, p.win(c, s.clock)))) }

  lemma RateOverIs(p: Policy, rp: string, qp: string, text: Store<string>, s: State, q: UserQos, l: RateLimit)
    requires GatewayTimes(p) && Represents(rp, qp, text, s.store) && SafeQos(q) && l.kind in DefaultRules()
    requires p.limit(RateCounter(q, l.kind)) == l.value
    ensures CounterOver(p, s, RateCounter(q, l.kind)) <==> Over(DefaultRules(), rp, text, q, l, s.clock)
  {
    var c := RateCounter(q, l.kind);
    DefaultNames(l.kind);
    LimitKeyIsText(rp, qp, q, l.kind, s.clock);
    CommandRefines(rp, qp, text, s.store, IncrBy(KeyAt(c, s.clock), 0), 0);
  }

  lemma QuotaOverIs(p: Policy, rp: string, qp: string, text: Store<string>, s: State, q: UserQos, item: QuotaItem)
    requires GatewayTimes(p) && Represents(rp, qp, text, s.store) && SafeQos(q) && '=' !in item.kind
    requires p.limit(QuotaCounter(q, item.kind)) == item.value
    ensures CounterOver(p, s, QuotaCounter(q, item.kind))
            <==> Get(text, QuotaKey(qp, QuotaLabels(q.namespace, q.quotaName, item.kind))) > item.value
  {
    CommandRefines(rp, qp, text, s.store, IncrBy(KeyAt(QuotaCounter(q, item.kind), s.clock), 0), 0);
  }

  /** What is checked: a counter for each limit and each quota type. */
  lemma CheckedAre(q: UserQos, items: seq<QuotaItem>)
    requires RulesKnown(DefaultRules(), q) && DistinctKinds(q) && DistinctItems(items)
    ensures forall c :: c in Checked(q, items) <==>
              || (exists i :: 0 <= i < |q.rateLimits| && c == RateCounter(q, q.rateLimits[i].kind))
              || (exists i :: 0 <= i < |items| && c == QuotaCounter(q, items[i].kind))
  {
    RateListIs(DefaultRules(), q, TypeRequest, |q.rateLimits|);
    RateListIs(DefaultRules(), q, TypeToken, |q.rateLimits|);
    QuotaListIs(q, items);
  }

  /** The gateway's two checks on strings find room if and only if every read of the step machine does:
      exactly then can the request be admitted undisturbed. */
  lemma ChecksAgree(p: Policy, rp: string, qp: string, text: Store<string>, s: State, q: UserQos, items: seq<QuotaItem>)
    requires GatewayTimes(p) && Represents(rp, qp, text, s.store) && SafeQos(q) && SafeItems(items)
    requires RulesKnown(DefaultRules(), q) && DistinctKinds(q) && DistinctItems(items) && LimitsOf(p, q, items)
    ensures (exists c :: c in Checked(q, items) && CounterOver(p, s, c))
            <==> RateOver(DefaultRules(), rp, text, q, s.clock) || QuotaOver(qp, text, q, items)
  {
    CheckedAre(q, items);
    forall i | 0 <= i < |q.rateLimits|
      ensures RateCounter(q, q.rateLimits[i].kind) in Checked(q, items)
      ensures CounterOver(p, s, RateCounter(q, q.rateLimits[i].kind)) <==> Over(DefaultRules(), rp, text, q, q.rateLimits[i], s.clock)
    {
      RateOverIs(p, rp, qp, text, s, q, q.rateLimits[i]);
    }
    forall i | 0 <= i < |items|
      ensures QuotaCounter(q, items[i].kind) in Checked(q, items)
      ensures CounterOver(p, s, QuotaCounter(q, items[i].kind))
              <==> Get(text, QuotaKey(qp, QuotaLabels(q.namespace, q.quotaName, items[i].kind))) > items[i].value
    {
      QuotaOverIs(p, rp, qp, text, s, q, items[i]);
    }
  }

  function Asking(s: State, id: int, q: set<Counter>, todo: set<Counter>): State {
    s.(reqs := s.reqs[id := Request(q, Checking(s.clock, todo), map[])])
  }

  lemma {:induction false} ReadCounters(p: Policy, s: State, id: int, cs: seq<Counter>, n: nat) returns (steps: seq<Step>)
    requires n <= |cs| && Distinct(cs) && Capped(p, Asking(s, id, Elems(cs), Elems(cs)))
    requires forall c :: c in cs ==> !CounterOver(p, s, c)
    ensures var s' := Asking(s, id, Elems(cs), Elems(cs) - Elems(cs[..n]));
            Path(p, Asking(s, id, Elems(cs), Elems(cs)), steps, s') && Capped(p, s')
    decreases n
  {
    var s0 := Asking(s, id, Elems(cs), Elems(cs));
    if n == 0 {
      steps := [];
      assert Elems(cs[..0]) == {} && Elems(cs) - {} == Elems(cs);
    } else {
      var a := ReadCounters(p, s, id, cs, n - 1);
      var c, done := cs[n - 1], Elems(cs[..n - 1]);
      ElemsSplit(cs, n - 1);
      var m, s' := Asking(s, id, Elems(cs), Elems(cs) - done), Asking(s, id, Elems(cs), Elems(cs) - Elems(cs[..n]));
      assert (Elems(cs) - done) - {c} == Elems(cs) - Elems(cs[..n]) && c in cs;
      assert Do(p, m, Read(id, c)).reqs == m.reqs[id := s'.reqs[id]] == s'.reqs;
      StepPath(p, m, Read(id, c), id);
      PathConcat(p, s0, a, m, [Read(id, c)], s');
      steps := a + [Read(id, c)];
    }
  }

  lemma CheckedDistinct(q: UserQos, items: seq<QuotaItem>)
    requires RulesKnown(DefaultRules(), q) && DistinctKinds(q) && DistinctItems(items)
    ensures Distinct(Checked(q, items))
  {
    var a, b := RateList(DefaultRules(), q, TypeRequest, |q.rateLimits|), RateList(DefaultRules(), q, TypeToken, |q.rateLimits|);
    RateListIs(DefaultRules(), q, TypeRequest, |q.rateLimits|);
    RateListIs(DefaultRules(), q, TypeToken, |q.rateLimits|);
    QuotaListIs(q, items);
    DistinctQuotas(q, items);
    assert forall c :: c in a ==> c !in b;
    DistinctConcat(a, b);
    DistinctConcat(a + b, QuotaList(q, items));
  }

  lemma DistinctConcat(a: seq<Counter>, b: seq<Counter>)
    requires Distinct(a) && Distinct(b) && forall c :: c in a ==> c !in b
    ensures Distinct(a + b)
  {
    forall i, j | 0 <= i < j < |a + b| ensures (a + b)[i] != (a + b)[j] {
      if i < |a| <= j { assert a[i] in a && b[j - |a|] in b; }
    }
  }

  /** A request that passes the gateway's checks on strings is admitted by a path of the step machine. */
  lemma CheckIsPath(p: Policy, rp: string, qp: string, text: Store<string>, s: State, id: int, q: UserQos, items: seq<QuotaItem>)
      returns (steps: seq<Step>)
    requires GatewayTimes(p) && Represents(rp, qp, text, s.store) && SafeQos(q) && SafeItems(items)
    requires RulesKnown(DefaultRules(), q) && DistinctKinds(q) && DistinctItems(items) && LimitsOf(p, q, items)
    requires id !in s.reqs && Capped(p, s) && Capped(p, Asking(s, id, Elems(Checked(q, items)), Elems(Checked(q, items))))
    requires !RateOver(DefaultRules(), rp, text, q, s.clock) && !QuotaOver(qp, text, q, items)
    ensures Path(p, s, steps, s.(reqs := s.reqs[id := Request(Elems(Checked(q, items)), Admitted, map[])]))
  {
    var cs := Checked(q, items);
    ChecksAgree(p, rp, qp, text, s, q, items);
    CheckedDistinct(q, items);
    var a := ReadCounters(p, s, id, cs, |cs|);
    assert cs[..|cs|] == cs && Elems(cs) - Elems(cs) == {};
    steps := AdmitAfterReads(p, s, id, Elems(cs), a);
  }

  lemma AdmitAfterReads(p: Policy, s: State, id: int, q: set<Counter>, middle: seq<Step>) returns (steps: seq<Step>)
    requires id !in s.reqs && Capped(p, s) && Path(p, Asking(s, id, q, q), middle, Asking(s, id, q, {})) && Capped(p, Asking(s, id, q, {}))
    ensures Path(p, s, steps, s.(reqs := s.reqs[id := Request(q, Admitted, map[])]))
  {
    var s1, s2 := Asking(s, id, q, q), Asking(s, id, q, {});
    var s3 := s.(reqs := s.reqs[id := Request(q, Admitted, map[])]);
    assert Do(p, s, Arrive(id, q)) == s1;
    PathStep(p, s, Arrive(id, q), middle, s2);
    assert Do(p, s2, Admit(id)).reqs == s2.reqs[id := s3.reqs[id]] == s3.reqs;
    StepPath(p, s2, Admit(id), id);
    PathConcat(p, s, [Arrive(id, q)] + middle, s2, [Admit(id)], s3);
    steps := [Arrive(id, q)] + middle + [Admit(id)];
  }
}
