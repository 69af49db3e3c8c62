/** Joins the parts: the gateway's rules satisfy the clockwork of the admission proofs, its key
    strings represent the (counter, window) keys of those proofs, and a charge adds to each of its
    counters once. */
module Accounting {
  import opened Wrappers
  import opened Redis
  import opened Windows
  import opened Keys
  import opened RateLimiter
  import opened Gateway
  import opened Admission

  // ---------------------------------------------------------------------------------------
  // The clockwork

  /** The rule of a rate counter. Names outside the table never reach a counter, see `GetRule`;
      they are given the one-second rule. */
  function RuleOf(c: Counter): Rule
    requires c.Rate?
  {
    if c.rule in DefaultRules() then DefaultRules()[c.rule] else Rule(c.rule, TypeToken, 1, Second)
  }

  function RuleSeconds(c: Counter): int
    requires c.Rate?
  {
    RuleOf(c).period * UnitToSeconds(RuleOf(c).unit)
  }

  function WindowOf(c: Counter, t: int): int {
    if c.Quota? then 0 else WindowStart(t / NANOS, RuleOf(c).period, RuleOf(c).unit)
  }

  function Lifetime(c: Counter): int {
    if c.Quota? then 0 else RuleSeconds(c) * NANOS
  }

  function GatewayPolicy(limit: Counter -> int, maxCharge: Counter -> nat, clients: Counter -> nat): Policy {
    Policy((c, t) => WindowOf(c, t), c => Lifetime(c), limit, maxCharge, clients)
  }

  lemma WindowOfMoves(c: Counter, t1: int, t2: int)
    requires t1 <= t2
    ensures WindowOf(c, t1) <= WindowOf(c, t2)
    ensures c.Rate? && t1 + Lifetime(c) <= t2 ==> WindowOf(c, t1) < WindowOf(c, t2)
  {
    if c.Rate? {
      assert t1 / NANOS <= t2 / NANOS;
      assert t1 + Lifetime(c) <= t2 ==> t1 / NANOS + RuleSeconds(c) <= t2 / NANOS;
      WindowsPartition(t1 / NANOS, t2 / NANOS, RuleOf(c).period, RuleOf(c).unit);
    }
  }

  /** The admission theorems hold for the gateway's own rules and windows. */
  lemma GatewayPolicyValid(limit: Counter -> int, maxCharge: Counter -> nat, clients: Counter -> nat)
    requires forall c :: PerRequest(c) ==> maxCharge(c) == 1
    ensures ValidPolicy(GatewayPolicy(limit, maxCharge, clients))
  {
    var p := GatewayPolicy(limit, maxCharge, clients);
    forall c: Counter, t1, t2 | t1 <= t2 ensures p.win(c, t1) <= p.win(c, t2) {
      WindowOfMoves(c, t1, t2);
    }
    forall c: Counter, t1, t2 | c.Rate? && t1 + p.life(c) <= t2 ensures p.win(c, t1) < p.win(c, t2) {
      WindowOfMoves(c, t1, t2);
    }
  }

  // ---------------------------------------------------------------------------------------
  // Key strings

  /** Kubernetes object names hold no `=`, rule names no `.`. */
  predicate SafeCounter(c: Counter) {
    match c
    case Rate(ns, user, model, rule) => '=' !in ns && '=' !in user && '=' !in model && '.' !in rule
    case Quota(ns, name, kind) => '=' !in ns && '=' !in name && '=' !in kind
  }

  predicate SafeKey(k: Key) {
    SafeCounter(k.0) && (k.0.Quota? ==> k.1 == 0)
  }

  function KeyText(ratePrefix: string, quotaPrefix: string, k: Key): string {
    match k.0
    case Rate(ns, user, model, rule) => RateKey(ratePrefix, RateLabels(ns, user, model), rule, k.1)
    case Quota(ns, name, kind) => QuotaKey(quotaPrefix, QuotaLabels(ns, name, kind))
  }

  lemma RateLabelsDetermine(rp: string, c1: Counter, w1: int, c2: Counter, w2: int)
    requires c1.Rate? && c2.Rate? && SafeCounter(c1) && SafeCounter(c2)
    requires RateKey(rp, RateLabels(c1.namespace, c1.user, c1.model), c1.rule, w1)
             == RateKey(rp, RateLabels(c2.namespace, c2.user, c2.model), c2.rule, w2)
    ensures c1 == c2 && w1 == w2
  {
    var l1, l2 := RateLabels(c1.namespace, c1.user, c1.model), RateLabels(c2.namespace, c2.user, c2.model);
    RateLabelsSafe(c1.namespace, c1.user, c1.model);
    RateLabelsSafe(c2.namespace, c2.user, c2.model);
    RateKeyInjective(rp, l1, c1.rule, w1, l2, c2.rule, w2);
    assert l1[0] == l2[0] && l1[1] == l2[1] && l1[2] == l2[2];
  }

  lemma QuotaLabelsDetermine(qp: string, c1: Counter, c2: Counter)
    requires c1.Quota? && c2.Quota? && SafeCounter(c1) && SafeCounter(c2)
    requires QuotaKey(qp, QuotaLabels(c1.namespace, c1.name, c1.kind)) == QuotaKey(qp, QuotaLabels(c2.namespace, c2.name, c2.kind))
    ensures c1 == c2
  {
    var l1, l2 := QuotaLabels(c1.namespace, c1.name, c1.kind), QuotaLabels(c2.namespace, c2.name, c2.kind);
    QuotaLabelsSafe(c1.namespace, c1.name, c1.kind);
    QuotaLabelsSafe(c2.namespace, c2.name, c2.kind);
    QuotaKeyInjective(qp, l1, l2);
    assert l1[0] == l2[0] && l1[1] == l2[1] && l1[2] == l2[2];
  }

  /** Distinct counters and windows have distinct strings, across rate and quota keys too. */
  lemma KeyTextInjective(rp: string, qp: string, k1: Key, k2: Key)
    requires SafeKey(k1) && SafeKey(k2) && KeyText(rp, qp, k1) == KeyText(rp, qp, k2)
    ensures k1 == k2
  {
    match (k1.0, k2.0)
    case (Rate(_, _, _, _), Rate(_, _, _, _)) =>
      RateLabelsDetermine(rp, k1.0, k1.1, k2.0, k2.1);
    case (Quota(_, _, _), Quota(_, _, _)) =>
      QuotaLabelsDetermine(qp, k1.0, k2.0);
    case (Rate(n1, u1, m1, r1), Quota(n2, q2, t2)) =>
      KeySpacesDisjoint(rp, RateLabels(n1, u1, m1), r1, k1.1, qp, QuotaLabels(n2, q2, t2));
    case (Quota(n1, q1, t1), Rate(n2, u2, m2, r2)) =>
      KeySpacesDisjoint(rp, RateLabels(n2, u2, m2), r2, k2.1, qp, QuotaLabels(n1, q1, t1));
  }

  /** The string-keyed store holds, under the text of each key, what the abstract store holds. */
  ghost predicate Represents(rp: string, qp: string, text: Store<string>, store: Store<Key>) {
    forall k: Key :: SafeKey(k) ==>
      && (KeyText(rp, qp, k) in text <==> k in store)
      && (k in store ==> text[KeyText(rp, qp, k)] == store[k])
  }

  function TextCmd(rp: string, qp: string, cmd: Cmd<Key>): Cmd<string> {
    match cmd
    case IncrBy(k, d) => IncrBy(KeyText(rp, qp, k), d)
    case Expire(k, at) => Expire(KeyText(rp, qp, k), at)
    case Set(k, v) => Set(KeyText(rp, qp, k), v)
  }

  /** Reads agree, and a command on strings refines the command on keys: no counter is touched
      through another counter's string. */
  lemma CommandRefines(rp: string, qp: string, text: Store<string>, store: Store<Key>, cmd: Cmd<Key>, now: int)
    requires Represents(rp, qp, text, store) && SafeKey(cmd.key)
    ensures Get(text, KeyText(rp, qp, cmd.key)) == Get(store, cmd.key)
    ensures Ttl(text, KeyText(rp, qp, cmd.key), now) == Ttl(store, cmd.key, now)
    ensures Represents(rp, qp, Apply(text, TextCmd(rp, qp, cmd)), Apply(store, cmd))
    ensures Represents(rp, qp, text - {KeyText(rp, qp, cmd.key)}, store - {cmd.key})
  {
    forall k: Key | SafeKey(k) && KeyText(rp, qp, k) == KeyText(rp, qp, cmd.key) ensures k == cmd.key {
      KeyTextInjective(rp, qp, k, cmd.key);
    }
  }

  /** The string that the gateway's rate charge increments is the text of the abstract key. */
  lemma LimitKeyIsText(rp: string, qp: string, q: UserQos, kind: string, now: int)
    requires kind in DefaultRules()
    ensures var c := Rate(q.namespace, q.user, q.model, kind);
            LimitKey(DefaultRules(), rp, q, kind, now) == KeyText(rp, qp, (c, WindowOf(c, now)))
            && (PerRequest(c) <==> DefaultRules()[kind].kind.TypeRequest?)
  {
  }

  // ---------------------------------------------------------------------------------------
  // One charge per limit

  predicate DistinctKinds(q: UserQos) {
    forall i, j :: 0 <= i < j < |q.rateLimits| ==> q.rateLimits[i].kind != q.rateLimits[j].kind
  }

  /** Limit `i` is of type `t` and its counter has key `k`. */
  predicate Hits(rules: Rules, prefix: string, q: UserQos, t: LimitType, now: int, i: nat, k: string)
    requires i < |q.rateLimits| && q.rateLimits[i].kind in rules
  {
    rules[q.rateLimits[i].kind].kind == t && LimitKey(rules, prefix, q, q.rateLimits[i].kind, now) == k
  }

  lemma HitOnce(rules: Rules, prefix: string, q: UserQos, t: LimitType, now: int, i: nat, j: nat, k: string)
    requires i < j < |q.rateLimits| && q.rateLimits[i].kind in rules && q.rateLimits[j].kind in rules && DistinctKinds(q)
    ensures !(Hits(rules, prefix, q, t, now, i, k) && Hits(rules, prefix, q, t, now, j, k))
  {
    LimitKeysDiffer(rules, prefix, q, q.rateLimits[i].kind, q.rateLimits[j].kind, now);
  }

  /** What the charge of one more limit adds. */
  lemma OneMore(rules: Rules, prefix: string, q: UserQos, t: LimitType, count: int, now: int, n: nat, k: string)
    requires n < |q.rateLimits| && KnownUpTo(rules, q, n + 1)
    ensures Added(RuleCharges(rules, prefix, q, t, count, now, n + 1), k)
            == Added(RuleCharges(rules, prefix, q, t, count, now, n), k) + if Hits(rules, prefix, q, t, now, n, k) then count else 0
  {
    var kind := q.rateLimits[n].kind;
    var init := RuleCharges(rules, prefix, q, t, count, now, n);
    if rules[kind].kind == t {
      var cmd := IncrBy(LimitKey(rules, prefix, q, kind, now), count);
      AddedConcat(init, [cmd], k);
      AddedOne(cmd, k);
    } else {
      assert RuleCharges(rules, prefix, q, t, count, now, n + 1) == init + [] == init;
    }
  }

  /** A total that goes up by `count` at each hit, when there is at most one hit. */
  lemma {:induction false} AtMostOneHit(total: nat -> int, hit: nat -> bool, count: int, n: nat)
    requires total(0) == 0 && forall i: nat :: i < n ==> total(i + 1) == total(i) + if hit(i) then count else 0
    requires forall i: nat, j: nat :: i < j < n ==> !(hit(i) && hit(j))
    ensures total(n) == if exists i: nat :: i < n && hit(i) then count else 0
  {
    if n > 0 {
      AtMostOneHit(total, hit, count, n - 1);
      assert total((n - 1) + 1) == total(n - 1) + if hit(n - 1) then count else 0;
    }
  }

  /** What the first limits add to `k`, and which of them do. */
  ghost function Totals(rules: Rules, prefix: string, q: UserQos, t: LimitType, count: int, now: int, k: string): nat -> int
    requires RulesKnown(rules, q)
  {
    (n: nat) => if n <= |q.rateLimits| then Added(RuleCharges(rules, prefix, q, t, count, now, n), k) else 0
  }

  ghost function HitsOf(rules: Rules, prefix: string, q: UserQos, t: LimitType, now: int, k: string): nat -> bool
    requires RulesKnown(rules, q)
  {
    (i: nat) => i < |q.rateLimits| && Hits(rules, prefix, q, t, now, i, k)
  }

  lemma TotalGoesUp(rules: Rules, prefix: string, q: UserQos, t: LimitType, count: int, now: int, k: string, i: nat)
    requires RulesKnown(rules, q) && i < |q.rateLimits|
    ensures var total, hit := Totals(rules, prefix, q, t, count, now, k), HitsOf(rules, prefix, q, t, now, k);
            total(i + 1) == total(i) + if hit(i) then count else 0
  {
    OneMore(rules, prefix, q, t, count, now, i, k);
  }

  lemma TotalsGoUp(rules: Rules, prefix: string, q: UserQos, t: LimitType, count: int, now: int, k: string)
    requires RulesKnown(rules, q)
    ensures var total, hit := Totals(rules, prefix, q, t, count, now, k), HitsOf(rules, prefix, q, t, now, k);
            total(0) == 0 && forall i: nat :: i < |q.rateLimits| ==> total(i + 1) == total(i) + if hit(i) then count else 0
  {
    var total, hit := Totals(rules, prefix, q, t, count, now, k), HitsOf(rules, prefix, q, t, now, k);
    forall i: nat | i < |q.rateLimits| ensures total(i + 1) == total(i) + if hit(i) then count else 0 {
      TotalGoesUp(rules, prefix, q, t, count, now, k, i);
    }
  }

  lemma HitsOnce(rules: Rules, prefix: string, q: UserQos, t: LimitType, now: int, k: string)
    requires RulesKnown(rules, q) && DistinctKinds(q)
    ensures var hit := HitsOf(rules, prefix, q, t, now, k);
            forall i: nat, j: nat :: i < j < |q.rateLimits| ==> !(hit(i) && hit(j))
  {
    forall i: nat, j: nat | i < j < |q.rateLimits|
      ensures !(HitsOf(rules, prefix, q, t, now, k)(i) && HitsOf(rules, prefix, q, t, now, k)(j))
    {
      HitOnce(rules, prefix, q, t, now, i, j, k);
    }
  }

  /** When each rule type appears once, a charge adds `count` exactly once to the counter of each
      rule of its type, and nothing to any other key. */
  lemma ChargedOnce(rules: Rules, prefix: string, q: UserQos, t: LimitType, count: int, now: int, k: string)
    requires RulesKnown(rules, q) && DistinctKinds(q)
    ensures Added(RuleCharges(rules, prefix, q, t, count, now, |q.rateLimits|), k)
            == if exists i: nat :: i < |q.rateLimits| && Hits(rules, prefix, q, t, now, i, k) then count else 0
  {
    var total, hit := Totals(rules, prefix, q, t, count, now, k), HitsOf(rules, prefix, q, t, now, k);
    TotalsGoUp(rules, prefix, q, t, count, now, k);
    HitsOnce(rules, prefix, q, t, now, k);
    AtMostOneHit(total, hit, count, |q.rateLimits|);
    assert forall i: nat :: i < |q.rateLimits| ==> (hit(i) <==> Hits(rules, prefix, q, t, now, i, k));
  }

  lemma LimitKeysDiffer(rules: Rules, prefix: string, q: UserQos, k1: string, k2: string, now: int)
    requires k1 in rules && k2 in rules && k1 != k2
    ensures LimitKey(rules, prefix, q, k1, now) != LimitKey(rules, prefix, q, k2, now)
  {
    if LimitKey(rules, prefix, q, k1, now) == LimitKey(rules, prefix, q, k2, now) {
      RateKeySameLabels(prefix, RateLabels(q.namespace, q.user, q.model),
                        k1, WindowStart(now / NANOS, rules[k1].period, rules[k1].unit),
                        k2, WindowStart(now / NANOS, rules[k2].period, rules[k2].unit));
    }
  }
}
