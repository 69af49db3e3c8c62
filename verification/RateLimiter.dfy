/** The fixed-window rate limiter over Redis: `CheckLimit` reads, `DoLimit`
    queues INCRBY and EXPIRE into a pipeline while it reads TTLs outside it. */
module RateLimiter {
  import opened Wrappers
  import opened Redis
  import opened RedisConnection
  import opened Windows
  import opened Keys

  datatype LimitType = TypeRequest | TypeToken

  datatype Rule = Rule(name: string, kind: LimitType, period: int, unit: LimitUnit)

  datatype RateRequest = RateRequest(identifier: seq<Label>, ruleName: string, limit: int, request: int)

  datatype RateResponse = RateResponse(
    ruleName: string, overLimit: bool, currentUsage: int, limitMax: int, expiresAt: int)

  type Rules = map<string, Rule>

  class LimitConfig {
    var rules: Rules

    constructor ()
      ensures rules == map[]
    {
      rules := map[];
    }

    method AddRule(rule: Rule)
      modifies this
      ensures rules == old(rules)[rule.name := rule]
    {
      rules := rules[rule.name := rule];
    }
  }

  /** The four predefined rules. */
  function DefaultRules(): Rules {
    map["rpm" := Rule("rpm", TypeRequest, 1, Minute),
        "rpd" := Rule("rpd", TypeRequest, 1, Day),
        "tpm" := Rule("tpm", TypeToken, 1, Minute),
        "tpd" := Rule("tpd", TypeToken, 1, Day)]
  }

  method NewLimitConfig() returns (config: LimitConfig)
    ensures fresh(config) && config.rules == DefaultRules()
  {
    config := new LimitConfig();
    config.AddRule(Rule("rpm", TypeRequest, 1, Minute));
    config.AddRule(Rule("rpd", TypeRequest, 1, Day));
    config.AddRule(Rule("tpm", TypeToken, 1, Minute));
    config.AddRule(Rule("tpd", TypeToken, 1, Day));
  }

  function GetRule(rules: Rules, name: string): Option<Rule> {
    if name in rules then Some(rules[name]) else None
  }

  /** The key of a request under a rule, for a clock sample `now` in nanoseconds. */
  function KeyFor(prefix: string, req: RateRequest, rule: Rule, now: int): string {
    RateKey(prefix, req.identifier, req.ruleName, WindowStart(now / NANOS, rule.period, rule.unit))
  }

  /** The response to one request; an unknown rule has none. */
  function CheckOne(rules: Rules, prefix: string, store: Store<string>, redisNow: int, req: RateRequest, now: int)
    : Option<RateResponse>
  {
    match GetRule(rules, req.ruleName)
    case None => None
    case Some(rule) =>
      var key := KeyFor(prefix, req, rule, now);
      var current := Get(store, key);
      var ttl := Ttl(store, key, redisNow);
      Some(RateResponse(req.ruleName, current + req.request > req.limit, current, req.limit,
                        now + if ttl < 0 then 0 else ttl))
  }

  /** The increments that the requests ask for, one per known rule. */
  function Increments(rules: Rules, prefix: string, reqs: seq<RateRequest>, now: int): seq<Cmd<string>> {
    if reqs == [] then []
    else
      var n := |reqs| - 1;
      Increments(rules, prefix, reqs[..n], now)
      + match GetRule(rules, reqs[n].ruleName)
        case None => []
        case Some(rule) => [IncrBy(KeyFor(prefix, reqs[n], rule, now), reqs[n].request)]
  }

  lemma IncrementsSnoc(rules: Rules, prefix: string, reqs: seq<RateRequest>, r: RateRequest, now: int)
    requires r.ruleName in rules
    ensures Increments(rules, prefix, reqs + [r], now)
            == Increments(rules, prefix, reqs, now) + [IncrBy(KeyFor(prefix, r, rules[r.ruleName], now), r.request)]
  {
    assert (reqs + [r])[..|reqs|] == reqs;
  }

  /** The commands queued for one request: INCRBY, and EXPIRE when the TTL read found none. */
  function CommandsFor(rules: Rules, prefix: string, store: Store<string>, redisNow: int, req: RateRequest, now: int, jitter: nat)
    : seq<Cmd<string>>
  {
    match GetRule(rules, req.ruleName)
    case None => []
    case Some(rule) =>
      var key := KeyFor(prefix, req, rule, now);
      [IncrBy(key, req.request)]
      + if Ttl(store, key, redisNow) < 0
        then [Expire(key, redisNow + rule.period * UnitToSeconds(rule.unit) * NANOS + jitter)] else []
  }

  function Pipeline(rules: Rules, prefix: string, store: Store<string>, redisNow: int, reqs: seq<RateRequest>, now: int, jitter: seq<nat>)
    : seq<Cmd<string>>
    requires |jitter| == |reqs|
  {
    if reqs == [] then []
    else
      var n := |reqs| - 1;
      Pipeline(rules, prefix, store, redisNow, reqs[..n], now, jitter[..n])
      + CommandsFor(rules, prefix, store, redisNow, reqs[n], now, jitter[n])
  }

  /** Apart from expiries a pipeline is the increments that the requests ask for. */
  lemma {:induction false} PipelineAdds(rules: Rules, prefix: string, store: Store<string>, redisNow: int, reqs: seq<RateRequest>, now: int, jitter: seq<nat>, k: string)
    requires |jitter| == |reqs|
    ensures Added(Pipeline(rules, prefix, store, redisNow, reqs, now, jitter), k) == Added(Increments(rules, prefix, reqs, now), k)
  {
    if reqs != [] {
      var n := |reqs| - 1;
      var cmds := CommandsFor(rules, prefix, store, redisNow, reqs[n], now, jitter[n]);
      PipelineAdds(rules, prefix, store, redisNow, reqs[..n], now, jitter[..n], k);
      AddedConcat(Pipeline(rules, prefix, store, redisNow, reqs[..n], now, jitter[..n]), cmds, k);
      AddedConcat(Increments(rules, prefix, reqs[..n], now), cmds[..if cmds == [] then 0 else 1], k);
      if cmds != [] {
        assert Added(cmds[1..], k) == 0;
        assert cmds[..1] == [cmds[0]] && Added(cmds[..1], k) == Added(cmds, k);
      }
    }
  }

  /** The command acts on the key of this request's rule; an expiry lasts at least the rule's
      period from Redis' clock on. */
  predicate Serves(rules: Rules, prefix: string, req: RateRequest, now: int, redisNow: int, c: Cmd<string>) {
    && req.ruleName in rules
    && !c.Set?
    && c.key == KeyFor(prefix, req, rules[req.ruleName], now)
    && (c.Expire? ==> c.at >= redisNow + rules[req.ruleName].period * UnitToSeconds(rules[req.ruleName].unit) * NANOS)
  }

  /** Every command of a pipeline serves one of the requests, and every incremented key ends up
      with an expiry: it had one when its TTL was read, or the same pipeline sets one. */
  lemma {:induction false} PipelineArms(rules: Rules, prefix: string, store: Store<string>, redisNow: int, reqs: seq<RateRequest>, now: int, jitter: seq<nat>, c: Cmd<string>)
    requires |jitter| == |reqs|
    requires c in Pipeline(rules, prefix, store, redisNow, reqs, now, jitter)
    ensures exists q :: q in reqs && Serves(rules, prefix, q, now, redisNow, c)
    ensures c.IncrBy? && Ttl(store, c.key, redisNow) < 0 ==>
              exists e :: e in Pipeline(rules, prefix, store, redisNow, reqs, now, jitter) && e.Expire? && e.key == c.key
  {
    var n := |reqs| - 1;
    var init := Pipeline(rules, prefix, store, redisNow, reqs[..n], now, jitter[..n]);
    var cmds := CommandsFor(rules, prefix, store, redisNow, reqs[n], now, jitter[n]);
    if c in init {
      PipelineArms(rules, prefix, store, redisNow, reqs[..n], now, jitter[..n], c);
    } else {
      assert Serves(rules, prefix, reqs[n], now, redisNow, c);
      if Ttl(store, c.key, redisNow) < 0 {
        assert cmds[1] in init + cmds;
      }
    }
  }

  lemma {:induction false} PipelineNoSet(rules: Rules, prefix: string, store: Store<string>, redisNow: int, reqs: seq<RateRequest>, now: int, jitter: seq<nat>)
    requires |jitter| == |reqs|
    ensures forall c :: c in Pipeline(rules, prefix, store, redisNow, reqs, now, jitter) ==> !c.Set?
    ensures Pipeline(rules, prefix, store, redisNow, reqs, now, jitter) == []
            <==> forall q :: q in reqs ==> q.ruleName !in rules
  {
    if reqs != [] {
      var n := |reqs| - 1;
      PipelineNoSet(rules, prefix, store, redisNow, reqs[..n], now, jitter[..n]);
      assert reqs == reqs[..n] + [reqs[n]];
    }
  }

  lemma PipelineEffect(rules: Rules, prefix: string, store: Store<string>, redisNow: int, reqs: seq<RateRequest>, now: int, jitter: seq<nat>)
    requires |jitter| == |reqs|
    ensures var cmds := Pipeline(rules, prefix, store, redisNow, reqs, now, jitter);
            forall k :: Get(ApplyAll(store, cmds), k) == Get(store, k) + Added(Increments(rules, prefix, reqs, now), k)
  {
    var cmds := Pipeline(rules, prefix, store, redisNow, reqs, now, jitter);
    PipelineNoSet(rules, prefix, store, redisNow, reqs, now, jitter);
    forall k ensures Get(ApplyAll(store, cmds), k) == Get(store, k) + Added(Increments(rules, prefix, reqs, now), k) {
      PipelineAdds(rules, prefix, store, redisNow, reqs, now, jitter, k);
      ApplyAllAdds(store, cmds, k);
    }
  }

  /** What a check reports: the usage is 0 before the first charge and then everything charged to the
      rule's window, the maximum is the limit asked about, it is over when the request does not fit
      between the two, and it expires when its key does. */
  lemma CheckSeesCharges(rules: Rules, prefix: string, store: Store<string>, redisNow: int, reqs: seq<RateRequest>, now: int,
                         jitter: seq<nat>, q: RateRequest)
    requires |jitter| == |reqs| && q.ruleName in rules
    ensures var key := KeyFor(prefix, q, rules[q.ruleName], now);
            var before := CheckOne(rules, prefix, store, now, q, now);
            var cmds := Pipeline(rules, prefix, store, redisNow, reqs, now, jitter);
            var after := CheckOne(rules, prefix, ApplyAll(store, cmds), now, q, now);
            && before.Some? && after.Some?
            && (key !in store ==> before.value.currentUsage == 0)
            && after.value.currentUsage == before.value.currentUsage + Added(Increments(rules, prefix, reqs, now), key)
            && before.value.ruleName == q.ruleName && before.value.limitMax == q.limit
            && (before.value.overLimit <==> before.value.currentUsage + q.request > before.value.limitMax)
            && before.value.expiresAt
               == (if key in store && store[key].expireAt.Some? && store[key].expireAt.value >= now
                   then store[key].expireAt.value else now)
  {
    PipelineEffect(rules, prefix, store, redisNow, reqs, now, jitter);
  }

  class RedisRateLimiter {
    const prefix: string
    const config: LimitConfig
    const client: RedisClient

    constructor (client: RedisClient, prefix: string)
      ensures this.client == client && this.prefix == prefix && config.rules == DefaultRules()
    {
      var c := NewLimitConfig();
      this.client := client;
      this.prefix := prefix;
      this.config := c;
    }

    /** Reads every counter under one clock sample and changes nothing. */
    method CheckLimit(requests: seq<RateRequest>, now: int) returns (r: Result<seq<Option<RateResponse>>>)
      ensures r.Ok? <==> client.reachable || forall q :: q in requests ==> q.ruleName !in config.rules
      ensures r.Ok? ==> |r.value| == |requests| && forall i :: 0 <= i < |requests| ==>
                r.value[i] == CheckOne(config.rules, prefix, client.store, client.now, requests[i], now)
    {
      var keys: seq<Option<string>> := [];
      var queued := false;
      for i := 0 to |requests|
        invariant |keys| == i
        invariant queued <==> exists j :: 0 <= j < i && requests[j].ruleName in config.rules
        invariant forall j :: 0 <= j < i ==>
                    keys[j] == match GetRule(config.rules, requests[j].ruleName)
                               case None => None
                               case Some(rule) => Some(KeyFor(prefix, requests[j], rule, now))
      {
        match GetRule(config.rules, requests[i].ruleName)
        case None =>
          keys := keys + [None];
        case Some(rule) =>
          var key := GenerateRateKey(prefix, requests[i].identifier, requests[i].ruleName,
                                     WindowStart(now / NANOS, rule.period, rule.unit));
          keys := keys + [Some(key)];
          queued := true;
      }
      if queued && !client.reachable {
        return Err;
      }
      var responses: seq<Option<RateResponse>> := [];
      for i := 0 to |requests|
        invariant |responses| == i
        invariant forall j :: 0 <= j < i ==>
                    responses[j] == CheckOne(config.rules, prefix, client.store, client.now, requests[j], now)
      {
        match keys[i]
        case None =>
          responses := responses + [None];
        case Some(key) =>
          var current := Get(client.store, key);
          var ttl := Ttl(client.store, key, client.now);
          if ttl < 0 {
            ttl := 0;
          }
          responses := responses + [Some(RateResponse(requests[i].ruleName, current + requests[i].request > requests[i].limit,
                                                      current, requests[i].limit, now + ttl))];
      }
      return Ok(responses);
    }

    /** Queues the commands of the requests, reading a TTL for each. */
    method BuildPipeline(requests: seq<RateRequest>, now: int, jitter: seq<nat>) returns (r: Result<seq<Cmd<string>>>)
      requires |jitter| == |requests|
      ensures r.Ok? <==> client.reachable || forall q :: q in requests ==> q.ruleName !in config.rules
      ensures r.Ok? ==> r.value == Pipeline(config.rules, prefix, client.store, client.now, requests, now, jitter)
    {
      var pipe: seq<Cmd<string>> := [];
      for i := 0 to |requests|
        invariant pipe == Pipeline(config.rules, prefix, client.store, client.now, requests[..i], now, jitter[..i])
        invariant client.reachable || forall j :: 0 <= j < i ==> requests[j].ruleName !in config.rules
      {
        var req := requests[i];
        assert requests[..i + 1][..i] == requests[..i] && jitter[..i + 1][..i] == jitter[..i];
        match GetRule(config.rules, req.ruleName)
        case None =>
        case Some(rule) =>
          var key := GenerateRateKey(prefix, req.identifier, req.ruleName, WindowStart(now / NANOS, rule.period, rule.unit));
          var more := [IncrBy(key, req.request)];
          if !client.reachable {
            assert req in requests;
            return Err;
          }
          if Ttl(client.store, key, client.now) < 0 {
            more := more + [Expire(key, client.now + rule.period * UnitToSeconds(rule.unit) * NANOS + jitter[i])];
          }
          assert more == CommandsFor(config.rules, prefix, client.store, client.now, req, now, jitter[i]);
          pipe := pipe + more;
      }
      assert requests[..|requests|] == requests && jitter[..|jitter|] == jitter;
      return Ok(pipe);
    }

    /** Increments every counter of a known rule by its request under one clock sample, and
        touches nothing else; a key without expiry gets one that lasts at least its period. On an
        unreachable server nothing changes. */
    method DoLimit(requests: seq<RateRequest>, now: int, jitter: seq<nat>) returns (ok: bool)
      requires |jitter| == |requests|
      modifies client`store
      ensures ok <==> client.reachable || forall q :: q in requests ==> q.ruleName !in config.rules
      ensures !ok ==> client.store == old(client.store)
      ensures ok ==> client.store == ApplyAll(old(client.store),
                       Pipeline(config.rules, prefix, old(client.store), client.now, requests, now, jitter))
      ensures ok ==> forall k :: Get(client.store, k) == old(Get(client.store, k))
                                 + Added(Increments(config.rules, prefix, requests, now), k)
    {
      var pipe := BuildPipeline(requests, now, jitter);
      if pipe.Err? {
        return false;
      }
      PipelineNoSet(config.rules, prefix, client.store, client.now, requests, now, jitter);
      PipelineEffect(config.rules, prefix, client.store, client.now, requests, now, jitter);
      ok := client.Exec(pipe.value);
    }
  }
}
