/** The request side of the gateway: QoS lookup, admission checks before any increment, and the
    increments; and the token charges of the response side. */
module Gateway {
  import opened Wrappers
  import opened Redis
  import opened RedisConnection
  import opened Windows
  import opened Keys
  import opened RateLimiter
  import opened Quotas
  import opened TokenUsage

  datatype RateLimit = RateLimit(kind: string, value: int)

  datatype UserQos = UserQos(user: string, namespace: string, model: string, quotaName: string, rateLimits: seq<RateLimit>)

  datatype QosEntry = QosEntry(endpoint: string, rateLimits: seq<RateLimit>, quota: string)

  datatype ArksToken = ArksToken(name: string, namespace: string, token: string, qos: seq<QosEntry>)

  datatype RequestBody = RequestBody(model: string, stream: Option<bool>, includeUsage: Option<bool>)

  datatype Reply = Forward(model: string, namespace: string, user: string) | Immediate(status: int)

  // ---------------------------------------------------------------------------------------
  // Configuration lookup

  /** The QoS of a token and a model: the entry of the first token object with that token, and in
      it the first entry for that endpoint. */
  ghost predicate IsQosFor(tokens: seq<ArksToken>, token: string, model: string, q: UserQos) {
    exists i, j ::
      && 0 <= i < |tokens| && tokens[i].token == token
      && (forall i' :: 0 <= i' < i ==> tokens[i'].token != token)
      && 0 <= j < |tokens[i].qos| && tokens[i].qos[j].endpoint == model
      && (forall j' :: 0 <= j' < j ==> tokens[i].qos[j'].endpoint != model)
      && q == UserQos(tokens[i].name, tokens[i].namespace, model, tokens[i].qos[j].quota, tokens[i].qos[j].rateLimits)
  }

  class ConfigProvider {
    var serving: bool
    var tokens: seq<ArksToken>
    var endpoints: seq<(string, string)>
    var quotas: map<(string, string), seq<QuotaItem>>

    method GetQosByToken(token: string, model: string) returns (r: Result<UserQos>)
      ensures r.Ok? <==> serving && exists q :: IsQosFor(tokens, token, model, q)
      ensures r.Ok? ==> IsQosFor(tokens, token, model, r.value)
    {
      if !serving {
        return Err;
      }
      var i := 0;
      while i < |tokens| && tokens[i].token != token
        invariant 0 <= i <= |tokens|
        invariant forall i' :: 0 <= i' < i ==> tokens[i'].token != token
      {
        i := i + 1;
      }
      if i == |tokens| {
        return Err;
      }
      var obj := tokens[i];
      for j := 0 to |obj.qos|
        invariant forall j' :: 0 <= j' < j ==> obj.qos[j'].endpoint != model
      {
        if obj.qos[j].endpoint == model {
          r := Ok(UserQos(obj.name, obj.namespace, obj.qos[j].endpoint, obj.qos[j].quota, obj.qos[j].rateLimits));
          assert IsQosFor(tokens, token, model, r.value);
          return;
        }
      }
      return Err;
    }

    method GetModelList(namespace: string) returns (r: Result<seq<string>>)
      ensures r.Ok? <==> serving
      ensures r.Ok? ==> forall m :: m in r.value <==> (namespace, m) in endpoints
    {
      if !serving {
        return Err;
      }
      var models: seq<string> := [];
      for i := 0 to |endpoints|
        invariant forall m :: m in models <==> (namespace, m) in endpoints[..i]
      {
        assert endpoints[..i + 1] == endpoints[..i] + [endpoints[i]];
        if endpoints[i].0 == namespace {
          models := models + [endpoints[i].1];
        }
      }
      assert endpoints[..|endpoints|] == endpoints;
      return Ok(models);
    }

    method GetQuotaConfig(namespace: string, name: string) returns (r: Result<QuotaConfig>)
      ensures r.Ok? <==> serving && (namespace, name) in quotas
      ensures r.Ok? ==> r.value == QuotaConfig(name, namespace, quotas[(namespace, name)])
    {
      if !serving || (namespace, name) !in quotas {
        return Err;
      }
      return Ok(QuotaConfig(name, namespace, quotas[(namespace, name)]));
    }
  }

  /** Two lookups of the same token and model agree: the identity charged at the response is the
      one admitted at the request. */
  lemma QosUnique(tokens: seq<ArksToken>, token: string, model: string, q1: UserQos, q2: UserQos)
    requires IsQosFor(tokens, token, model, q1) && IsQosFor(tokens, token, model, q2)
    ensures q1 == q2
  {
  }

  // ---------------------------------------------------------------------------------------
  // What the checks and the charges mean

  function ToRateLimitRequest(q: UserQos, ruleName: string, limit: int, request: int): RateRequest {
    RateRequest(RateLabels(q.namespace, q.user, q.model), ruleName, limit, request)
  }

  predicate KnownUpTo(rules: Rules, q: UserQos, n: nat)
    requires n <= |q.rateLimits|
  {
    forall i :: 0 <= i < n ==> q.rateLimits[i].kind in rules
  }

  predicate RulesKnown(rules: Rules, q: UserQos) {
    KnownUpTo(rules, q, |q.rateLimits|)
  }

  function LimitKey(rules: Rules, prefix: string, q: UserQos, kind: string, now: int): string
    requires kind in rules
  {
    KeyFor(prefix, ToRateLimitRequest(q, kind, 0, 0), rules[kind], now)
  }

  /** The limit has no room: a request rule for one more request, a token rule for what it
      already holds. */
  predicate Over(rules: Rules, prefix: string, store: Store<string>, q: UserQos, l: RateLimit, now: int)
    requires l.kind in rules
  {
    Get(store, LimitKey(rules, prefix, q, l.kind, now)) + (if rules[l.kind].kind.TypeRequest? then 1 else 0) > l.value
  }

  /** The response to the check of limit `l` says over limit exactly when `l` has no room. */
  lemma CheckOneIsOver(rules: Rules, prefix: string, store: Store<string>, redisNow: int, q: UserQos, l: RateLimit, now: int)
    requires l.kind in rules
    ensures var req := ToRateLimitRequest(q, l.kind, l.value, if rules[l.kind].kind.TypeRequest? then 1 else 0);
            var r := CheckOne(rules, prefix, store, redisNow, req, now);
            r.Some? && (r.value.overLimit <==> Over(rules, prefix, store, q, l, now))
  {
  }

  predicate RateOver(rules: Rules, prefix: string, store: Store<string>, q: UserQos, now: int)
    requires RulesKnown(rules, q)
  {
    exists i :: 0 <= i < |q.rateLimits| && Over(rules, prefix, store, q, q.rateLimits[i], now)
  }

  predicate QuotaOver(prefix: string, store: Store<string>, q: UserQos, items: seq<QuotaItem>) {
    exists i :: 0 <= i < |items| &&
      Get(store, QuotaKey(prefix, QuotaLabels(q.namespace, q.quotaName, items[i].kind))) > items[i].value
  }

  /** The increments that charge `count` to every rule of type `t` among the first `n` limits. */
  function RuleCharges(rules: Rules, prefix: string, q: UserQos, t: LimitType, count: int, now: int, n: nat): seq<Cmd<string>>
    requires n <= |q.rateLimits| && KnownUpTo(rules, q, n)
  {
    if n == 0 then []
    else
      var kind := q.rateLimits[n - 1].kind;
      RuleCharges(rules, prefix, q, t, count, now, n - 1)
      + if rules[kind].kind == t then [IncrBy(LimitKey(rules, prefix, q, kind, now), count)] else []
  }

  /** The rate-limit requests for the rules of type `t` among the first `n` limits. */
  function Selected(rules: Rules, q: UserQos, t: LimitType, count: int, n: nat): (r: seq<RateRequest>)
    requires n <= |q.rateLimits| && KnownUpTo(rules, q, n)
    ensures |r| <= n
  {
    if n == 0 then []
    else
      var l := q.rateLimits[n - 1];
      Selected(rules, q, t, count, n - 1)
      + if rules[l.kind].kind == t then [ToRateLimitRequest(q, l.kind, l.value, count)] else []
  }

  /** The pipeline that charges `count` to every rule of type `t`. */
  function RatePipeline(rules: Rules, prefix: string, store: Store<string>, redisNow: int, q: UserQos, t: LimitType, count: int, now: int, jitter: seq<nat>)
    : seq<Cmd<string>>
    requires RulesKnown(rules, q) && |jitter| == |q.rateLimits|
  {
    var requests := Selected(rules, q, t, count, |q.rateLimits|);
    Pipeline(rules, prefix, store, redisNow, requests, now, jitter[..|requests|])
  }

  lemma {:induction false} SelectedKnown(rules: Rules, q: UserQos, t: LimitType, count: int, n: nat)
    requires n <= |q.rateLimits| && KnownUpTo(rules, q, n)
    ensures forall r :: r in Selected(rules, q, t, count, n) ==> r.ruleName in rules
    ensures Selected(rules, q, t, count, n) == [] <==> forall j :: 0 <= j < n ==> rules[q.rateLimits[j].kind].kind != t
  {
    if n > 0 {
      SelectedKnown(rules, q, t, count, n - 1);
    }
  }

  lemma {:induction false} SelectedCharges(rules: Rules, prefix: string, q: UserQos, t: LimitType, count: int, now: int, n: nat)
    requires n <= |q.rateLimits| && KnownUpTo(rules, q, n)
    ensures RateLimiter.Increments(rules, prefix, Selected(rules, q, t, count, n), now) == RuleCharges(rules, prefix, q, t, count, now, n)
  {
    if n > 0 {
      SelectedCharges(rules, prefix, q, t, count, now, n - 1);
      var init, l := Selected(rules, q, t, count, n - 1), q.rateLimits[n - 1];
      if rules[l.kind].kind == t {
        var r := ToRateLimitRequest(q, l.kind, l.value, count);
        assert Selected(rules, q, t, count, n) == init + [r];
        IncrementsSnoc(rules, prefix, init, r, now);
      } else {
        assert Selected(rules, q, t, count, n) == init;
        assert RuleCharges(rules, prefix, q, t, count, now, n) == RuleCharges(rules, prefix, q, t, count, now, n - 1);
      }
    }
  }

  /** The responses to the checks of all limits say over limit somewhere exactly when a limit has no
      room. */
  lemma ResponsesMean(rules: Rules, prefix: string, store: Store<string>, redisNow: int, q: UserQos, now: int,
                      requests: seq<RateRequest>, responses: seq<Option<RateResponse>>)
    requires RulesKnown(rules, q) && |requests| == |responses| == |q.rateLimits|
    requires forall j :: 0 <= j < |requests| ==>
               && requests[j] == ToRateLimitRequest(q, q.rateLimits[j].kind, q.rateLimits[j].value,
                                                    if rules[q.rateLimits[j].kind].kind.TypeRequest? then 1 else 0)
               && responses[j] == CheckOne(rules, prefix, store, redisNow, requests[j], now)
    ensures (exists j :: 0 <= j < |responses| && responses[j].Some? && responses[j].value.overLimit)
            <==> RateOver(rules, prefix, store, q, now)
  {
    forall j | 0 <= j < |responses|
      ensures responses[j].Some?
      ensures responses[j].value.overLimit <==> Over(rules, prefix, store, q, q.rateLimits[j], now)
    {
      CheckOneIsOver(rules, prefix, store, redisNow, q, q.rateLimits[j], now);
    }
  }

  method AnyOver(responses: seq<Option<RateResponse>>) returns (over: bool)
    ensures over <==> exists j :: 0 <= j < |responses| && responses[j].Some? && responses[j].value.overLimit
  {
    for i := 0 to |responses|
      invariant forall j :: 0 <= j < i ==> !(responses[j].Some? && responses[j].value.overLimit)
    {
      if responses[i].Some? && responses[i].value.overLimit {
        return true;
      }
    }
    return false;
  }

  datatype Verdict = Pass | Deny(status: int)

  class Server {
    const limiter: RedisRateLimiter
    const quotaService: RedisQuotaService
    const provider: ConfigProvider

    constructor (limiter: RedisRateLimiter, quotaService: RedisQuotaService, provider: ConfigProvider)
      ensures this.limiter == limiter && this.quotaService == quotaService && this.provider == provider
    {
      this.limiter := limiter;
      this.quotaService := quotaService;
      this.provider := provider;
    }

    /** The body parses and names a model that the token may use and that exists, and a stream
        asks for its usage. */
    ghost predicate WellFormed(body: Option<RequestBody>, token: string, q: UserQos)
      reads provider
    {
      && body.Some? && body.value.model != "" && provider.serving
      && IsQosFor(provider.tokens, token, body.value.model, q)
      && (q.namespace, body.value.model) in provider.endpoints
      && (body.value.stream == Some(true) ==> body.value.includeUsage == Some(true))
    }

    /** The body does not parse or names no model, or it names one that the token may use but that does
        not exist, or it asks for a stream without its usage. */
    ghost predicate BadRequest(body: Option<RequestBody>, token: string)
      reads provider
    {
      || body.None? || body.value.model == ""
      || (provider.serving && exists q :: Misdirected(body.value, token, q))
    }

    ghost predicate Misdirected(body: RequestBody, token: string, q: UserQos)
      reads provider
    {
      && IsQosFor(provider.tokens, token, body.model, q)
      && ((q.namespace, body.model) !in provider.endpoints || (body.stream == Some(true) && body.includeUsage != Some(true)))
    }

    ghost predicate RatesPass(q: UserQos, now: int)
      reads limiter.config, limiter.client
    {
      && RulesKnown(limiter.config.rules, q) && (limiter.client.reachable || q.rateLimits == [])
      && !RateOver(limiter.config.rules, limiter.prefix, limiter.client.store, q, now)
    }

    ghost predicate QuotaPasses(q: UserQos)
      reads provider, quotaService.client
    {
      q.quotaName != "" ==>
        && provider.serving && (q.namespace, q.quotaName) in provider.quotas
        && var items := provider.quotas[(q.namespace, q.quotaName)];
           && (quotaService.client.reachable || items == [])
           && !QuotaOver(quotaService.prefix, quotaService.client.store, q, items)
    }

    /** A request is forwarded exactly when it is well formed and every limit has room. A request
        answered with an error changes no counter; a forwarded one adds 1 to each of its request
        counters and changes nothing else. */
    method HandleRequestBody(body: Option<RequestBody>, token: string, now: int, later: int, jitter: nat)
        returns (resp: Reply, qos: Option<UserQos>, model: string, stream: bool)
      modifies limiter.client`store
      ensures resp.Forward? <==> exists q :: old(WellFormed(body, token, q) && RatesPass(q, now) && QuotaPasses(q))
      ensures resp.Forward? ==> qos.Some? && old(WellFormed(body, token, qos.value))
                                && resp == Forward(body.value.model, qos.value.namespace, qos.value.user)
                                && model == qos.value.model == body.value.model
                                && stream == (body.value.stream == Some(true))
      ensures resp.Immediate? ==> limiter.client.store == old(limiter.client.store)
      ensures resp.Immediate? ==> resp.status == 400 || resp.status == 429 || resp.status == 500
      ensures resp == Immediate(400) <==> old(BadRequest(body, token))
      ensures resp.Forward? ==>
                && RulesKnown(limiter.config.rules, qos.value)
                && limiter.client.store == ApplyAll(old(limiter.client.store),
                     RatePipeline(limiter.config.rules, limiter.prefix, old(limiter.client.store), limiter.client.now,
                                  qos.value, TypeRequest, 1, later, seq(|qos.value.rateLimits|, _ => jitter)))
      ensures resp.Forward? ==> RulesKnown(limiter.config.rules, qos.value) && forall k ::
                Get(limiter.client.store, k) == old(Get(limiter.client.store, k))
                + Added(RuleCharges(limiter.config.rules, limiter.prefix, qos.value, TypeRequest, 1, later, |qos.value.rateLimits|), k)
      ensures resp == Immediate(429) <==>
                exists q :: old(WellFormed(body, token, q)) && old(RulesKnown(limiter.config.rules, q))
                            && old(TooMany(q, now))
    {
      qos, model, stream := None, "", false;
      if body.None? {
        resp := Immediate(400);
        return;
      }
      model := body.value.model;
      if model == "" {
        resp := Immediate(400);
        return;
      }
      var found := provider.GetQosByToken(token, model);
      if found.Err? {
        resp := Immediate(500);
        return;
      }
      var q := found.value;
      qos := Some(q);
      forall q' | IsQosFor(provider.tokens, token, model, q') ensures q' == q {
        QosUnique(provider.tokens, token, model, q, q');
      }
      var models := provider.GetModelList(q.namespace);
      if models.Err? {
        resp := Immediate(500);
        return;
      }
      if model !in models.value {
        assert Misdirected(body.value, token, q);
        resp := Immediate(400);
        return;
      }
      if body.value.stream.Some? {
        stream := body.value.stream.value;
      }
      if stream && (body.value.includeUsage.None? || !body.value.includeUsage.value) {
        assert Misdirected(body.value, token, q);
        resp := Immediate(400);
        return;
      }
      assert WellFormed(body, token, q);
      var v := CheckRateLimit(q, now);
      if v.Deny? {
        resp := Immediate(v.status);
        return;
      }
      if q.quotaName != "" {
        v := CheckTokenQuotaLimit(q);
        if v.Deny? {
          resp := Immediate(v.status);
          return;
        }
      }
      var ok := DoRateLimit(q, TypeRequest, 1, later, seq(|q.rateLimits|, _ => jitter));
      if !ok {
        resp := Immediate(500);
        return;
      }
      resp := Forward(model, q.namespace, q.user);
    }

    /** Redis answers, and a rate limit, or past those a quota, has no room. */
    ghost predicate TooMany(q: UserQos, now: int)
      requires RulesKnown(limiter.config.rules, q)
      reads provider, limiter.config, limiter.client, quotaService.client
    {
      if RateOver(limiter.config.rules, limiter.prefix, limiter.client.store, q, now)
      then limiter.client.reachable
      else
        && (limiter.client.reachable || q.rateLimits == [])
        && q.quotaName != "" && provider.serving && (q.namespace, q.quotaName) in provider.quotas
        && quotaService.client.reachable
        && QuotaOver(quotaService.prefix, quotaService.client.store, q, provider.quotas[(q.namespace, q.quotaName)])
    }

    /** One check per rate limit: a request rule asks for one more, a token rule for none. */
    method CheckRequests(q: UserQos) returns (r: Result<seq<RateRequest>>)
      ensures r.Ok? <==> RulesKnown(limiter.config.rules, q)
      ensures r.Ok? ==> |r.value| == |q.rateLimits| && forall j :: 0 <= j < |q.rateLimits| ==>
                r.value[j] == ToRateLimitRequest(q, q.rateLimits[j].kind, q.rateLimits[j].value,
                                                 if limiter.config.rules[q.rateLimits[j].kind].kind.TypeRequest? then 1 else 0)
    {
      var rules := limiter.config.rules;
      var requests: seq<RateRequest> := [];
      for i := 0 to |q.rateLimits|
        invariant |requests| == i
        invariant forall j :: 0 <= j < i ==>
                    && q.rateLimits[j].kind in rules
                    && requests[j] == ToRateLimitRequest(q, q.rateLimits[j].kind, q.rateLimits[j].value,
                                                         if rules[q.rateLimits[j].kind].kind.TypeRequest? then 1 else 0)
      {
        var limit := q.rateLimits[i];
        match GetRule(rules, limit.kind)
        case None =>
          return Err;
        case Some(rule) =>
          if rule.kind == TypeRequest {
            requests := requests + [ToRateLimitRequest(q, limit.kind, limit.value, 1)];
          } else {
            requests := requests + [ToRateLimitRequest(q, limit.kind, limit.value, 0)];
          }
      }
      return Ok(requests);
    }

    method CheckRateLimit(q: UserQos, now: int) returns (v: Verdict)
      ensures v == Pass <==> RulesKnown(limiter.config.rules, q) && (limiter.client.reachable || q.rateLimits == [])
                             && !RateOver(limiter.config.rules, limiter.prefix, limiter.client.store, q, now)
      ensures v.Deny? ==> v.status == 500 || v.status == 429
      ensures v == Deny(429) <==> RulesKnown(limiter.config.rules, q) && limiter.client.reachable
                                  && RateOver(limiter.config.rules, limiter.prefix, limiter.client.store, q, now)
    {
      var requests := CheckRequests(q);
      if requests.Err? {
        return Deny(500);
      }
      var resp := limiter.CheckLimit(requests.value, now);
      if requests.value != [] {
        assert requests.value[0] in requests.value;
      }
      if resp.Err? {
        return Deny(500);
      }
      ResponsesMean(limiter.config.rules, limiter.prefix, limiter.client.store, limiter.client.now, q, now, requests.value, resp.value);
      var over := AnyOver(resp.value);
      return if over then Deny(429) else Pass;
    }

    method CheckTokenQuotaLimit(q: UserQos) returns (v: Verdict)
      ensures var known := provider.serving && (q.namespace, q.quotaName) in provider.quotas;
              var items := if known then provider.quotas[(q.namespace, q.quotaName)] else [];
              && (v == Pass <==> known && (quotaService.client.reachable || items == [])
                                 && !QuotaOver(quotaService.prefix, quotaService.client.store, q, items))
              && (v.Deny? ==> v.status == 500 || v.status == 429)
              && (v == Deny(429) <==> known && quotaService.client.reachable
                                      && QuotaOver(quotaService.prefix, quotaService.client.store, q, items))
    {
      var conf := provider.GetQuotaConfig(q.namespace, q.quotaName);
      if conf.Err? {
        return Deny(500);
      }
      var requests := QosToQuotaRequests(conf.value, map[]);
      var usage := quotaService.GetUsage(requests);
      if usage.Err? {
        return Deny(500);
      }
      for i := 0 to |usage.value|
        invariant forall j :: 0 <= j < i ==> !usage.value[j].overLimit
      {
        if usage.value[i].overLimit {
          return Deny(429);
        }
      }
      return Pass;
    }

    /** The rate-limit requests that charge `count` to every rule of type `t`. */
    method ChargeRequests(q: UserQos, t: LimitType, count: int) returns (r: Result<seq<RateRequest>>)
      ensures r.Ok? <==> RulesKnown(limiter.config.rules, q)
      ensures r.Ok? ==> r.value == Selected(limiter.config.rules, q, t, count, |q.rateLimits|)
    {
      var rules := limiter.config.rules;
      var requests: seq<RateRequest> := [];
      for i := 0 to |q.rateLimits|
        invariant KnownUpTo(rules, q, i)
        invariant requests == Selected(rules, q, t, count, i)
      {
        var limit := q.rateLimits[i];
        match GetRule(rules, limit.kind)
        case None =>
          return Err;
        case Some(rule) =>
          if rule.kind == t {
            requests := requests + [ToRateLimitRequest(q, limit.kind, limit.value, count)];
          }
      }
      return Ok(requests);
    }

    /** Charges `count` to every limit of type `t`: what the request-side and the response-side rate
        charge have in common. */
    method DoRateLimit(q: UserQos, t: LimitType, count: int, now: int, jitter: seq<nat>) returns (ok: bool)
      requires |jitter| == |q.rateLimits|
      modifies limiter.client`store
      ensures ok <==> old(RatesChargeable(q, t))
      ensures !ok ==> limiter.client.store == old(limiter.client.store)
      ensures ok ==>
                && RulesKnown(limiter.config.rules, q)
                && limiter.client.store == ApplyAll(old(limiter.client.store),
                     RatePipeline(limiter.config.rules, limiter.prefix, old(limiter.client.store), limiter.client.now, q, t, count, now, jitter))
      ensures ok ==> RulesKnown(limiter.config.rules, q) && forall k ::
                       Get(limiter.client.store, k) == old(Get(limiter.client.store, k))
                       + Added(RuleCharges(limiter.config.rules, limiter.prefix, q, t, count, now, |q.rateLimits|), k)
    {
      var requests := ChargeRequests(q, t, count);
      if requests.Err? {
        return false;
      }
      SelectedKnown(limiter.config.rules, q, t, count, |q.rateLimits|);
      if requests.value != [] {
        assert requests.value[0] in requests.value;
      }
      SelectedCharges(limiter.config.rules, limiter.prefix, q, t, count, now, |q.rateLimits|);
      ok := limiter.DoLimit(requests.value, now, jitter[..|requests.value|]);
    }

    /** Adds each count to the quota counter of its type; without a quota there is nothing to do. */
    method DoTokenQuotaLimit(q: UserQos, counts: map<string, int>) returns (ok: bool)
      modifies quotaService.client`store
      ensures ok <==> old(QuotaChargeable(q))
      ensures !ok || q.quotaName == "" ==> quotaService.client.store == old(quotaService.client.store)
      ensures ok ==> quotaService.client.store == ApplyAll(old(quotaService.client.store), QuotaChargesOf(q, counts))
      ensures ok ==> forall k :: Get(quotaService.client.store, k) == old(Get(quotaService.client.store, k))
                                 + Added(QuotaChargesOf(q, counts), k)
    {
      if q.quotaName == "" {
        return true;
      }
      var conf := provider.GetQuotaConfig(q.namespace, q.quotaName);
      if conf.Err? {
        return false;
      }
      var requests := QosToQuotaRequests(conf.value, counts);
      QuotaIncrements(quotaService.prefix, q, conf.value.limits, counts, requests);
      ok := quotaService.IncrUsage(requests);
    }

    /** Every rule is known, and Redis answers if there is anything to charge to type `t`. */
    ghost predicate RatesChargeable(q: UserQos, t: LimitType)
      reads limiter.config, limiter.client
    {
      && RulesKnown(limiter.config.rules, q)
      && (limiter.client.reachable || forall l :: l in q.rateLimits ==> limiter.config.rules[l.kind].kind != t)
    }

    /** There is no quota, or it exists and Redis answers if it has any type. */
    ghost predicate QuotaChargeable(q: UserQos)
      reads provider, quotaService.client
    {
      q.quotaName == "" ||
      (&& provider.serving && (q.namespace, q.quotaName) in provider.quotas
       && (quotaService.client.reachable || provider.quotas[(q.namespace, q.quotaName)] == []))
    }

    ghost function QuotaChargesOf(q: UserQos, counts: map<string, int>): seq<Cmd<string>>
      reads provider
    {
      if q.quotaName == "" || (q.namespace, q.quotaName) !in provider.quotas then []
      else QuotaCharges(quotaService.prefix, q, provider.quotas[(q.namespace, q.quotaName)], counts)
    }

    /** The charge of a response that reported its usage: the total to every token rate, then each
        count to the quota type of its name. It succeeds exactly when both can be charged; when only
        the quota cannot, the rates alone are charged, and otherwise nothing is. */
    method ChargeUsage(q: UserQos, u: Usage, now: int, jitter: nat) returns (ok: bool)
      requires limiter.client == quotaService.client
      modifies limiter.client`store
      ensures ok <==> old(RatesChargeable(q, TypeToken) && QuotaChargeable(q))
      ensures !old(RatesChargeable(q, TypeToken)) ==> limiter.client.store == old(limiter.client.store)
      ensures old(RatesChargeable(q, TypeToken)) ==> RulesKnown(limiter.config.rules, q) && forall k ::
                Get(limiter.client.store, k) == old(Get(limiter.client.store, k))
                + Added(RuleCharges(limiter.config.rules, limiter.prefix, q, TypeToken, u.total, now, |q.rateLimits|), k)
                + (if ok then Added(QuotaChargesOf(q, Counts(u)), k) else 0)
    {
      ok := DoRateLimit(q, TypeToken, u.total, now, seq(|q.rateLimits|, _ => jitter));
      if !ok {
        return;
      }
      ok := DoTokenQuotaLimit(q, Counts(u));
    }
  }

  /** The increments that charge `counts` to the quota types `items`. */
  function QuotaCharges(prefix: string, q: UserQos, items: seq<QuotaItem>, counts: map<string, int>): seq<Cmd<string>> {
    if items == [] then []
    else
      var n := |items| - 1;
      QuotaCharges(prefix, q, items[..n], counts)
      + [IncrBy(QuotaKey(prefix, QuotaLabels(q.namespace, q.quotaName, items[n].kind)), CountOf(counts, items[n].kind))]
  }

  lemma {:induction false} QuotaIncrements(prefix: string, q: UserQos, items: seq<QuotaItem>, counts: map<string, int>, reqs: seq<QuotaRequest>)
    requires |reqs| == |items|
    requires forall i :: 0 <= i < |reqs| ==>
               && reqs[i].identifier == QuotaLabels(q.namespace, q.quotaName, items[i].kind)
               && reqs[i].request == CountOf(counts, items[i].kind)
    ensures Quotas.Increments(prefix, reqs) == QuotaCharges(prefix, q, items, counts)
  {
    if reqs != [] {
      var n := |reqs| - 1;
      QuotaIncrements(prefix, q, items[..n], counts, reqs[..n]);
    }
  }
}
