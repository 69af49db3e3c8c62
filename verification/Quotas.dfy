/** Quota counters: requests built from a quota configuration, and the Redis service that
    increments, overwrites and reads them. Quota keys never expire. */
module Quotas {
  import opened Wrappers
  import opened Redis
  import opened RedisConnection
  import opened Keys

  datatype QuotaItem = QuotaItem(kind: string, value: int)

  datatype QuotaConfig = QuotaConfig(name: string, namespace: string, limits: seq<QuotaItem>)

  datatype QuotaRequest = QuotaRequest(identifier: seq<Label>, limit: int, request: int)

  datatype QuotaResult = QuotaResult(identifier: seq<Label>, overLimit: bool, currentUsage: int, limitMax: int)

  /** A missing count reads as 0. */
  function CountOf(counts: map<string, int>, kind: string): int {
    if kind in counts then counts[kind] else 0
  }

  /** One request per limit, in order, labelled with the quota's namespace, name and type. */
  method QosToQuotaRequests(conf: QuotaConfig, counts: map<string, int>) returns (requests: seq<QuotaRequest>)
    ensures |requests| == |conf.limits|
    ensures forall i :: 0 <= i < |requests| ==>
              requests[i] == QuotaRequest(QuotaLabels(conf.namespace, conf.name, conf.limits[i].kind),
                                          conf.limits[i].value, CountOf(counts, conf.limits[i].kind))
  {
    requests := [];
    for i := 0 to |conf.limits|
      invariant |requests| == i
      invariant forall j :: 0 <= j < i ==>
                  requests[j] == QuotaRequest(QuotaLabels(conf.namespace, conf.name, conf.limits[j].kind),
                                              conf.limits[j].value, CountOf(counts, conf.limits[j].kind))
    {
      var limit := conf.limits[i];
      requests := requests + [QuotaRequest(QuotaLabels(conf.namespace, conf.name, limit.kind), limit.value,
                                           CountOf(counts, limit.kind))];
    }
  }

  /** The INCRBY commands of the requests, in order. */
  function Increments(prefix: string, reqs: seq<QuotaRequest>): seq<Cmd<string>> {
    if reqs == [] then []
    else
      var n := |reqs| - 1;
      Increments(prefix, reqs[..n]) + [IncrBy(QuotaKey(prefix, reqs[n].identifier), reqs[n].request)]
  }

  lemma {:induction false} IncrementsPlain(prefix: string, reqs: seq<QuotaRequest>)
    ensures |Increments(prefix, reqs)| == |reqs|
    ensures forall i :: 0 <= i < |reqs| ==> Increments(prefix, reqs)[i] == IncrBy(QuotaKey(prefix, reqs[i].identifier), reqs[i].request)
  {
    if reqs != [] {
      IncrementsPlain(prefix, reqs[..|reqs| - 1]);
    }
  }

  /** The value that the last request for key `k` sets. */
  function LastSet(prefix: string, reqs: seq<QuotaRequest>, k: string): Option<int> {
    if reqs == [] then None
    else
      var n := |reqs| - 1;
      if QuotaKey(prefix, reqs[n].identifier) == k then Some(reqs[n].request) else LastSet(prefix, reqs[..n], k)
  }

  class RedisQuotaService {
    const prefix: string
    const client: RedisClient

    constructor (client: RedisClient, prefix: string)
      ensures this.client == client && this.prefix == prefix
    {
      this.client := client;
      this.prefix := prefix;
    }

    method IncrUsage(requests: seq<QuotaRequest>) returns (ok: bool)
      modifies client`store
      ensures ok <==> client.reachable || requests == []
      ensures !ok ==> client.store == old(client.store)
      ensures ok ==> client.store == ApplyAll(old(client.store), Increments(prefix, requests))
      ensures ok ==> forall k :: Get(client.store, k) == old(Get(client.store, k)) + Added(Increments(prefix, requests), k)
    {
      var pipe: seq<Cmd<string>> := [];
      for i := 0 to |requests|
        invariant client.store == old(client.store)
        invariant pipe == Increments(prefix, requests[..i])
      {
        assert requests[..i + 1][..i] == requests[..i];
        var key := GenerateQuotaKey(prefix, requests[i].identifier);
        pipe := pipe + [IncrBy(key, requests[i].request)];
      }
      assert requests[..|requests|] == requests;
      IncrementsPlain(prefix, requests);
      forall k ensures Get(ApplyAll(client.store, pipe), k) == Get(client.store, k) + Added(pipe, k) {
        ApplyAllAdds(client.store, pipe, k);
      }
      ok := client.Exec(pipe);
    }

    /** Overwrites each requested counter with the last request for it; other keys keep their
        value. */
    method SetUsage(requests: seq<QuotaRequest>) returns (ok: bool)
      modifies client`store
      ensures ok <==> client.reachable || requests == []
      ensures !ok ==> client.store == old(client.store)
      ensures ok ==> forall k :: Get(client.store, k) == (match LastSet(prefix, requests, k)
                                                          case None => old(Get(client.store, k))
                                                          case Some(v) => v)
    {
      var pipe: seq<Cmd<string>> := [];
      for i := 0 to |requests|
        invariant client.store == old(client.store)
        invariant |pipe| == i
        invariant forall k :: Get(ApplyAll(client.store, pipe), k) == (match LastSet(prefix, requests[..i], k)
                                                                       case None => Get(client.store, k)
                                                                       case Some(v) => v)
      {
        assert requests[..i + 1][..i] == requests[..i];
        var key := GenerateQuotaKey(prefix, requests[i].identifier);
        ApplyAllSnoc(client.store, pipe, Set(key, requests[i].request));
        pipe := pipe + [Set(key, requests[i].request)];
      }
      assert requests[..|requests|] == requests;
      ok := client.Exec(pipe);
    }

    /** Reads every counter; a counter equal to its limit is not over it. */
    method GetUsage(requests: seq<QuotaRequest>) returns (r: Result<seq<QuotaResult>>)
      ensures r.Ok? <==> client.reachable || requests == []
      ensures r.Ok? ==> |r.value| == |requests| && forall i :: 0 <= i < |requests| ==>
                var current := Get(client.store, QuotaKey(prefix, requests[i].identifier));
                r.value[i] == QuotaResult(requests[i].identifier, current > requests[i].limit, current, requests[i].limit)
    {
      var keys: seq<string> := [];
      for i := 0 to |requests|
        invariant |keys| == i && forall j :: 0 <= j < i ==> keys[j] == QuotaKey(prefix, requests[j].identifier)
      {
        var key := GenerateQuotaKey(prefix, requests[i].identifier);
        keys := keys + [key];
      }
      if requests != [] && !client.reachable {
        return Err;
      }
      var results: seq<QuotaResult> := [];
      for i := 0 to |requests|
        invariant |results| == i
        invariant forall j :: 0 <= j < i ==>
                    var current := Get(client.store, keys[j]);
                    results[j] == QuotaResult(requests[j].identifier, current > requests[j].limit, current, requests[j].limit)
      {
        var current := Get(client.store, keys[i]);
        results := results + [QuotaResult(requests[i].identifier, current > requests[i].limit, current, requests[i].limit)];
      }
      return Ok(results);
    }
  }
}
