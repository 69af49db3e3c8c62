/** Which requests the route of an endpoint takes once the controller is at rest. */
module EndpointTraffic {
  import opened Wrappers
  import opened HttpRoute
  import opened Endpoint
  import opened EndpointRuns

  predicate HasHeader(r: Request, name: string, value: string) { name in r.headers && r.headers[name] == value }

  /** The request is for this endpoint. */
  predicate Own(env: Env, r: Request) { HasHeader(r, "namespace", env.namespace) && HasHeader(r, "model", env.name) }

  /** The request meets one of the user's matches, when there are any. */
  predicate UserMeets(judge: Judge, spec: Spec, r: Request) {
    spec.matches.None? || spec.matches.value == []
    || exists i :: 0 <= i < |spec.matches.value| && MatchMeets(judge, spec.matches.value[i], r)
  }

  predicate Intended(judge: Judge, env: Env, spec: Spec, r: Request) { Own(env, r) && UserMeets(judge, spec, r) }

  // ---------------------------------------------------------------------------------------
  // One match with the controller's headers

  lemma OwnNames()
    ensures Lower("namespace") == "namespace" && Lower("model") == "model" && Lower("Namespace") == "namespace"
  {
  }

  lemma OwnMatch(judge: Judge, env: Env, m: Match, r: Request)
    ensures MatchMeets(judge, m.(headers := m.headers + OwnHeaders(env)), r) <==>
              && MatchMeets(judge, m, r)
              && (Names(m.headers, "namespace") || HasHeader(r, "namespace", env.namespace))
              && (Names(m.headers, "model") || HasHeader(r, "model", env.name))
  {
    OwnNames();
    var hs, a, b := m.headers, OwnHeaders(env)[0], OwnHeaders(env)[1];
    assert hs + OwnHeaders(env) == (hs + [a]) + [b];
    AddedHeaderMeets(judge, hs, a, r);
    AddedHeaderMeets(judge, hs + [a], b, r);
    NamesAdded(hs, a, "model");
  }

  lemma NamesAdded(hs: seq<Header>, h: Header, name: string)
    ensures Names(hs + [h], name) <==> Names(hs, name) || Lower(h.name) == Lower(name)
  {
    var all := hs + [h];
    assert all[|hs|] == h && forall i :: 0 <= i < |hs| ==> all[i] == hs[i];
  }

  /** If the headers name `name`, the one that counts admits no value but `value`. */
  ghost predicate Keeps(judge: Judge, hs: seq<Header>, name: string, value: string) {
    forall i, v :: 0 <= i < |hs| && Counts(hs, i) && Lower(hs[i].name) == name && ValueMeets(judge, hs[i], v) ==> v == value
  }

  lemma {:induction false} CountingOne(hs: seq<Header>, i: nat) returns (k: nat)
    requires i < |hs|
    ensures k < |hs| && Counts(hs, k) && Lower(hs[k].name) == Lower(hs[i].name)
    decreases i
  {
    if Counts(hs, i) {
      k := i;
    } else {
      var j :| 0 <= j < i && Lower(hs[j].name) == Lower(hs[i].name);
      k := CountingOne(hs, j);
    }
  }

  lemma KeptHeader(judge: Judge, hs: seq<Header>, name: string, value: string, r: Request)
    requires HeadersMeet(judge, hs, r) && Keeps(judge, hs, Lower(name), value) && Names(hs, name)
    ensures HasHeader(r, Lower(name), value)
  {
    var i :| 0 <= i < |hs| && Lower(hs[i].name) == Lower(name);
    var k := CountingOne(hs, i);
    assert HeaderMeets(judge, hs[k], r);
  }

  ghost predicate Satisfiable(judge: Judge, m: Match) { exists r :: Proper(r) && MatchMeets(judge, m, r) }

  /** Some request meets the match, and the match admits a wrong value of an own header. */
  ghost predicate Escapes(judge: Judge, env: Env, m: Match) {
    Satisfiable(judge, m) && !(Keeps(judge, m.headers, "namespace", env.namespace) && Keeps(judge, m.headers, "model", env.name))
  }

  lemma KeepingMatch(judge: Judge, env: Env, m: Match, r: Request)
    requires Proper(r) && !Escapes(judge, env, m)
    ensures MatchMeets(judge, m.(headers := m.headers + OwnHeaders(env)), r) <==> MatchMeets(judge, m, r) && Own(env, r)
  {
    OwnNames();
    OwnMatch(judge, env, m, r);
    if MatchMeets(judge, m, r) {
      if Names(m.headers, "namespace") { KeptHeader(judge, m.headers, "namespace", env.namespace, r); }
      if Names(m.headers, "model") { KeptHeader(judge, m.headers, "model", env.name, r); }
    }
  }

  /** A header that a match does not name makes no difference to it. */
  lemma Unnamed(judge: Judge, m: Match, name: string, value: string, r: Request)
    requires MatchMeets(judge, m, r) && Lower(name) == name && !Names(m.headers, name)
    ensures MatchMeets(judge, m, r.(headers := r.headers[name := value]))
  {
    var r' := r.(headers := r.headers[name := value]);
    forall i | 0 <= i < |m.headers| && Counts(m.headers, i) ensures HeaderMeets(judge, m.headers[i], r') {
      assert HeaderMeets(judge, m.headers[i], r);
    }
  }

  /** A named one may take any value that the counting header admits. */
  lemma Named(judge: Judge, m: Match, i: nat, value: string, r: Request)
    requires MatchMeets(judge, m, r) && i < |m.headers| && Counts(m.headers, i) && ValueMeets(judge, m.headers[i], value)
    ensures MatchMeets(judge, m, r.(headers := r.headers[Lower(m.headers[i].name) := value]))
  {
    var name := Lower(m.headers[i].name);
    var r' := r.(headers := r.headers[name := value]);
    forall j | 0 <= j < |m.headers| && Counts(m.headers, j) ensures HeaderMeets(judge, m.headers[j], r') {
      assert HeaderMeets(judge, m.headers[j], r);
      assert j < i || j == i || i < j;
    }
  }

  /** `r` with the endpoint's own value of `name`, unless the match names it. */
  function Filled(m: Match, name: string, value: string, r: Request): Request {
    if Names(m.headers, name) then r else r.(headers := r.headers[name := value])
  }

  lemma EscapingRequest(judge: Judge, env: Env, m: Match) returns (r: Request)
    requires Escapes(judge, env, m)
    ensures Proper(r) && MatchMeets(judge, m.(headers := m.headers + OwnHeaders(env)), r) && !Own(env, r)
  {
    OwnNames();
    var r0 :| Proper(r0) && MatchMeets(judge, m, r0);
    var r1 := Filled(m, "namespace", env.namespace, r0);
    if !Names(m.headers, "namespace") { Unnamed(judge, m, "namespace", env.namespace, r0); }
    var r2 := Filled(m, "model", env.name, r1);
    if !Names(m.headers, "model") { Unnamed(judge, m, "model", env.name, r1); }
    var name, value := "namespace", env.namespace;
    if Keeps(judge, m.headers, "namespace", env.namespace) { name, value := "model", env.name; }
    var i, v :| 0 <= i < |m.headers| && Counts(m.headers, i) && Lower(m.headers[i].name) == name && ValueMeets(judge, m.headers[i], v) && v != value;
    Named(judge, m, i, v, r2);
    r := r2.(headers := r2.headers[name := v]);
    assert Names(m.headers, name);
    OwnMatch(judge, env, m, r);
  }

  // ---------------------------------------------------------------------------------------
  // The rule

  /** There are matches, or no list of them at all, and none of them escapes. */
  ghost predicate Selective(judge: Judge, env: Env, spec: Spec) {
    spec.matches.Some? ==>
      spec.matches.value != [] && forall i :: 0 <= i < |spec.matches.value| ==> !Escapes(judge, env, spec.matches.value[i])
  }

  ghost predicate TakesIntended(judge: Judge, env: Env, spec: Spec, rule: Rule) {
    forall r :: Proper(r) ==> (Accepts(judge, rule, r) <==> Intended(judge, env, spec, r))
  }

  lemma SelectiveTakesIntended(judge: Judge, env: Env, spec: Spec, backends: seq<Backend>, r: Request)
    requires Selective(judge, env, spec) && Proper(r)
    ensures Accepts(judge, Defaulted(Rule(backends, RuleMatches(env, spec))), r) <==> Intended(judge, env, spec, r)
  {
    var wanted := Rule(backends, RuleMatches(env, spec));
    DefaultedAccepts(judge, wanted, r);
    if spec.matches.None? {
      var plain := Match(None, [], None);
      assert plain.(headers := plain.headers + OwnHeaders(env)) == wanted.matches[0];
      KeepingMatch(judge, env, plain, r);
    } else {
      var ms := spec.matches.value;
      forall i | 0 <= i < |ms| ensures MatchMeets(judge, wanted.matches[i], r) <==> MatchMeets(judge, ms[i], r) && Own(env, r) {
        KeepingMatch(judge, env, ms[i], r);
      }
    }
  }

  /** The stored rule takes exactly the requests for the endpoint that meet the user's matches, if and
      only if the user gave no empty list of matches, and no match that can be met names an own header
      and admits another value of it. */
  lemma TakesIntendedIff(judge: Judge, env: Env, spec: Spec, backends: seq<Backend>)
    ensures TakesIntended(judge, env, spec, Defaulted(Rule(backends, RuleMatches(env, spec)))) <==> Selective(judge, env, spec)
  {
    var wanted := Rule(backends, RuleMatches(env, spec));
    if Selective(judge, env, spec) {
      forall r | Proper(r) ensures Accepts(judge, Defaulted(wanted), r) <==> Intended(judge, env, spec, r) {
        SelectiveTakesIntended(judge, env, spec, backends, r);
      }
    } else if spec.matches.value == [] {
      var r := Request("/", "", map[]);
      DefaultedAccepts(judge, wanted, r);
      assert Proper(r) && !Own(env, r);
    } else {
      var i :| 0 <= i < |spec.matches.value| && Escapes(judge, env, spec.matches.value[i]);
      var r := EscapingRequest(judge, env, spec.matches.value[i]);
      assert MatchMeets(judge, wanted.matches[i], r);
      DefaultedAccepts(judge, wanted, r);
    }
  }

  /** At rest, in every run: the route takes a request if and only if it is for this namespace and this
      model and meets one of the user's matches when there are any; and this if and only if the
      specification is selective. */
  lemma RouteTakesIntendedIff(judge: Judge, namespace: string, name: string, order: seq<string>, s0: State, steps: seq<Step>, s: State)
    requires var env := Env(namespace, name, order, Defaulted); Initial(s0) && Path(env, s0, steps, s) && Quiescent(s)
    ensures var env, spec := Env(namespace, name, order, Defaulted), s.ep.value.spec;
            Route(s).Some? && (TakesIntended(judge, env, spec, Route(s).value) <==> Selective(judge, env, spec))
  {
    var env := Env(namespace, name, order, Defaulted);
    RouteIsFresh(namespace, name, order, s0, steps, s);
    TakesIntendedIff(judge, env, s.ep.value.spec, FreshRule(env, s).backends);
  }

  /** In particular without matches, and with matches that name neither own header. */
  lemma UnnamedIsSelective(judge: Judge, env: Env, spec: Spec)
    requires spec.matches.Some? ==> spec.matches.value != []
    requires spec.matches.Some? ==> forall i :: 0 <= i < |spec.matches.value| ==>
               !Names(spec.matches.value[i].headers, "namespace") && !Names(spec.matches.value[i].headers, "model")
    ensures Selective(judge, env, spec)
  {
    OwnNames();
  }

  /** Writing a specification back gives it a match, and the same requests meet it. */
  lemma ResubmittedMeans(judge: Judge, spec: Spec, r: Request)
    requires Proper(r)
    ensures Resubmitted(spec).matches.Some? && Resubmitted(spec).matches.value != []
    ensures UserMeets(judge, Resubmitted(spec), r) <==> UserMeets(judge, spec, r)
  {
    AnyPathMeets(r);
    var m := Resubmitted(spec).matches.value[0];
    if Resubmitted(spec) != spec { assert MatchMeets(judge, m, r); }
  }

  /** So only an edit leaves an endpoint with an empty list of matches. */
  lemma {:induction false} UneditedHasMatches(env: Env, s: State, steps: seq<Step>, s': State)
    requires Path(env, s, steps, s') && forall i :: 0 <= i < |steps| ==> !steps[i].EditSpec?
    requires s.ep.Some? && s.ep.value.finalizer ==> s.ep.value.spec.matches.Some? && s.ep.value.spec.matches.value != []
    ensures s'.ep.Some? && s'.ep.value.finalizer ==> s'.ep.value.spec.matches.Some? && s'.ep.value.spec.matches.value != []
    decreases |steps|
  {
    if steps != [] {
      ResubmittedMeans(Judge((_, _) => true, (_, _) => true), if s.ep.Some? then s.ep.value.spec else Spec([], 1, None), Request("/", "", map[]));
      UneditedHasMatches(env, Do(env, s, steps[0]), steps[1..], s');
    }
  }

  /** No request is taken by the routes of two endpoints, if both are selective. */
  lemma RoutesApart(judge: Judge, a: Env, b: Env, sa: Spec, sb: Spec, ba: seq<Backend>, bb: seq<Backend>, r: Request)
    requires Selective(judge, a, sa) && Selective(judge, b, sb) && Proper(r) && (a.namespace, a.name) != (b.namespace, b.name)
    ensures !(Accepts(judge, Defaulted(Rule(ba, RuleMatches(a, sa))), r) && Accepts(judge, Defaulted(Rule(bb, RuleMatches(b, sb))), r))
  {
    SelectiveTakesIntended(judge, a, sa, ba, r);
    SelectiveTakesIntended(judge, b, sb, bb, r);
  }

  /** A specification that is not selective although the API server takes its rule: the name of the
      header is spelled differently. Its route takes requests of another namespace. */
  lemma OtherSpellingEscapes(judge: Judge, env: Env, other: string)
    requires other != env.namespace
    ensures var spec := Spec([], 1, Some([Match(None, [Header("Namespace", other, None)], None)]));
            Valid(Rule([], RuleMatches(env, spec))) && !Selective(judge, env, spec)
  {
    OwnNames();
    var m := Match(None, [Header("Namespace", other, None)], None);
    var r := Request("/", "", map["namespace" := other]);
    assert Counts(m.headers, 0) && ValueMeets(judge, m.headers[0], other);
    assert Proper(r) && MatchMeets(judge, m, r);
    assert Escapes(judge, env, m);
    var spec := Spec([], 1, Some([m]));
    assert spec.matches.value[0] == m;
    assert RuleMatches(env, spec)[0].headers == [Header("Namespace", other, None)] + OwnHeaders(env);
    assert "Namespace"[0] != "namespace"[0] && "Namespace"[0] != "model"[0];
  }
}
