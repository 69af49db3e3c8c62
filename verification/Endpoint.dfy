/** The endpoint controller: an event filter decides which application events recompute the
    backend list of an endpoint, and a reconcile works on a snapshot while events go on. The
    informer's copies of the endpoint and of the HTTPRoute, the delivery of application events and
    the API server all move independently. */
module Endpoint {
  import opened Wrappers
  import opened HttpRoute

  /** `matches` is the user's match configuration, if there is one. */
  datatype Spec = Spec(statics: seq<Backend>, defaultWeight: int, matches: Option<seq<Match>>)

  datatype App = App(replicas: int, readyReplicas: int)

  type Apps = map<string, App>

  predicate IsReady(app: App) { app.replicas == app.readyReplicas }

  function ServiceName(app: string): string { "arks-application-" + app }

  lemma ServiceNameInjective(a: string, b: string)
    requires ServiceName(a) == ServiceName(b)
    ensures a == b
  {
    var n := |"arks-application-"|;
    assert a == ServiceName(a)[n..] && b == ServiceName(b)[n..];
  }

  // ---------------------------------------------------------------------------------------
  // The backend list

  predicate Includes(routes: seq<Backend>, service: string) {
    exists i :: 0 <= i < |routes| && routes[i].service == service
  }

  predicate IsStatic(spec: Spec, app: string) { Includes(spec.statics, ServiceName(app)) }

  /** The application belongs in the route: it exists and all its replicas are ready. */
  predicate Wanted(apps: Apps, app: string) { app in apps && IsReady(apps[app]) }

  /** The dynamic backends, in the order of the listing. */
  function Dynamic(spec: Spec, order: seq<string>, apps: Apps): seq<Backend> {
    if order == [] then []
    else
      var n := |order| - 1;
      Dynamic(spec, order[..n], apps)
      + if Wanted(apps, order[n]) && !IsStatic(spec, order[n])
        then [Backend(ServiceName(order[n]), 8080, spec.defaultWeight)] else []
  }

  /** The from-scratch computation. */
  function Compute(spec: Spec, order: seq<string>, apps: Apps): seq<Backend> {
    spec.statics + Dynamic(spec, order, apps)
  }

  /** The loops of the reconciler: static routes first, then every listed application that is
      ready and not already routed statically. */
  method BuildRoutes(spec: Spec, order: seq<string>, apps: Apps) returns (routes: seq<Backend>)
    ensures routes == Compute(spec, order, apps)
  {
    routes := [];
    var staticRoutes: map<string, Backend> := map[];
    for i := 0 to |spec.statics|
      invariant routes == spec.statics[..i]
      invariant forall s :: s in staticRoutes <==> exists j :: 0 <= j < i && spec.statics[j].service == s
    {
      staticRoutes := staticRoutes[spec.statics[i].service := spec.statics[i]];
      routes := routes + [spec.statics[i]];
    }
    assert spec.statics[..|spec.statics|] == spec.statics;
    for i := 0 to |order|
      invariant routes == spec.statics + Dynamic(spec, order[..i], apps)
    {
      assert order[..i + 1][..i] == order[..i];
      var app := order[i];
      if app !in apps {
        continue;
      }
      var service := ServiceName(app);
      if service in staticRoutes {
        continue;
      }
      if apps[app].replicas != apps[app].readyReplicas {
        continue;
      }
      routes := routes + [Backend(service, 8080, spec.defaultWeight)];
    }
    assert order[..|order|] == order;
  }

  lemma {:induction false} DynamicIncludes(spec: Spec, order: seq<string>, apps: Apps, app: string)
    requires !IsStatic(spec, app)
    ensures Includes(Dynamic(spec, order, apps), ServiceName(app)) <==> app in order && Wanted(apps, app)
  {
    if order != [] {
      var n := |order| - 1;
      var init := Dynamic(spec, order[..n], apps);
      DynamicIncludes(spec, order[..n], apps, app);
      assert order == order[..n] + [order[n]];
      var all := Dynamic(spec, order, apps);
      if Includes(init, ServiceName(app)) {
        var i :| 0 <= i < |init| && init[i].service == ServiceName(app);
        assert all[i] == init[i];
      }
      if Wanted(apps, order[n]) && !IsStatic(spec, order[n]) {
        assert all[|init|].service == ServiceName(order[n]);
        if ServiceName(order[n]) == ServiceName(app) { ServiceNameInjective(order[n], app); }
      } else {
        assert all == init;
      }
    }
  }

  /** An application without a static route is in the computed list exactly when it is listed and
      ready. */
  lemma ComputeIncludes(spec: Spec, order: seq<string>, apps: Apps, app: string)
    requires !IsStatic(spec, app)
    ensures Includes(Compute(spec, order, apps), ServiceName(app)) <==> app in order && Wanted(apps, app)
  {
    DynamicIncludes(spec, order, apps, app);
    var dyn, all := Dynamic(spec, order, apps), Compute(spec, order, apps);
    if Includes(dyn, ServiceName(app)) {
      var i :| 0 <= i < |dyn| && dyn[i].service == ServiceName(app);
      assert all[|spec.statics| + i] == dyn[i];
    }
  }

  /** The backend of an application. */
  predicate IsBackendOf(spec: Spec, app: string, b: Backend) {
    b.service == ServiceName(app) && b.port == 8080 && b.weight == spec.defaultWeight
  }

  ghost predicate Serves(spec: Spec, order: seq<string>, apps: Apps, b: Backend) {
    exists app :: app in order && FullyReady(apps, app) && !IsStatic(spec, app) && IsBackendOf(spec, app, b)
  }

  predicate FullyReady(apps: Apps, app: string) { app in apps && apps[app].readyReplicas == apps[app].replicas }

  lemma {:induction false} DynamicHolds(spec: Spec, order: seq<string>, apps: Apps, b: Backend)
    ensures b in Dynamic(spec, order, apps) <==> Serves(spec, order, apps, b)
  {
    if order != [] {
      var n := |order| - 1;
      DynamicHolds(spec, order[..n], apps, b);
      assert order == order[..n] + [order[n]];
      if Serves(spec, order, apps, b) {
        var app :| app in order && FullyReady(apps, app) && !IsStatic(spec, app) && IsBackendOf(spec, app, b);
        assert app in order[..n] || app == order[n];
      }
    }
  }

  /** The static routes come first, as they are, and the other backends are exactly those of the
      listed applications that are ready and have no static route, on port 8080 with the default
      weight. */
  lemma ComputeHolds(spec: Spec, order: seq<string>, apps: Apps, b: Backend)
    ensures spec.statics <= Compute(spec, order, apps)
    ensures b in Compute(spec, order, apps)[|spec.statics|..] <==> Serves(spec, order, apps, b)
  {
    DynamicHolds(spec, order, apps, b);
    assert Compute(spec, order, apps)[|spec.statics|..] == Dynamic(spec, order, apps);
  }

  /** No application is listed twice. */
  lemma {:induction false} DynamicOnce(spec: Spec, order: seq<string>, apps: Apps, i: nat, j: nat)
    requires (forall x, y :: 0 <= x < y < |order| ==> order[x] != order[y]) && i < j < |Dynamic(spec, order, apps)|
    ensures Dynamic(spec, order, apps)[i].service != Dynamic(spec, order, apps)[j].service
  {
    var n := |order| - 1;
    var init, all := Dynamic(spec, order[..n], apps), Dynamic(spec, order, apps);
    if j < |init| {
      DynamicOnce(spec, order[..n], apps, i, j);
    } else {
      assert all[i] == init[i] && init[i] in init && all[j].service == ServiceName(order[n]);
      DynamicHolds(spec, order[..n], apps, init[i]);
      var app :| app in order[..n] && FullyReady(apps, app) && !IsStatic(spec, app) && IsBackendOf(spec, app, init[i]);
      if ServiceName(app) == ServiceName(order[n]) { ServiceNameInjective(app, order[n]); }
    }
  }

  lemma {:induction false} DynamicSame(spec: Spec, order: seq<string>, a: Apps, b: Apps)
    requires forall n :: n in order && !IsStatic(spec, n) ==> Wanted(a, n) == Wanted(b, n)
    ensures Dynamic(spec, order, a) == Dynamic(spec, order, b)
  {
    if order != [] {
      assert order[|order| - 1] in order;
      DynamicSame(spec, order[..|order| - 1], a, b);
    }
  }

  // ---------------------------------------------------------------------------------------
  // The event filter

  datatype Event = Event(app: string, before: Option<App>, after: Option<App>)

  /** The filter, given whether the endpoint's status lists the application. */
  predicate Triggers(e: Event, included: bool) {
    match (e.before, e.after)
    case (None, Some(n)) => if IsReady(n) then !included else included
    case (Some(o), None) => included
    case (Some(o), Some(n)) => IsReady(o) != IsReady(n)
    case (None, None) => false
  }

  datatype Ep = Ep(version: int, spec: Spec, status: seq<Backend>, finalizer: bool)

  predicate FilterApp(e: Event, cache: Option<Ep>) {
    cache.Some? && Triggers(e, Includes(cache.value.status, ServiceName(e.app)))
  }

  // ---------------------------------------------------------------------------------------
  // The route

  /** The endpoint's identity, the listing order of its applications, and what the API server makes
      of a rule it is given: its schema fills in what the writer left open. */
  datatype Env = Env(namespace: string, name: string, order: seq<string>, stored: Rule -> Rule)

  /** The two headers that pick the endpoint. */
  function OwnHeaders(env: Env): seq<Header> {
    [Header("namespace", env.namespace, None), Header("model", env.name, None)]
  }

  function RuleMatches(env: Env, spec: Spec): seq<Match> {
    match spec.matches
    case None => [Match(None, OwnHeaders(env), None)]
    case Some(ms) => seq(|ms|, i requires 0 <= i < |ms| => ms[i].(headers := ms[i].headers + OwnHeaders(env)))
  }

  /** The specification once the controller has written the object back: an empty list of matches is
      left out, and the endpoint's own schema fills it in. */
  function Resubmitted(spec: Spec): Spec {
    if spec.matches.None? || spec.matches.value == [] then spec.(matches := Some([Match(Some(ANY_PATH), [], None)])) else spec
  }

  /** Whatever the schema has stored differs from every rule that the controller asks for. */
  lemma StoredIsNeverWanted(env: Env, spec: Spec, backends: seq<Backend>, r: Rule)
    ensures Defaulted(r) != Rule(backends, RuleMatches(env, spec))
  {
    var stored, wanted := Defaulted(r).matches, RuleMatches(env, spec);
    if wanted != [] {
      var own := wanted[0].headers[|wanted[0].headers| - 1];
      assert own == OwnHeaders(env)[1] && own.kind.None?;
      forall i | 0 <= i < |stored[0].headers| ensures stored[0].headers[i].kind.Some? {
      }
    }
  }

  // ---------------------------------------------------------------------------------------
  // The system

  /** `copy` is the informer's HTTPRoute as the reconcile read it. */
  datatype Work =
    | Idle
    | Started(ep: Ep)
    | Listed(ep: Ep, routes: seq<Backend>)
    | Fetched(ep: Ep, routes: seq<Backend>, copy: Option<Rule>)
    | Routed(ep: Ep, routes: seq<Backend>)

  /** A write of the route: what it was based on, what the server had, what was wanted. */
  datatype Write = NoWrite | Write(copy: Option<Rule>, server: Option<Rule>, wanted: Rule)

  /** `ep` is the API server's endpoint, `cache` the informer's copy; `apps` the informer's
      applications and `events` their notifications not yet filtered; `log` holds every version of
      the HTTPRoute, of which the informer has seen the first `seen`; `base` remembers the
      applications of the last snapshot and `last` the last write of the route. */
  datatype State = State(
    ep: Option<Ep>, cache: Option<Ep>, apps: Apps, events: seq<Event>,
    pending: bool, work: Work, log: seq<Rule>, seen: nat, base: Apps, last: Write)

  datatype Step =
    | CreateEndpoint(spec: Spec)
    | EditSpec(spec: Spec)
    | ChangeApp(app: string, after: Option<App>)
    | Fail
    | Deliver(copy: Ep)
    | DeliverRoute(versions: nat)
    | HandleEvent
    | Begin
    | List
    | FetchRoute
    | WriteRoute
    | WriteStatus

  function Version(log: seq<Rule>, n: int): Option<Rule> {
    if 0 < n <= |log| then Some(log[n - 1]) else None
  }

  /** The HTTPRoute on the API server. */
  function Route(s: State): Option<Rule> { Version(s.log, |s.log|) }

  function WantedRule(env: Env, w: Work): Rule
    requires !w.Idle? && !w.Started?
  {
    Rule(w.routes, RuleMatches(env, w.ep.spec))
  }

  /** The versions of the route after a patch that takes `copy` to `wanted`: nothing is sent when those
      agree, and the server adds no version when what it stores does not change. */
  function Patched(env: Env, log: seq<Rule>, copy: Option<Rule>, wanted: Rule): seq<Rule> {
    if copy == Some(wanted) || Version(log, |log|) == Some(env.stored(wanted)) then log else log + [env.stored(wanted)]
  }

  function Lookup(apps: Apps, app: string): Option<App> {
    if app in apps then Some(apps[app]) else None
  }

  predicate Enabled(env: Env, s: State, step: Step) {
    match step
    case CreateEndpoint(_) => s.ep.None?
    case EditSpec(_) => s.ep.Some?
    case ChangeApp(app, after) => app in env.order && (after.Some? || app in s.apps)
    case Fail => !s.work.Idle?
    case Deliver(copy) =>
      && s.ep.Some? && 1 <= copy.version <= s.ep.value.version
      && (copy.version == s.ep.value.version ==> copy == s.ep.value)
      && (s.cache.Some? ==> s.cache.value.version < copy.version)
    case DeliverRoute(n) => s.seen < n <= |s.log|
    case HandleEvent => s.events != []
    case Begin => s.pending && s.work.Idle?
    case List => s.work.Started?
    case FetchRoute => s.work.Listed?
    case WriteRoute => s.work.Fetched?
    case WriteStatus => s.work.Routed? && s.ep.Some?
  }

  /** One step. The informer moves on to any later version of the endpoint, whatever those in
      between hold. Writes to the endpoint succeed only on the current resource version; a write that
      changes nothing leaves the version alone; any failed call ends the reconcile and requeues. The
      route is created when the copy says there is none, and otherwise patched with the difference
      between the copy and the wanted rule; a rule that the schema does not allow is refused. */
  function Do(env: Env, s: State, step: Step): State
    requires Enabled(env, s, step)
  {
    match step
    case CreateEndpoint(spec) => s.(ep := Some(Ep(1, spec, [], false)))
    case EditSpec(spec) => s.(ep := Some(s.ep.value.(version := s.ep.value.version + 1, spec := spec)))
    case ChangeApp(app, after) =>
      s.(apps := if after.Some? then s.apps[app := after.value] else s.apps - {app},
         events := s.events + [Event(app, Lookup(s.apps, app), after)])
    case Fail => s.(work := Idle, pending := true)
    case Deliver(copy) => s.(cache := Some(copy), pending := true)
    case DeliverRoute(n) => s.(seen := n)
    case HandleEvent => s.(events := s.events[1..], pending := s.pending || FilterApp(s.events[0], s.cache))
    case Begin =>
      if s.cache.None? then s.(pending := false)
      else if s.cache.value.finalizer then s.(pending := false, work := Started(s.cache.value))
      else if s.ep == s.cache then
        var ep := s.ep.value;
        s.(ep := Some(ep.(version := ep.version + 1, finalizer := true, spec := Resubmitted(ep.spec))))
      else s
    case List => s.(work := Listed(s.work.ep, Compute(s.work.ep.spec, env.order, s.apps)), base := s.apps)
    case FetchRoute => s.(work := Fetched(s.work.ep, s.work.routes, Version(s.log, s.seen)))
    case WriteRoute =>
      var wanted := WantedRule(env, s.work);
      if (s.work.copy.None? && Route(s).Some?) || !Valid(wanted) then s.(work := Idle, pending := true)
      else
        s.(work := Routed(s.work.ep, s.work.routes),
           log := Patched(env, s.log, s.work.copy, wanted),
           last := Write(s.work.copy, Route(s), wanted))
    case WriteStatus =>
      if s.ep.value.version != s.work.ep.version then s.(work := Idle, pending := true)
      else if s.ep.value.status == s.work.routes then s.(work := Idle)
      else s.(work := Idle, ep := Some(s.ep.value.(version := s.ep.value.version + 1, status := s.work.routes)))
  }

  // ---------------------------------------------------------------------------------------
  // The invariant

  /** Every application that has changed sides since the snapshot `base` still has a notification
      in the queue that the filter will let through. */
  ghost predicate Covered(env: Env, spec: Spec, s: State) {
    forall n :: n in env.order && !IsStatic(spec, n) && Wanted(s.base, n) != Wanted(s.apps, n) ==>
      exists i :: 0 <= i < |s.events| && s.events[i].app == n && Triggers(s.events[i], Wanted(s.base, n))
  }

  /** The routes come from the snapshot, and the snapshot's debts are covered. */
  ghost predicate UpToDate(env: Env, s: State, routes: seq<Backend>) {
    && s.ep.Some? && s.ep.value.status == routes && s.ep.value.finalizer
    && routes == Compute(s.ep.value.spec, env.order, s.base)
    && Covered(env, s.ep.value.spec, s)
  }

  predicate Written(w: Work) { w.Listed? || w.Fetched? || w.Routed? }

  /** What the last write left on the server. */
  predicate WriteOk(env: Env, s: State) {
    s.last.Write? ==>
      Route(s) == if s.last.copy == Some(s.last.wanted) then s.last.server else Some(env.stored(s.last.wanted))
  }

  ghost predicate Inv(env: Env, s: State) {
    && (s.ep.Some? ==> s.ep.value.version >= 1 && |s.ep.value.status| <= MAX_BACKENDS)
    && (s.cache.Some? ==> s.ep.Some? && 1 <= s.cache.value.version <= s.ep.value.version
                          && (s.cache.value.version == s.ep.value.version ==> s.cache == s.ep))
    && (!s.work.Idle? ==> s.ep.Some? && s.work.ep.finalizer && s.work.ep.version <= s.ep.value.version
                          && (s.work.ep.version == s.ep.value.version ==> s.work.ep == s.ep.value))
    && s.apps.Keys <= (set n | n in env.order)
    && (forall i :: 0 <= i < |s.events| ==> s.events[i].app in env.order)
    && s.seen <= |s.log| && WriteOk(env, s) && (s.last.Write? ==> Valid(s.last.wanted))
    && (s.work.Fetched? && s.work.copy.Some? ==> s.log != [])
    && (Written(s.work) ==> s.work.routes == Compute(s.work.ep.spec, env.order, s.base))
    && (s.work.Routed? ==> s.last.Write? && s.last.wanted == WantedRule(env, s.work))
    && (s.ep.Some? && s.cache == s.ep && !s.pending ==>
          && (s.work.Idle? ==>
                && s.last.Write? && s.last.wanted == Rule(s.ep.value.status, RuleMatches(env, s.ep.value.spec))
                && UpToDate(env, s, s.ep.value.status))
          && (Written(s.work) && s.work.ep == s.ep.value && s.work.routes == s.ep.value.status
              ==> UpToDate(env, s, s.ep.value.status)))
  }

  predicate Initial(s: State) {
    s == State(None, None, map[], [], false, Idle, [], 0, map[], NoWrite)
  }

  predicate Quiescent(s: State) {
    s.ep.Some? && s.cache == s.ep && s.events == [] && !s.pending && s.work.Idle?
  }

  /** An application event: either it is dropped by nobody yet, or it changes nothing wanted. */
  lemma ChangeKeepsCovered(env: Env, spec: Spec, s: State, app: string, after: Option<App>)
    requires Covered(env, spec, s) && Enabled(env, s, ChangeApp(app, after))
    ensures Covered(env, spec, Do(env, s, ChangeApp(app, after)))
  {
    var s' := Do(env, s, ChangeApp(app, after));
    forall n | n in env.order && !IsStatic(spec, n) && Wanted(s.base, n) != Wanted(s'.apps, n)
      ensures exists i :: 0 <= i < |s'.events| && s'.events[i].app == n && Triggers(s'.events[i], Wanted(s.base, n))
    {
      if Wanted(s.base, n) != Wanted(s.apps, n) {
        var i :| 0 <= i < |s.events| && s.events[i].app == n && Triggers(s.events[i], Wanted(s.base, n));
        assert s'.events[i] == s.events[i];
      } else {
        assert n == app;
        assert s'.events[|s.events|] == Event(app, Lookup(s.apps, app), after);
      }
    }
  }

  /** A dropped event covered nothing: the filter asked the status, and the status lists exactly
      what the snapshot wanted. */
  lemma DropKeepsCovered(env: Env, s: State)
    requires Inv(env, s) && s.events != [] && s.cache == s.ep
    requires s.ep.Some? && UpToDate(env, s, s.ep.value.status) && !FilterApp(s.events[0], s.cache)
    ensures Covered(env, s.ep.value.spec, Do(env, s, HandleEvent))
  {
    var s', spec := Do(env, s, HandleEvent), s.ep.value.spec;
    forall n | n in env.order && !IsStatic(spec, n) && Wanted(s.base, n) != Wanted(s'.apps, n)
      ensures exists i :: 0 <= i < |s'.events| && s'.events[i].app == n && Triggers(s'.events[i], Wanted(s.base, n))
    {
      var i :| 0 <= i < |s.events| && s.events[i].app == n && Triggers(s.events[i], Wanted(s.base, n));
      ComputeIncludes(spec, env.order, s.base, n);
      assert i != 0;
      assert s'.events[i - 1] == s.events[i];
    }
  }

  lemma ChangeAppKeeps(env: Env, s: State, app: string, after: Option<App>)
    requires Inv(env, s) && Enabled(env, s, ChangeApp(app, after))
    ensures Inv(env, Do(env, s, ChangeApp(app, after)))
  {
    var s' := Do(env, s, ChangeApp(app, after));
    if s.ep.Some? && UpToDate(env, s, s.ep.value.status) {
      ChangeKeepsCovered(env, s.ep.value.spec, s, app, after);
      assert UpToDate(env, s', s.ep.value.status);
    }
    forall i | 0 <= i < |s'.events| ensures s'.events[i].app in env.order {
      if i < |s.events| { assert s'.events[i] == s.events[i]; }
    }
  }

  lemma HandleEventKeeps(env: Env, s: State)
    requires Inv(env, s) && s.events != []
    ensures Inv(env, Do(env, s, HandleEvent))
  {
    if s.ep.Some? && s.cache == s.ep && UpToDate(env, s, s.ep.value.status) && !FilterApp(s.events[0], s.cache) {
      DropKeepsCovered(env, s);
    }
  }

  lemma BeginKeeps(env: Env, s: State, step: Step)
    requires Inv(env, s) && Enabled(env, s, step) && (step.Begin? || step.List? || step.FetchRoute?)
    ensures Inv(env, Do(env, s, step))
  {
  }

  lemma WriteRouteKeeps(env: Env, s: State)
    requires Inv(env, s) && Enabled(env, s, WriteRoute)
    ensures Inv(env, Do(env, s, WriteRoute))
  {
  }

  lemma WriteStatusKeeps(env: Env, s: State)
    requires Inv(env, s) && Enabled(env, s, WriteStatus)
    ensures Inv(env, Do(env, s, WriteStatus))
  {
  }

  lemma OutsideKeeps(env: Env, s: State, step: Step)
    requires Inv(env, s) && Enabled(env, s, step)
    requires step.CreateEndpoint? || step.EditSpec? || step.Fail? || step.Deliver? || step.DeliverRoute?
    ensures Inv(env, Do(env, s, step))
  {
  }

  lemma StepKeeps(env: Env, s: State, step: Step)
    requires Inv(env, s) && Enabled(env, s, step)
    ensures Inv(env, Do(env, s, step))
  {
    match step
    case ChangeApp(app, after) => ChangeAppKeeps(env, s, app, after);
    case HandleEvent => HandleEventKeeps(env, s);
    case CreateEndpoint(_) | EditSpec(_) | Fail | Deliver(_) | DeliverRoute(_) => OutsideKeeps(env, s, step);
    case Begin | List | FetchRoute => BeginKeeps(env, s, step);
    case WriteRoute => WriteRouteKeeps(env, s);
    case WriteStatus => WriteStatusKeeps(env, s);
  }
}
