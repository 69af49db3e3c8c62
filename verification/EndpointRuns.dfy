/** What holds of the endpoint controller in every run: when it is at rest the status and the route
    are the from-scratch computation, for the route if and only if the schema never stores a rule
    that the controller could ask for. */
module EndpointRuns {
  import opened Wrappers
  import opened HttpRoute
  import opened Endpoint

  ghost predicate Path(env: Env, s: State, steps: seq<Step>, s': State)
    decreases |steps|
  {
    if steps == [] then s' == s
    else Enabled(env, s, steps[0]) && Path(env, Do(env, s, steps[0]), steps[1..], s')
  }

  lemma {:induction false} PathKeeps(env: Env, s: State, steps: seq<Step>, s': State)
    requires Inv(env, s) && Path(env, s, steps, s')
    ensures Inv(env, s')
    decreases |steps|
  {
    if steps != [] {
      StepKeeps(env, s, steps[0]);
      PathKeeps(env, Do(env, s, steps[0]), steps[1..], s');
    }
  }

  /** Whenever nothing is left to do, the status is the from-scratch computation over the current
      applications, whatever was filtered on the way. */
  lemma QuiescentIsFresh(env: Env, s0: State, steps: seq<Step>, s: State)
    requires Initial(s0) && Path(env, s0, steps, s) && Quiescent(s)
    ensures s.ep.value.status == Compute(s.ep.value.spec, env.order, s.apps)
  {
    PathKeeps(env, s0, steps, s);
    DynamicSame(s.ep.value.spec, env.order, s.base, s.apps);
  }

  /** The list changes if and only if one of its applications changes sides. */
  lemma ListChangesIff(spec: Spec, order: seq<string>, apps: Apps, apps': Apps, app: string)
    requires app in order && !IsStatic(spec, app) && forall n :: n != app ==> Wanted(apps, n) == Wanted(apps', n)
    ensures Compute(spec, order, apps) != Compute(spec, order, apps') <==> Wanted(apps, app) != Wanted(apps', app)
  {
    if Wanted(apps, app) == Wanted(apps', app) {
      DynamicSame(spec, order, apps, apps');
    } else {
      ComputeIncludes(spec, order, apps, app);
      ComputeIncludes(spec, order, apps', app);
    }
  }

  /** The filter is exact: at rest, a change of an application without static route asks for a
      reconcile if and only if it changes the list of backends. */
  lemma FilterIsExact(env: Env, s0: State, steps: seq<Step>, s: State, app: string, after: Option<App>)
    requires Initial(s0) && Path(env, s0, steps, s) && Quiescent(s)
    requires Enabled(env, s, ChangeApp(app, after)) && !IsStatic(s.ep.value.spec, app)
    ensures var spec, s1 := s.ep.value.spec, Do(env, s, ChangeApp(app, after));
            s1.events != [] && (Do(env, s1, HandleEvent).pending <==> Compute(spec, env.order, s1.apps) != Compute(spec, env.order, s.apps))
  {
    var spec, s1 := s.ep.value.spec, Do(env, s, ChangeApp(app, after));
    QuiescentIsFresh(env, s0, steps, s);
    ComputeIncludes(spec, env.order, s.apps, app);
    ListChangesIff(spec, env.order, s.apps, s1.apps, app);
    assert s1.events[0] == Event(app, Lookup(s.apps, app), after);
  }

  function FreshRule(env: Env, s: State): Rule
    requires s.ep.Some?
  {
    Rule(Compute(s.ep.value.spec, env.order, s.apps), RuleMatches(env, s.ep.value.spec))
  }

  /** ... and the route is what the schema makes of it, if and only if the last write was not an empty
      patch against a copy while the server had something else. */
  lemma RouteFreshIff(env: Env, s0: State, steps: seq<Step>, s: State)
    requires Initial(s0) && Path(env, s0, steps, s) && Quiescent(s)
    ensures s.last.Write? && s.last.wanted == FreshRule(env, s)
    ensures Route(s) == Some(env.stored(FreshRule(env, s)))
            <==> !(s.last.copy == Some(s.last.wanted) && s.last.server != Some(env.stored(s.last.wanted)))
  {
    PathKeeps(env, s0, steps, s);
    QuiescentIsFresh(env, s0, steps, s);
  }

  // ---------------------------------------------------------------------------------------
  // What the schema decides

  /** The rule that a specification without applications asks for; every rule is one of these. */
  function StaticRule(env: Env, spec: Spec): Rule { Rule(spec.statics, RuleMatches(env, spec)) }

  predicate Fits(env: Env, spec: Spec) { Valid(StaticRule(env, spec)) }

  ghost predicate AlwaysFresh(env: Env) {
    forall s0, steps, s :: Initial(s0) && Path(env, s0, steps, s) && Quiescent(s) ==>
      Route(s) == Some(env.stored(FreshRule(env, s)))
  }

  /** Some rule that can be asked for is what the server stores for a rule, and not every rule is
      stored in the same way. */
  ghost predicate StoresAWantedRule(env: Env) {
    exists first, other, last :: Confusing(env, first, other, last)
  }

  ghost predicate Confusing(env: Env, first: Spec, other: Spec, last: Spec) {
    && Fits(env, first) && Fits(env, other) && Fits(env, last)
    && env.stored(StaticRule(env, first)) == StaticRule(env, last)
    && env.stored(StaticRule(env, other)) != env.stored(StaticRule(env, last))
  }

  ghost predicate Storable(env: Env, r: Rule) {
    exists spec :: Fits(env, spec) && env.stored(StaticRule(env, spec)) == r
  }

  /** Every version of the route is a rule that was asked for, as stored; copies are such versions. */
  ghost predicate LogOk(env: Env, s: State) {
    && (forall i :: 0 <= i < |s.log| ==> Storable(env, s.log[i]))
    && (s.work.Fetched? && s.work.copy.Some? ==> Storable(env, s.work.copy.value) && s.log != [])
    && (s.last.Write? && s.last.copy.Some? ==>
          Storable(env, s.last.copy.value) && s.last.server.Some? && Storable(env, s.last.server.value))
  }

  lemma LogStep(env: Env, s: State, step: Step)
    requires LogOk(env, s) && Enabled(env, s, step)
    ensures LogOk(env, Do(env, s, step))
  {
    if step.WriteRoute? {
      var spec := s.work.ep.spec.(statics := s.work.routes);
      assert StaticRule(env, spec) == WantedRule(env, s.work);
      assert Fits(env, spec) ==> Storable(env, env.stored(WantedRule(env, s.work)));
    }
  }

  lemma {:induction false} LogKeeps(env: Env, s: State, steps: seq<Step>, s': State)
    requires LogOk(env, s) && Path(env, s, steps, s')
    ensures LogOk(env, s')
    decreases |steps|
  {
    if steps != [] {
      LogStep(env, s, steps[0]);
      LogKeeps(env, Do(env, s, steps[0]), steps[1..], s');
    }
  }

  lemma FreshUnlessConfusing(env: Env, s0: State, steps: seq<Step>, s: State)
    requires Initial(s0) && Path(env, s0, steps, s) && Quiescent(s) && !StoresAWantedRule(env)
    ensures Route(s) == Some(env.stored(FreshRule(env, s)))
  {
    RouteFreshIff(env, s0, steps, s);
    LogKeeps(env, s0, steps, s);
    PathKeeps(env, s0, steps, s);
    if s.last.copy == Some(s.last.wanted) && s.last.server != Some(env.stored(s.last.wanted)) {
      var last := s.ep.value.spec.(statics := s.ep.value.status);
      assert StaticRule(env, last) == s.last.wanted;
      var first :| Fits(env, first) && env.stored(StaticRule(env, first)) == s.last.copy.value;
      var other :| Fits(env, other) && env.stored(StaticRule(env, other)) == s.last.server.value;
      assert Confusing(env, first, other, last);
    }
  }

  /** The route is right at rest in every run if and only if the schema stores no rule that the
      controller can ask for, or stores all of them alike. */
  lemma AlwaysFreshIff(env: Env)
    ensures AlwaysFresh(env) <==> !StoresAWantedRule(env)
  {
    if StoresAWantedRule(env) {
      var first, other, last :| Confusing(env, first, other, last);
      var steps, s := StaleRun(env, first, other, last);
    } else {
      forall s0, steps, s | Initial(s0) && Path(env, s0, steps, s) && Quiescent(s)
        ensures Route(s) == Some(env.stored(FreshRule(env, s)))
      {
        FreshUnlessConfusing(env, s0, steps, s);
      }
    }
  }

  ghost predicate StoresAsWanted(env: Env, spec: Spec) {
    Fits(env, spec) && env.stored(StaticRule(env, spec)) == StaticRule(env, spec)
  }

  /** For a schema that changes nothing it has stored before and tells two rules apart: if and only
      if no rule is stored as it was wanted. */
  lemma AlwaysFreshIffNoneStoredAsWanted(env: Env, a: Spec, b: Spec)
    requires forall r :: env.stored(env.stored(r)) == env.stored(r)
    requires Fits(env, a) && Fits(env, b) && env.stored(StaticRule(env, a)) != env.stored(StaticRule(env, b))
    ensures AlwaysFresh(env) <==> !exists spec :: StoresAsWanted(env, spec)
  {
    AlwaysFreshIff(env);
    if StoresAWantedRule(env) {
      var first, other, last :| Confusing(env, first, other, last);
      assert StoresAsWanted(env, last);
    }
    if spec :| StoresAsWanted(env, spec) {
      assert Confusing(env, spec, a, spec) || Confusing(env, spec, b, spec);
    }
  }

  /** The schema of the HTTPRoute gives every header match its type, which the controller's own
      headers never carry. So every patch sends the rule, and at rest the route is right in every
      run. */
  lemma RouteIsFresh(namespace: string, name: string, order: seq<string>, s0: State, steps: seq<Step>, s: State)
    requires var env := Env(namespace, name, order, Defaulted); Initial(s0) && Path(env, s0, steps, s) && Quiescent(s)
    ensures Route(s) == Some(Defaulted(FreshRule(Env(namespace, name, order, Defaulted), s)))
  {
    var env := Env(namespace, name, order, Defaulted);
    forall first, other, last ensures !Confusing(env, first, other, last) {
      StoredIsNeverWanted(env, last, last.statics, StaticRule(env, first));
    }
    FreshUnlessConfusing(env, s0, steps, s);
  }

  /** Without any defaults the informer's copy can equal the rule that is wanted while the server has
      another one, and the controller rests on a wrong route. */
  lemma RouteStaysWrong(namespace: string, name: string, order: seq<string>)
    ensures !AlwaysFresh(Env(namespace, name, order, r => r))
  {
    var env := Env(namespace, name, order, r => r);
    var none := Spec([], 1, None);
    assert Confusing(env, none, none.(statics := [Backend("other", 8080, 1)]), none);
    AlwaysFreshIff(env);
  }

  // ---------------------------------------------------------------------------------------
  // A run that leaves a stale route

  lemma {:induction false} PathConcat(env: Env, s: State, a: seq<Step>, m: State, b: seq<Step>, s': State)
    requires Path(env, s, a, m) && Path(env, m, b, s')
    ensures Path(env, s, a + b, s')
    decreases |a|
  {
    if a == [] {
      assert a + b == b;
    } else {
      assert (a + b)[1..] == a[1..] + b;
      PathConcat(env, Do(env, s, a[0]), a[1..], m, b, s');
    }
  }

  lemma PathOne(env: Env, s: State, step: Step)
    requires Enabled(env, s, step)
    ensures Path(env, s, [step], Do(env, s, step))
  {
    assert [step][1..] == [];
  }

  lemma PathTwo(env: Env, s: State, a: Step, b: Step)
    requires Enabled(env, s, a) && Enabled(env, Do(env, s, a), b)
    ensures Path(env, s, [a, b], Do(env, Do(env, s, a), b))
  {
    PathOne(env, s, a);
    PathOne(env, Do(env, s, a), b);
    PathConcat(env, s, [a], Do(env, s, a), [b], Do(env, Do(env, s, a), b));
    assert [a] + [b] == [a, b];
  }

  /** A reconcile can run through: it is asked for, its copies allow it and its rule is accepted. */
  predicate CanReconcile(env: Env, s: State) {
    && s.pending && s.work.Idle? && s.ep.Some? && s.cache == s.ep && s.ep.value.finalizer
    && (Version(s.log, s.seen).None? ==> Route(s).None?)
    && Valid(FreshRule(env, s))
  }

  /** What an undisturbed reconcile does. */
  function Reconciled(env: Env, s: State): State
    requires CanReconcile(env, s)
  {
    var ep, copy, wanted := s.ep.value, Version(s.log, s.seen), FreshRule(env, s);
    s.(pending := false, base := s.apps, last := Write(copy, Route(s), wanted), log := Patched(env, s.log, copy, wanted),
       ep := if ep.status == wanted.backends then s.ep else Some(ep.(version := ep.version + 1, status := wanted.backends)))
  }

  lemma ReconcileRun(env: Env, s: State) returns (steps: seq<Step>)
    requires CanReconcile(env, s)
    ensures Path(env, s, steps, Reconciled(env, s))
  {
    var s1 := Do(env, s, Begin);
    var s2 := Do(env, s1, List);
    var s3 := Do(env, s2, FetchRoute);
    var s4 := Do(env, s3, WriteRoute);
    PathTwo(env, s, Begin, List);
    PathTwo(env, s2, FetchRoute, WriteRoute);
    PathOne(env, s4, WriteStatus);
    PathConcat(env, s, [Begin, List], s2, [FetchRoute, WriteRoute], s4);
    PathConcat(env, s, [Begin, List] + [FetchRoute, WriteRoute], s4, [WriteStatus], Do(env, s4, WriteStatus));
    steps := [Begin, List] + [FetchRoute, WriteRoute] + [WriteStatus];
  }

  lemma {:induction false} NothingDynamic(spec: Spec, order: seq<string>)
    ensures Dynamic(spec, order, map[]) == []
  {
    if order != [] { NothingDynamic(spec, order[..|order| - 1]); }
  }

  /** An endpoint without applications that nothing is being done for; the informer has seen exactly
      the first version of its route. */
  predicate Resting(s: State) {
    && s.ep.Some? && s.ep.value.finalizer && s.ep.value.version >= 1 && s.apps == map[] && s.events == [] && s.work.Idle?
    && s.cache.Some? && s.cache.value.version <= s.ep.value.version
    && s.log != [] && s.seen == 1
  }

  /** A new endpoint with its finalizer, whose specification the user has set after that. */
  function Begun(spec: Spec): State {
    var ep := Some(Ep(3, spec, [], true));
    State(ep, ep, map[], [], true, Idle, [], 0, map[], NoWrite)
  }

  lemma BegunRun(env: Env, s0: State, spec: Spec) returns (steps: seq<Step>)
    requires Initial(s0)
    ensures Path(env, s0, steps, Begun(spec))
  {
    var ep1, ep3 := Ep(1, spec, [], false), Ep(3, spec, [], true);
    var s2 := Do(env, Do(env, s0, CreateEndpoint(spec)), Deliver(ep1));
    PathTwo(env, s0, CreateEndpoint(spec), Deliver(ep1));
    var s4 := Do(env, Do(env, s2, Begin), EditSpec(spec));
    PathTwo(env, s2, Begin, EditSpec(spec));
    PathOne(env, s4, Deliver(ep3));
    assert Do(env, s4, Deliver(ep3)) == Begun(spec);
    PathConcat(env, s0, [CreateEndpoint(spec), Deliver(ep1)], s2, [Begin, EditSpec(spec)], s4);
    PathConcat(env, s0, [CreateEndpoint(spec), Deliver(ep1)] + [Begin, EditSpec(spec)], s4, [Deliver(ep3)], Begun(spec));
    steps := [CreateEndpoint(spec), Deliver(ep1)] + [Begin, EditSpec(spec)] + [Deliver(ep3)];
  }

  /** It is reconciled for the first time, and the informer sees its route. */
  function First(env: Env, spec: Spec): State {
    var before := Some(Ep(3, spec, [], true));
    State(if spec.statics == [] then before else Some(Ep(4, spec, spec.statics, true)), before, map[], [], false, Idle,
          [env.stored(StaticRule(env, spec))], 1, map[], Write(None, None, StaticRule(env, spec)))
  }

  lemma FirstRun(env: Env, s0: State, spec: Spec) returns (steps: seq<Step>)
    requires Initial(s0) && Fits(env, spec)
    ensures Path(env, s0, steps, First(env, spec)) && Resting(First(env, spec))
  {
    var a := BegunRun(env, s0, spec);
    var s1 := Begun(spec);
    NothingDynamic(spec, env.order);
    assert FreshRule(env, s1) == StaticRule(env, spec);
    var b := ReconcileRun(env, s1);
    var s2 := Reconciled(env, s1);
    PathConcat(env, s0, a, s1, b, s2);
    PathOne(env, s2, DeliverRoute(1));
    assert Do(env, s2, DeliverRoute(1)) == First(env, spec);
    PathConcat(env, s0, a + b, s2, [DeliverRoute(1)], First(env, spec));
    steps := a + b + [DeliverRoute(1)];
  }

  /** The informer delivers the endpoint and a reconcile runs through. */
  lemma RoundRun(env: Env, s: State) returns (steps: seq<Step>, s': State)
    requires Resting(s) && s.cache.value.version < s.ep.value.version && Fits(env, s.ep.value.spec)
    ensures Path(env, s, steps, s') && Resting(s') && !s'.pending && s'.ep.value.spec == s.ep.value.spec
    ensures s'.log == Patched(env, s.log, Some(s.log[0]), StaticRule(env, s.ep.value.spec)) && s'.log[0] == s.log[0]
    ensures s'.cache == s.ep && s'.ep.value.status == s.ep.value.spec.statics
    ensures s'.ep == s.ep || s'.ep.value.version > s.ep.value.version
    ensures s.ep.value.status == s.ep.value.spec.statics ==> s'.ep == s.ep
  {
    var deliver := Deliver(s.ep.value);
    PathOne(env, s, deliver);
    var m := Do(env, s, deliver);
    NothingDynamic(s.ep.value.spec, env.order);
    assert FreshRule(env, m) == StaticRule(env, s.ep.value.spec);
    var a := ReconcileRun(env, m);
    s' := Reconciled(env, m);
    PathConcat(env, s, [deliver], m, a, s');
    steps := [deliver] + a;
  }

  /** The user changes the specification. */
  lemma EditRun(env: Env, s: State, spec: Spec) returns (steps: seq<Step>, s': State)
    requires Resting(s) && Fits(env, spec)
    ensures Path(env, s, steps, s') && Resting(s') && !s'.pending && s'.ep.value.spec == spec
    ensures s'.log == Patched(env, s.log, Some(s.log[0]), StaticRule(env, spec)) && s'.log[0] == s.log[0]
    ensures s'.ep.value.status == spec.statics && (s'.cache == s'.ep || s'.cache.value.version < s'.ep.value.version)
  {
    PathOne(env, s, EditSpec(spec));
    var m := Do(env, s, EditSpec(spec));
    var a, m' := RoundRun(env, m);
    s' := m';
    PathConcat(env, s, [EditSpec(spec)], m, a, s');
    steps := [EditSpec(spec)] + a;
  }

  /** The informer goes on holding the first rule as stored, which is the last rule as wanted. */
  lemma StaleRun(env: Env, first: Spec, other: Spec, last: Spec) returns (steps: seq<Step>, s: State)
    requires Confusing(env, first, other, last)
    ensures Path(env, State(None, None, map[], [], false, Idle, [], 0, map[], NoWrite), steps, s) && Quiescent(s)
    ensures Route(s) != Some(env.stored(FreshRule(env, s)))
  {
    var s0 := State(None, None, map[], [], false, Idle, [], 0, map[], NoWrite);
    var a := FirstRun(env, s0, first);
    var s1 := First(env, first);
    var b, s2 := EditRun(env, s1, other);
    assert Route(s2) == Some(env.stored(StaticRule(env, other)));
    var c, s3 := EditRun(env, s2, last);
    assert s3.log == s2.log;
    PathConcat(env, s0, a, s1, b, s2);
    PathConcat(env, s0, a + b, s2, c, s3);
    steps, s := a + b + c, s3;
    if s3.cache != s3.ep {
      var d, s4 := RoundRun(env, s3);
      PathConcat(env, s0, a + b + c, s3, d, s4);
      steps, s := a + b + c + d, s4;
    }
    NothingDynamic(last, env.order);
    assert FreshRule(env, s) == StaticRule(env, last);
  }
}
