/** Left to itself the endpoint controller comes to rest, also when its reconciles begin on old
    copies, as long as its informer goes on delivering and the rule it asks for is one that the API
    server takes. */
module EndpointSettling {
  import opened Wrappers
  import opened HttpRoute
  import opened Endpoint
  import opened EndpointRuns

  /** What the controller and its informer do by themselves: no new input and no failed call. */
  predicate Own(step: Step) {
    !step.CreateEndpoint? && !step.EditSpec? && !step.ChangeApp? && !step.Fail?
  }

  /** The rule that the current applications ask for is one that the API server takes. */
  predicate Acceptable(env: Env, s: State) { s.ep.Some? && Valid(FreshRule(env, s)) }

  /** What the user asked for, as the controller's own write of the object leaves it. */
  function Settled(ep: Ep): Spec { if ep.finalizer then ep.spec else Resubmitted(ep.spec) }

  /** Writing a specification back makes no difference to whether its rule is taken. */
  lemma ResubmittedValid(env: Env, spec: Spec, backends: seq<Backend>)
    ensures Valid(Rule(backends, RuleMatches(env, Resubmitted(spec)))) <==> Valid(Rule(backends, RuleMatches(env, spec)))
  {
    if Resubmitted(spec) != spec {
      var own := RuleMatches(env, Resubmitted(spec));
      assert own[0].headers == [] + OwnHeaders(env) == OwnHeaders(env);
      assert ValidHeaders(OwnHeaders(env));
    }
  }

  /** Own steps change neither the applications nor what the user asked for. */
  lemma InputsStay(env: Env, s: State, step: Step)
    requires s.ep.Some? && Enabled(env, s, step) && Own(step)
    ensures var s' := Do(env, s, step);
            && s'.ep.Some? && s'.apps == s.apps && Settled(s'.ep.value) == Settled(s.ep.value)
            && FreshRule(env, s').backends == FreshRule(env, s).backends
            && (Acceptable(env, s') <==> Acceptable(env, s))
            && (s.ep.value.finalizer ==> s'.ep.value.finalizer && FreshRule(env, s') == FreshRule(env, s))
  {
    var s' := Do(env, s, step);
    if s'.ep.value.spec != s.ep.value.spec {
      SameBackends(s.ep.value.spec, s'.ep.value.spec, env.order, s.apps);
      ResubmittedValid(env, s.ep.value.spec, FreshRule(env, s).backends);
    }
  }

  /** The matches make no difference to the list of backends. */
  lemma {:induction false} SameBackends(a: Spec, b: Spec, order: seq<string>, apps: Apps)
    requires a.statics == b.statics && a.defaultWeight == b.defaultWeight
    ensures Dynamic(a, order, apps) == Dynamic(b, order, apps)
  {
    if order != [] { SameBackends(a, b, order[..|order| - 1], apps); }
  }

  // ---------------------------------------------------------------------------------------
  // What is still to be done

  function Bit(b: bool): nat { if b then 1 else 0 }

  function Nat(n: int): nat { if n < 0 then 0 else n }

  /** How many versions of the endpoint the informer is behind. */
  function Lag(s: State): nat
    requires s.ep.Some?
  {
    Nat(s.ep.value.version - if s.cache.Some? then s.cache.value.version else 0)
  }

  /** The reconcile in progress will write a status from an old snapshot, if it succeeds. */
  predicate OldSnapshot(env: Env, s: State)
    requires s.ep.Some?
  {
    Written(s.work) && s.work.ep == s.ep.value && s.work.routes != FreshRule(env, s).backends
  }

  /** How many more status writes can change the status. */
  function Debt(env: Env, s: State): nat
    requires s.ep.Some?
  {
    if OldSnapshot(env, s) then 2 else Bit(s.ep.value.status != FreshRule(env, s).backends)
  }

  /** The reconcile in progress began on an old endpoint, so its status write will fail. */
  predicate OldEndpoint(s: State)
    requires s.ep.Some?
  {
    !s.work.Idle? && s.work.ep != s.ep.value
  }

  /** The reconcile in progress may still write another rule than the fresh one. */
  predicate MayDrift(env: Env, s: State)
    requires s.ep.Some?
  {
    || (s.work.Started? && s.work.ep != s.ep.value)
    || ((s.work.Listed? || s.work.Fetched?) && WantedRule(env, s.work) != FreshRule(env, s))
  }

  /** How many more versions the route can get. */
  function Drift(env: Env, s: State): nat
    requires s.ep.Some?
  {
    Bit(MayDrift(env, s)) + Bit(MayDrift(env, s) || Route(s) != Some(env.stored(FreshRule(env, s))))
  }

  /** The reconcile in progress takes the route for missing although it exists. */
  predicate Doomed(s: State) { s.work.Fetched? && s.work.copy.None? && Route(s).Some? }

  /** In order of weight. What a reconcile may do counts only once its copies are current. */
  datatype Rank = Rank(events: nat, finalizer: nat, status: nat, lag: nat, stale: nat, drift: nat, unseen: nat, doomed: nat)

  function RankOf(env: Env, s: State): Rank
    requires s.ep.Some?
  {
    var lag, unseen := Lag(s), Nat(|s.log| - s.seen);
    if lag > 0 then Rank(|s.events|, Bit(!s.ep.value.finalizer), Debt(env, s), lag, 0, 0, 0, 0)
    else Rank(|s.events|, Bit(!s.ep.value.finalizer), Debt(env, s), lag, Bit(OldEndpoint(s)), Drift(env, s), unseen,
              Bit(unseen == 0 && Doomed(s)))
  }

  predicate Below(a: Rank, b: Rank) {
    if a.events != b.events then a.events < b.events
    else if a.finalizer != b.finalizer then a.finalizer < b.finalizer
    else if a.status != b.status then a.status < b.status
    else if a.lag != b.lag then a.lag < b.lag
    else if a.stale != b.stale then a.stale < b.stale
    else if a.drift != b.drift then a.drift < b.drift
    else if a.unseen != b.unseen then a.unseen < b.unseen
    else a.doomed < b.doomed
  }

  predicate NotAbove(a: Rank, b: Rank) { a == b || Below(a, b) }

  /** How far the reconciles asked for and in progress are from their end. */
  function Effort(s: State): nat {
    (if s.pending then 5 else 0)
    + match s.work
      case Idle => 0
      case Started(_) => 4
      case Listed(_, _) => 3
      case Fetched(_, _, _) => 2
      case Routed(_, _) => 1
  }

  predicate Closer(env: Env, a: State, b: State)
    requires a.ep.Some? && b.ep.Some?
  {
    Below(RankOf(env, a), RankOf(env, b)) || (RankOf(env, a) == RankOf(env, b) && Effort(a) < Effort(b))
  }

  /** The informer has delivered everything. */
  predicate Calm(s: State) { s.events == [] && s.cache == s.ep && s.seen == |s.log| }

  lemma ReconcileStepNotUp(env: Env, s: State, step: Step)
    requires Inv(env, s) && s.ep.Some? && Enabled(env, s, step) && (step.Begin? || step.List? || step.FetchRoute?)
    ensures Do(env, s, step).ep.Some? && NotAbove(RankOf(env, Do(env, s, step)), RankOf(env, s))
  {
    InputsStay(env, s, step);
  }

  /** A write of the route takes a version from those that the route can get. */
  lemma WriteRouteDrift(env: Env, s: State)
    requires s.ep.Some? && s.work.Fetched?
    ensures var s' := Do(env, s, WriteRoute);
            && s'.ep == s.ep && s'.cache == s.cache && s'.apps == s.apps && s'.events == s.events && s'.seen == s.seen
            && (s'.work.Idle? || (s'.work.Routed? && s'.work.ep == s.work.ep && s'.work.routes == s.work.routes))
            && (s'.log == s.log || Drift(env, s') < Drift(env, s)) && Drift(env, s') <= Drift(env, s)
  {
  }

  lemma WriteRouteNotUp(env: Env, s: State)
    requires s.ep.Some? && s.work.Fetched?
    ensures Do(env, s, WriteRoute).ep.Some? && NotAbove(RankOf(env, Do(env, s, WriteRoute)), RankOf(env, s))
  {
    WriteRouteDrift(env, s);
  }

  lemma WriteStatusNotUp(env: Env, s: State)
    requires Inv(env, s) && s.ep.Some? && Enabled(env, s, WriteStatus)
    ensures Do(env, s, WriteStatus).ep.Some? && NotAbove(RankOf(env, Do(env, s, WriteStatus)), RankOf(env, s))
  {
    InputsStay(env, s, WriteStatus);
  }

  lemma DeliveryNotUp(env: Env, s: State, step: Step)
    requires Inv(env, s) && s.ep.Some? && Enabled(env, s, step) && (step.HandleEvent? || step.Deliver? || step.DeliverRoute?)
    ensures Do(env, s, step).ep.Some? && NotAbove(RankOf(env, Do(env, s, step)), RankOf(env, s))
  {
    InputsStay(env, s, step);
  }

  /** No own step makes more work, however old the copies it is based on. */
  lemma OwnStepNotUp(env: Env, s: State, step: Step)
    requires Inv(env, s) && s.ep.Some? && Enabled(env, s, step) && Own(step)
    ensures Do(env, s, step).ep.Some? && NotAbove(RankOf(env, Do(env, s, step)), RankOf(env, s))
  {
    if step.WriteRoute? {
      WriteRouteNotUp(env, s);
    } else if step.WriteStatus? {
      WriteStatusNotUp(env, s);
    } else if step.Begin? || step.List? || step.FetchRoute? {
      ReconcileStepNotUp(env, s, step);
    } else {
      DeliveryNotUp(env, s, step);
    }
  }

  /** Every delivery makes less. */
  lemma DeliveryDown(env: Env, s: State, step: Step)
    requires Inv(env, s) && s.ep.Some? && Enabled(env, s, step)
    requires step.HandleEvent? || step.Deliver? || (step.DeliverRoute? && s.cache == s.ep)
    ensures Below(RankOf(env, Do(env, s, step)), RankOf(env, s))
  {
    InputsStay(env, s, step);
  }

  lemma CalmWriteRoute(env: Env, s: State)
    requires Inv(env, s) && Acceptable(env, s) && Calm(s) && s.work.Fetched?
    ensures Do(env, s, WriteRoute).ep.Some? && Closer(env, Do(env, s, WriteRoute), s)
  {
    WriteRouteDrift(env, s);
    WriteRouteNotUp(env, s);
  }

  lemma CalmWriteStatus(env: Env, s: State)
    requires Inv(env, s) && Acceptable(env, s) && Calm(s) && s.work.Routed?
    ensures Do(env, s, WriteStatus).ep.Some? && Closer(env, Do(env, s, WriteStatus), s)
  {
    InputsStay(env, s, WriteStatus);
  }

  /** And once everything is delivered every step does; in particular a status write that changes
      nothing does not trigger the controller again. */
  lemma CalmStepDown(env: Env, s: State, step: Step)
    requires Inv(env, s) && Acceptable(env, s) && Calm(s) && Enabled(env, s, step) && Own(step)
    ensures Do(env, s, step).ep.Some?
    ensures Closer(env, Do(env, s, step), s)
  {
    if step.WriteRoute? {
      CalmWriteRoute(env, s);
    } else if step.WriteStatus? {
      CalmWriteStatus(env, s);
    } else {
      InputsStay(env, s, step);
    }
  }

  // ---------------------------------------------------------------------------------------
  // Coming to rest

  /** The controller can always go on until it is at rest and its informer has seen everything. */
  function NextStep(s: State): Option<Step>
    requires s.ep.Some?
  {
    if s.events != [] then Some(HandleEvent)
    else if s.cache != s.ep then Some(Deliver(s.ep.value))
    else if s.seen < |s.log| then Some(DeliverRoute(|s.log|))
    else match s.work
      case Idle => if s.pending then Some(Begin) else None
      case Started(_) => Some(List)
      case Listed(_, _) => Some(FetchRoute)
      case Fetched(_, _, _) => Some(WriteRoute)
      case Routed(_, _) => Some(WriteStatus)
  }

  ghost predicate CanMove(env: Env, s: State) {
    exists step :: Enabled(env, s, step) && Own(step)
  }

  /** The controller and its informer have nothing left to do if and only if the endpoint is
      quiescent and the informer has seen the newest route. */
  lemma AtRestIff(env: Env, s: State)
    requires Inv(env, s) && s.ep.Some?
    ensures CanMove(env, s) <==> NextStep(s).Some?
    ensures CanMove(env, s) <==> !(Quiescent(s) && s.seen == |s.log|)
  {
    if NextStep(s).Some? {
      assert Enabled(env, s, NextStep(s).value) && Own(NextStep(s).value);
    }
  }

  /** From every reachable state with an acceptable rule the controller can come to rest. */
  lemma {:induction false} Settles(env: Env, s: State) returns (steps: seq<Step>, s': State)
    requires Inv(env, s) && Acceptable(env, s)
    ensures Path(env, s, steps, s') && Quiescent(s')
    ensures s'.apps == s.apps && s'.ep.value.spec == Settled(s.ep.value)
    decreases RankOf(env, s).events, RankOf(env, s).finalizer, RankOf(env, s).status, RankOf(env, s).lag,
              RankOf(env, s).stale, RankOf(env, s).drift, RankOf(env, s).unseen, RankOf(env, s).doomed, Effort(s)
  {
    AtRestIff(env, s);
    if NextStep(s).None? {
      steps, s' := [], s;
    } else {
      var step := NextStep(s).value;
      InputsStay(env, s, step);
      if Calm(s) { CalmStepDown(env, s, step); } else { DeliveryDown(env, s, step); }
      StepKeeps(env, s, step);
      var m := Do(env, s, step);
      steps, s' := Settles(env, m);
      PathOne(env, s, step);
      PathConcat(env, s, [step], m, steps, s');
      steps := [step] + steps;
    }
  }

  /** With any other rule it never does: the server refuses it, and the controller tries again. */
  lemma {:induction false} RefusedNeverSettles(env: Env, s: State, steps: seq<Step>, s': State)
    requires Inv(env, s) && s.ep.Some? && !Acceptable(env, s)
    requires Path(env, s, steps, s') && forall i :: 0 <= i < |steps| ==> Own(steps[i])
    ensures !Quiescent(s')
    decreases |steps|
  {
    if steps == [] {
      DynamicSameAtRest(env, s);
    } else {
      InputsStay(env, s, steps[0]);
      StepKeeps(env, s, steps[0]);
      RefusedNeverSettles(env, Do(env, s, steps[0]), steps[1..], s');
    }
  }

  lemma DynamicSameAtRest(env: Env, s: State)
    requires Inv(env, s)
    ensures Quiescent(s) ==> FreshRule(env, s).backends == s.ep.value.status
  {
    if Quiescent(s) { DynamicSame(s.ep.value.spec, env.order, s.base, s.apps); }
  }

  // ---------------------------------------------------------------------------------------
  // Every schedule

  /** A schedule of own steps: it takes one whenever there is one. */
  ghost predicate Schedule(env: Env, run: nat -> State, step: nat -> Step) {
    forall i: nat :: Moves(env, run, step, i)
  }

  ghost predicate Moves(env: Env, run: nat -> State, step: nat -> Step, i: nat) {
    if CanMove(env, run(i)) then Enabled(env, run(i), step(i)) && Own(step(i)) && run(i + 1) == Do(env, run(i), step(i))
    else run(i + 1) == run(i)
  }

  ghost predicate Later(step: nat -> Step, i: nat, wanted: Step -> bool) {
    exists j: nat :: i <= j && wanted(step(j))
  }

  /** What there is to deliver is delivered in the end. */
  ghost predicate Delivers(run: nat -> State, step: nat -> Step) {
    forall i: nat ::
      && (run(i).events != [] ==> Later(step, i, (x: Step) => x.HandleEvent?))
      && (run(i).cache != run(i).ep ==> Later(step, i, (x: Step) => x.Deliver?))
      && (run(i).seen < |run(i).log| ==> Later(step, i, (x: Step) => x.DeliverRoute?))
  }

  lemma {:induction false} RunNotUp(env: Env, run: nat -> State, step: nat -> Step, i: nat, j: nat)
    requires Schedule(env, run, step) && Inv(env, run(i)) && Acceptable(env, run(i)) && i <= j
    ensures Inv(env, run(j)) && Acceptable(env, run(j)) && NotAbove(RankOf(env, run(j)), RankOf(env, run(i)))
    decreases j
  {
    if i < j {
      RunNotUp(env, run, step, i, j - 1);
      var s := run(j - 1);
      assert Moves(env, run, step, j - 1);
      if CanMove(env, s) {
        InputsStay(env, s, step(j - 1));
        StepKeeps(env, s, step(j - 1));
        OwnStepNotUp(env, s, step(j - 1));
        BelowTransitive(RankOf(env, run(j)), RankOf(env, s), RankOf(env, run(i)));
      }
    }
  }

  lemma BelowTransitive(a: Rank, b: Rank, c: Rank)
    requires NotAbove(a, b) && NotAbove(b, c)
    ensures NotAbove(a, c)
    ensures Below(a, b) || Below(b, c) ==> Below(a, c)
  {
  }

  /** Up to the delivery that comes next nothing gets worse, and the delivery makes it better. */
  lemma UpToDelivery(env: Env, run: nat -> State, step: nat -> Step, i: nat, j: nat)
    requires Schedule(env, run, step) && Inv(env, run(i)) && Acceptable(env, run(i)) && i <= j && CanMove(env, run(j))
    requires step(j).HandleEvent? || step(j).Deliver? || (step(j).DeliverRoute? && run(i).cache == run(i).ep)
    ensures Inv(env, run(j + 1)) && Acceptable(env, run(j + 1)) && Below(RankOf(env, run(j + 1)), RankOf(env, run(i)))
  {
    assert Moves(env, run, step, j);
    RunNotUp(env, run, step, i, j);
    InputsStay(env, run(j), step(j));
    StepKeeps(env, run(j), step(j));
    if step(j).DeliverRoute? && run(j).cache != run(j).ep {
      assert RankOf(env, run(j)).lag > 0 == RankOf(env, run(i)).lag;
      OwnStepNotUp(env, run(j), step(j));
    } else {
      DeliveryDown(env, run(j), step(j));
    }
    BelowTransitive(RankOf(env, run(j + 1)), RankOf(env, run(j)), RankOf(env, run(i)));
  }

  /** The index of the next delivery, if the informer owes one. */
  lemma NextDelivery(run: nat -> State, step: nat -> Step, i: nat) returns (j: nat)
    requires Delivers(run, step) && !Calm(run(i)) && run(i).seen <= |run(i).log|
    ensures j >= i
    ensures step(j).HandleEvent? || step(j).Deliver? || (step(j).DeliverRoute? && run(i).cache == run(i).ep)
  {
    if run(i).events != [] {
      assert Later(step, i, (x: Step) => x.HandleEvent?);
      j :| i <= j && step(j).HandleEvent?;
    } else if run(i).cache != run(i).ep {
      assert Later(step, i, (x: Step) => x.Deliver?);
      j :| i <= j && step(j).Deliver?;
    } else {
      assert Later(step, i, (x: Step) => x.DeliverRoute?);
      j :| i <= j && step(j).DeliverRoute?;
    }
  }

  lemma CalmStep(env: Env, run: nat -> State, step: nat -> Step, i: nat)
    requires Schedule(env, run, step) && Inv(env, run(i)) && Acceptable(env, run(i)) && Calm(run(i)) && CanMove(env, run(i))
    ensures Inv(env, run(i + 1)) && Acceptable(env, run(i + 1)) && Closer(env, run(i + 1), run(i))
  {
    assert Moves(env, run, step, i);
    InputsStay(env, run(i), step(i));
    StepKeeps(env, run(i), step(i));
    CalmStepDown(env, run(i), step(i));
  }

  /** One step or one delivery further on there is less left to do. */
  lemma GetsCloser(env: Env, run: nat -> State, step: nat -> Step, i: nat) returns (n: nat)
    requires Schedule(env, run, step) && Delivers(run, step) && Inv(env, run(i)) && Acceptable(env, run(i))
    ensures n >= i && Inv(env, run(n)) && Acceptable(env, run(n))
    ensures !CanMove(env, run(n)) || Closer(env, run(n), run(i))
  {
    if !CanMove(env, run(i)) {
      n := i;
    } else if Calm(run(i)) {
      CalmStep(env, run, step, i);
      n := i + 1;
    } else {
      n := NextDelivery(run, step, i);
      RunNotUp(env, run, step, i, n);
      if CanMove(env, run(n)) {
        UpToDelivery(env, run, step, i, n);
        n := n + 1;
      }
    }
  }

  /** Every schedule that delivers comes to rest, whatever else it picks and however old the copies
      are that its reconciles begin on. */
  lemma EveryScheduleSettles(env: Env, run: nat -> State, step: nat -> Step, i: nat) returns (n: nat)
    requires Schedule(env, run, step) && Delivers(run, step) && Inv(env, run(i)) && Acceptable(env, run(i))
    ensures n >= i && Quiescent(run(n)) && run(n).seen == |run(n).log|
  {
    n := RestsFrom(env, run, step, i, RankOf(env, run(i)), Effort(run(i)));
  }

  lemma {:induction false} RestsFrom(env: Env, run: nat -> State, step: nat -> Step, i: nat, rank: Rank, effort: nat) returns (n: nat)
    requires Schedule(env, run, step) && Delivers(run, step) && Inv(env, run(i)) && Acceptable(env, run(i))
    requires rank == RankOf(env, run(i)) && effort == Effort(run(i))
    ensures n >= i && Quiescent(run(n)) && run(n).seen == |run(n).log|
    decreases rank.events, rank.finalizer, rank.status, rank.lag, rank.stale, rank.drift, rank.unseen, rank.doomed, effort
  {
    n := GetsCloser(env, run, step, i);
    AtRestIff(env, run(n));
    if CanMove(env, run(n)) {
      n := RestsFrom(env, run, step, n, RankOf(env, run(n)), Effort(run(n)));
    }
  }
}
