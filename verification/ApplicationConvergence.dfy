/** Where repeated reconciles of an application lead: each starts on a current copy, finds the model
    ready and meets no failure. */
module ApplicationConvergence {
  import opened Wrappers
  import opened Objects
  import opened Application
  import opened ApplicationRuns

  function Rank(w: Work): nat {
    match w
    case Idle => 0
    case Save(_) | DropFinalizer(_) => 1
    case Sync(_) | DeleteLws(_) | AddFinalizer(_) => 2
    case CreateService(_) | DeleteService(_) => 3
    case GetService(_) => 4
    case CreateLws(_) => 5
    case GetLws(_) => 6
    case GetModel(_) => 7
  }

  /** The next call works, and the model is ready. */
  function Next(s: State, kept: bool): State { Call(s, ModelReady, Works, kept) }

  /** Working calls to the end of the reconcile. */
  function Finish(s: State, kept: bool): (t: State)
    ensures t.work.Idle?
    decreases Rank(s.work)
  {
    if s.work.Idle? then s else Finish(Next(s, kept), kept)
  }

  /** The informer catches up. */
  function CaughtUp(s: State): State { s.(cache := Newest(s), queue := []) }

  /** One whole reconcile, on a current copy. */
  function Pass(s: State, kept: bool): State { CaughtUp(Finish(Next(s, kept), kept)) }

  /** Between reconciles, with the informer up to date and a valid object that is neither failed nor
      being deleted. */
  predicate Open(s: State) {
    && s.queue == [] && s.work.Idle? && s.app.Some? && !s.app.value.deleting && s.app.value.status.phase != Failed
    && Supported(Effective(s.app.value.runtime)) && s.app.value.volumesOk
  }

  predicate Done(s: State) {
    && Open(s) && Ours in s.app.value.finalizers && s.app.value.status.phase == Running && Holds(s.app.value, Ready)
    && s.lws && s.service
  }

  lemma CaughtUpKeeps(s: State)
    requires Inv(s) && Mirrored(s)
    ensures Inv(CaughtUp(s)) && Mirrored(CaughtUp(s))
  {
    var t := CaughtUp(s);
    if s.app.Some? { assert Visible(s, s.app.value); }
    forall x | Visible(t, x) ensures Visible(s, x) && s.app == Some(x) { }
  }

  lemma PassKeeps(s: State, kept: bool)
    requires Inv(s) && Mirrored(s)
    ensures Inv(Pass(s, kept)) && Mirrored(Pass(s, kept))
  {
    CallKeeps(s, ModelReady, Works, kept);
    CallMirrors(s, ModelReady, Works, kept);
    FinishKeeps(Next(s, kept), kept);
    CaughtUpKeeps(Finish(Next(s, kept), kept));
  }

  lemma NextRanks(s: State, kept: bool)
    requires !s.work.Idle?
    ensures Rank(Next(s, kept).work) < Rank(s.work) && Finish(s, kept) == Finish(Next(s, kept), kept)
  {
  }

  lemma {:induction false} FinishKeeps(s: State, kept: bool)
    requires Inv(s) && Mirrored(s)
    ensures Inv(Finish(s, kept)) && Mirrored(Finish(s, kept))
    decreases Rank(s.work)
  {
    if !s.work.Idle? {
      CallKeeps(s, ModelReady, Works, kept);
      CallMirrors(s, ModelReady, Works, kept);
      NextRanks(s, kept);
      FinishKeeps(Next(s, kept), kept);
    }
  }

  /** First the finalizer. */
  lemma FinalizerPass(s: State, kept: bool)
    requires Inv(s) && Open(s) && Ours !in s.app.value.finalizers
    ensures var t := Pass(s, kept); Open(t) && Ours in t.app.value.finalizers && !t.lws && !t.service
  {
    var s1 := Next(s, kept);
    var s2 := Next(s1, kept);
    assert s1.work.AddFinalizer? && s2.work.Save?;
    assert Finish(s1, kept) == Finish(s2, kept) == Next(s2, kept);
  }

  /** A ready application goes straight to the status sync, with its defaults filled in. */
  lemma SyncStart(s: State, kept: bool)
    requires Inv(s) && Open(s) && Ours in s.app.value.finalizers && Holds(s.app.value, Ready)
    ensures var w := Sync(Defaulted(s.app.value)); WorkOk(w) && Pass(s, kept) == CaughtUp(Finish(s.(work := w), kept))
  {
    var a := Defaulted(s.app.value);
    EnterOk(s.app.value);
    assert Next(s, kept) == s.(work := GetModel(a));
    NextRanks(s.(work := GetModel(a)), kept);
    ModelStageOk(a, ModelReady);
  }

  lemma SyncFinish(s: State, kept: bool)
    requires s.work.Sync? && Current(s, s.work.obj)
    ensures Finish(s, kept) == StoreStatus(s, if s.lws then s.work.obj else SetFlag(SetPhase(s.work.obj, Running), Ready, false)).(work := Idle)
  {
    NextRanks(s, kept);
    NextRanks(Next(s, kept), kept);
  }

  /** Ready, and the LeaderWorkerSet is there: nothing changes, with or without the Service. */
  lemma ReadyPass(s: State, kept: bool)
    requires Inv(s) && Mirrored(s) && Open(s) && Ours in s.app.value.finalizers && Holds(s.app.value, Ready) && s.lws
    ensures Pass(s, kept) == s
  {
    FlagsOfEmptyIff(s.app.value.status.conds);
    SyncStart(s, kept);
    SyncFinish(s.(work := Sync(Defaulted(s.app.value))), kept);
  }

  /** Ready, but the LeaderWorkerSet is gone: the application is no longer ready. */
  lemma LostPass(s: State, kept: bool)
    requires Inv(s) && Open(s) && Ours in s.app.value.finalizers && Holds(s.app.value, Ready) && !s.lws
    ensures var t := Pass(s, kept); Open(t) && Ours in t.app.value.finalizers && !Holds(t.app.value, Ready)
  {
    SyncStart(s, kept);
    SyncFinish(s.(work := Sync(Defaulted(s.app.value))), kept);
  }

  /** The LeaderWorkerSet is there, the Service is looked up next. */
  lemma LwsFinish(s: State, kept: bool)
    requires WorkOk(s.work) && s.work.GetLws?
    ensures exists n :: Finish(s, kept) == Finish(s.(work := GetService(s.work.obj), lws := true, lwsCreated := n), kept)
  {
    CreatingOk(s.work.obj);
    var s1 := Next(s, kept);
    NextRanks(s, kept);
    if s.lws {
      assert s1 == s.(work := GetService(s.work.obj), lws := true, lwsCreated := s.lwsCreated);
    } else {
      NextRanks(s1, kept);
      assert Next(s1, kept) == s.(work := GetService(s.work.obj), lws := true, lwsCreated := s.lwsCreated + 1);
    }
  }

  lemma ServiceFinish(s: State, kept: bool)
    requires s.work.GetService? && s.lws && Current(s, s.work.obj)
    ensures var t := Finish(s, kept);
            t == StoreStatus(s.(service := true, work := Idle), SetFlag(SetPhase(s.work.obj, Running), Ready, true))
  {
    var a := s.work.obj;
    NextRanks(s, kept);
    var s1 := Next(s, kept);
    if !s.service { NextRanks(s1, kept); }
    var s2 := s.(service := true, work := MarkReady(a));
    assert Finish(s, kept) == Finish(s2, kept);
    NextRanks(s2, kept);
    NextRanks(Next(s2, kept), kept);
  }

  lemma CreatingStart(s: State, kept: bool) returns (w: Work)
    requires Inv(s) && Open(s) && Ours in s.app.value.finalizers && !Holds(s.app.value, Ready)
    ensures w.GetLws? && WorkOk(w) && w.obj.version == s.app.value.version
    ensures Pass(s, kept) == CaughtUp(Finish(s.(work := w), kept))
  {
    var s1 := Next(s, kept);
    EnterOk(s.app.value);
    assert s1.work.GetModel?;
    NextRanks(s1, kept);
    ModelStageOk(s1.work.obj, ModelReady);
    w := ModelStage(s1.work.obj, ModelReady);
  }

  /** Not ready: one reconcile creates what is missing. */
  lemma CreatingPass(s: State, kept: bool)
    requires Inv(s) && Open(s) && Ours in s.app.value.finalizers && !Holds(s.app.value, Ready)
    ensures Done(Pass(s, kept))
  {
    var w := CreatingStart(s, kept);
    var s2 := s.(work := w);
    LwsFinish(s2, kept);
    var n :| Finish(s2, kept) == Finish(s2.(work := GetService(w.obj), lws := true, lwsCreated := n), kept);
    ServiceFinish(s2.(work := GetService(w.obj), lws := true, lwsCreated := n), kept);
  }

  /** How far an open application is from done. */
  function Distance(s: State): nat
    requires Open(s)
  {
    if Ours !in s.app.value.finalizers then 3
    else if !Holds(s.app.value, Ready) then 1
    else if !s.lws then 2
    else 0
  }

  /** Every reconcile gets closer or changes nothing. */
  lemma PassProgress(s: State, kept: bool)
    requires Inv(s) && Mirrored(s) && Open(s)
    ensures Inv(Pass(s, kept)) && Mirrored(Pass(s, kept)) && Open(Pass(s, kept))
    ensures Distance(s) == 0 ==> Pass(s, kept) == s
    ensures Distance(s) != 0 ==> Distance(Pass(s, kept)) < Distance(s)
    ensures Distance(s) == 1 ==> Done(Pass(s, kept))
    ensures Distance(s) >= 2 ==> Distance(Pass(s, kept)) != 0
  {
    PassKeeps(s, kept);
    if Ours !in s.app.value.finalizers {
      FinalizerPass(s, kept);
    } else if !Holds(s.app.value, Ready) {
      CreatingPass(s, kept);
    } else if s.lws {
      ReadyPass(s, kept);
    } else {
      LostPass(s, kept);
    }
  }

  /** Three reconciles leave the application running with its LeaderWorkerSet and Service, exactly
      unless it started out ready with the LeaderWorkerSet but without the Service: then no number
      of reconciles brings the Service back. */
  lemma RecoversIff(s: State, k1: bool, k2: bool, k3: bool)
    requires Inv(s) && Mirrored(s) && Open(s)
    ensures Done(Pass(Pass(Pass(s, k1), k2), k3)) <==> !(Holds(s.app.value, Ready) && s.lws && !s.service)
    ensures Holds(s.app.value, Ready) && s.lws && !s.service ==> Pass(s, k1) == s
  {
    var s1 := Pass(s, k1);
    PassProgress(s, k1);
    var s2 := Pass(s1, k2);
    PassProgress(s1, k2);
    PassProgress(s2, k3);
  }

  /** Reconciling an application that is being deleted removes the LeaderWorkerSet, the Service and
      the finalizer; the object is gone if and only if nobody else holds a finalizer. */
  lemma DeletionCompletes(s: State, kept: bool)
    requires Inv(s) && s.queue == [] && s.work.Idle? && s.app.Some? && s.app.value.deleting
    ensures var t := Pass(s, kept);
            && !t.lws && !t.service
            && (t.app.None? <==> forall f :: f in s.app.value.finalizers ==> f == Ours)
            && (t.app.Some? ==> forall f :: f in t.app.value.finalizers <==> f in s.app.value.finalizers && f != Ours)
  {
    var fs := s.app.value.finalizers;
    var s1 := Next(s, kept);
    var s2 := Next(s1, kept);
    var s3 := Next(s2, kept);
    assert s1.work.DeleteService? && s2.work.DeleteLws? && s3.work == DropFinalizer(s.app.value) && Current(s3, s.app.value);
    assert Finish(s1, kept) == Finish(s2, kept) == Finish(s3, kept) == Next(s3, kept);
    forall f ensures f in WithoutFinalizer(fs, Ours) <==> f in fs && f != Ours {
      WithoutHas(fs, Ours, f);
    }
    if WithoutFinalizer(fs, Ours) != [] {
      assert WithoutFinalizer(fs, Ours)[0] in WithoutFinalizer(fs, Ours);
    }
  }

  // ---------------------------------------------------------------------------------------
  // Runs in which nobody else deletes the Service

  /** Nothing that the informer has or has coming is being deleted. */
  ghost predicate NoneDeleting(s: State) { forall a :: Visible(s, a) ==> !a.deleting }

  /** A ready application has its Service, and a reconcile about to say so has it too; no removal is
      under way, or can start from an old copy, while the application is ready. */
  ghost predicate Served(s: State) {
    && (s.app.Some? && !s.app.value.deleting && Holds(s.app.value, Ready) ==> s.service && NoneDeleting(s))
    && (!s.work.Idle? && !Removing(s.work) && Current(s, s.work.obj) && Holds(s.work.obj, Ready) ==> s.service && NoneDeleting(s))
    && (Removing(s.work) ==> s.app.None? || s.app.value.deleting || !Holds(s.app.value, Ready))
  }

  lemma WriteVisible(s: State, a: Option<App>)
    requires NoneDeleting(s) && (a.Some? ==> !a.value.deleting)
    ensures NoneDeleting(Write(s, a))
  {
    forall x | Visible(Write(s, a), x) ensures Visible(s, x) || a == Some(x) { }
  }

  lemma SameVisible(s: State, s': State)
    requires s'.cache == s.cache && s'.queue == s.queue
    ensures NoneDeleting(s) ==> NoneDeleting(s')
  {
    forall x | Visible(s', x) ensures Visible(s, x) { }
  }

  lemma ServedSave(s: State, m: ModelView, o: Outcome, kept: bool)
    requires Inv(s) && Served(s) && s.work.Save?
    ensures Served(Call(s, m, o, kept))
  {
    var s' := Call(s, m, o, kept);
    if s'.versions == s.versions {
      SameVisible(s, s');
    } else if NoneDeleting(s) && !s'.app.value.deleting {
      WriteVisible(s, s'.app);
      SameVisible(Write(s, s'.app), s');
    }
  }

  lemma ServedAddFinalizer(s: State, m: ModelView, o: Outcome, kept: bool)
    requires Inv(s) && Served(s) && s.work.AddFinalizer?
    ensures Served(Call(s, m, o, kept))
  {
    var s' := Call(s, m, o, kept);
    if s'.versions == s.versions {
      SameVisible(s, s');
    } else if NoneDeleting(s) && s'.app.Some? && !s'.app.value.deleting {
      WriteVisible(s, s'.app);
      SameVisible(Write(s, s'.app), s');
    }
  }

  /** A reconcile past its finalizer on a current copy: the informer has seen everything. */
  lemma CurrentIsLive(s: State)
    requires Inv(s) && PastFinalizer(s.work) && Current(s, s.work.obj)
    ensures NoneDeleting(s)
  {
    forall x | Visible(s, x) ensures !x.deleting {
      assert s.queue == [] && s.app == Some(x);
    }
  }

  /** The reconcile moves on, and if it marks its copy ready the Service is there. */
  lemma ServedMoves(s: State, s': State)
    requires Inv(s) && Served(s) && PastFinalizer(s.work)
    requires s'.app == s.app && s'.cache == s.cache && s'.queue == s.queue && (s.service ==> s'.service)
    requires Advances(s'.work, s.work.obj) && (Holds(s'.work.obj, Ready) ==> Holds(s.work.obj, Ready) || s'.service)
    ensures Served(s')
  {
    SameVisible(s, s');
    if Current(s, s.work.obj) { CurrentIsLive(s); }
  }

  lemma ServedForward(s: State, m: ModelView, o: Outcome, kept: bool)
    requires Inv(s) && Served(s) && PastFinalizer(s.work)
    ensures Served(Call(s, m, o, kept))
  {
    ForwardOk(s, m, o, kept);
    ReadyNeedsService(s, m, o, kept);
    ServedMoves(s, Call(s, m, o, kept));
  }

  /** Only a reconcile that has found or created the Service marks its copy ready. */
  lemma ReadyNeedsService(s: State, m: ModelView, o: Outcome, kept: bool)
    requires PastFinalizer(s.work)
    ensures var s' := Call(s, m, o, kept);
            && !s'.work.Idle? && (Holds(s'.work.obj, Ready) ==> Holds(s.work.obj, Ready) || s'.service)
            && s'.app == s.app && s'.cache == s.cache && s'.queue == s.queue && (s.service ==> s'.service)
  {
  }

  lemma ServedEnter(s: State, m: ModelView, o: Outcome, kept: bool)
    requires Inv(s) && Served(s) && s.work.Idle?
    ensures Served(Call(s, m, o, kept))
  {
    SameVisible(s, Call(s, m, o, kept));
    if s.cache.Some? {
      assert Visible(s, s.cache.value);
      EnterOk(s.cache.value);
      if Current(s, s.cache.value) { CacheIsCurrent(s); }
    }
  }

  lemma ServedRemoval(s: State, m: ModelView, o: Outcome, kept: bool)
    requires Inv(s) && Served(s) && Removing(s.work)
    ensures Served(Call(s, m, o, kept))
  {
    var s' := Call(s, m, o, kept);
    if s'.versions == s.versions { SameVisible(s, s'); }
  }

  lemma ServedCall(s: State, m: ModelView, o: Outcome, kept: bool)
    requires Inv(s) && Served(s)
    ensures Served(Call(s, m, o, kept))
  {
    if s.work.Save? {
      ServedSave(s, m, o, kept);
    } else if s.work.AddFinalizer? {
      ServedAddFinalizer(s, m, o, kept);
    } else if PastFinalizer(s.work) {
      ServedForward(s, m, o, kept);
    } else if s.work.Idle? {
      ServedEnter(s, m, o, kept);
    } else {
      ServedRemoval(s, m, o, kept);
    }
  }

  lemma ServedStep(s: State, step: Step)
    requires Inv(s) && Served(s) && Enabled(s, step) && !step.LoseService?
    ensures Served(Do(s, step))
  {
    var s' := Do(s, step);
    if step.Controller? {
      ServedCall(s, step.model, step.outcome, step.kept);
    } else if step.Deliver? {
      forall x | Visible(s', x) ensures Visible(s, x) { }
    } else if step.LoseLws? {
      SameVisible(s, s');
    } else if NoneDeleting(s) && s'.app.Some? && !s'.app.value.deleting {
      WriteVisible(s, s'.app);
      SameVisible(Write(s, s'.app), s');
    }
  }

  lemma {:induction false} ServedRun(s: State, steps: seq<Step>)
    requires Inv(s) && Served(s)
    requires Follows(s, steps) && forall i :: 0 <= i < |steps| ==> !steps[i].LoseService?
    ensures Served(After(s, steps))
    decreases |steps|
  {
    if steps != [] {
      StepKeeps(s, steps[0]);
      ServedStep(s, steps[0]);
      ServedRun(Do(s, steps[0]), steps[1..]);
    }
  }

  /** After any run without external Service deletion, with whatever failures, deletions, old copies
      and losses of the LeaderWorkerSet on the way, an application that is open once the informer has
      caught up is done after three reconciles, and then stays as it is. */
  lemma Converges(s: State, steps: seq<Step>, k1: bool, k2: bool, k3: bool, k4: bool)
    requires Initial(s) && Follows(s, steps) && forall i :: 0 <= i < |steps| ==> !steps[i].LoseService?
    requires Open(CaughtUp(After(s, steps)))
    ensures var t := Pass(Pass(Pass(CaughtUp(After(s, steps)), k1), k2), k3); Done(t) && Pass(t, k4) == t
  {
    var a := CaughtUp(After(s, steps));
    RunKeeps(s, steps);
    RunMirrors(s, steps);
    ServedRun(s, steps);
    CaughtUpKeeps(After(s, steps));
    RecoversIff(a, k1, k2, k3);
    PassKeeps(a, k1);
    PassKeeps(Pass(a, k1), k2);
    PassKeeps(Pass(Pass(a, k1), k2), k3);
    PassProgress(Pass(Pass(Pass(a, k1), k2), k3), k4);
  }

  // ---------------------------------------------------------------------------------------
  // A lost Service

  lemma {:induction false} AfterConcat(s: State, a: seq<Step>, b: seq<Step>)
    requires Follows(s, a) && Follows(After(s, a), b)
    ensures Follows(s, a + b) && After(s, a + b) == After(After(s, a), b)
    decreases |a|
  {
    if a == [] {
      assert a + b == b;
    } else {
      assert (a + b)[1..] == a[1..] + b;
      AfterConcat(Do(s, a[0]), a[1..], b);
    }
  }

  lemma OneStep(s: State, step: Step)
    requires Enabled(s, step)
    ensures Follows(s, [step]) && After(s, [step]) == Do(s, step)
  {
    assert [step][1..] == [];
  }

  lemma {:induction false} CatchUpRun(s: State) returns (steps: seq<Step>)
    ensures Follows(s, steps) && After(s, steps) == CaughtUp(s)
    decreases |s.queue|
  {
    if s.queue == [] {
      steps := [];
    } else {
      var m := Do(s, Deliver);
      var rest := CatchUpRun(m);
      assert CaughtUp(m) == CaughtUp(s);
      steps := [Deliver] + rest;
      assert steps[1..] == rest;
    }
  }

  lemma {:induction false} FinishRun(s: State, kept: bool) returns (steps: seq<Step>)
    ensures Follows(s, steps) && After(s, steps) == Finish(s, kept)
    decreases Rank(s.work)
  {
    if s.work.Idle? {
      steps := [];
    } else {
      NextRanks(s, kept);
      var call := Controller(ModelReady, Works, kept);
      var rest := FinishRun(Next(s, kept), kept);
      OneStep(s, call);
      AfterConcat(s, [call], rest);
      steps := [call] + rest;
    }
  }

  /** A pass is a run. */
  lemma PassRun(s: State, kept: bool) returns (steps: seq<Step>)
    ensures Follows(s, steps) && After(s, steps) == Pass(s, kept)
  {
    var call := Controller(ModelReady, Works, kept);
    OneStep(s, call);
    var a := FinishRun(Next(s, kept), kept);
    var b := CatchUpRun(Finish(Next(s, kept), kept));
    AfterConcat(s, [call], a);
    AfterConcat(s, [call] + a, b);
    steps := [call] + a + b;
  }

  /** A new application with a supported runtime and proper volumes. */
  lemma CreateRun(s: State, runtime: Runtime) returns (steps: seq<Step>, t: State)
    requires Initial(s) && Supported(Effective(runtime))
    ensures Follows(s, steps) && After(s, steps) == t && Open(t) && !t.lws && !t.service
  {
    var create := CreateApp(runtime, true);
    OneStep(s, create);
    var rest := CatchUpRun(Do(s, create));
    AfterConcat(s, [create], rest);
    steps, t := [create] + rest, CaughtUp(Do(s, create));
  }

  /** The exception of `RecoversIff` does happen: every new valid application can get to where it is
      ready, has its LeaderWorkerSet, and has lost its Service for good. */
  lemma ServiceLostForGood(s: State, runtime: Runtime, kept: bool) returns (steps: seq<Step>)
    requires Initial(s) && Supported(Effective(runtime))
    ensures Follows(s, steps)
    ensures var t := After(s, steps);
            Open(t) && Holds(t.app.value, Ready) && t.lws && !t.service && Pass(t, kept) == t
  {
    var a, s1 := CreateRun(s, runtime);
    RunKeeps(s, a);
    RunMirrors(s, a);
    var s2, s3 := Pass(s1, kept), Pass(Pass(s1, kept), kept);
    var s4 := Pass(s3, kept);
    var b := PassRun(s1, kept);
    var c := PassRun(s2, kept);
    var d := PassRun(s3, kept);
    AfterConcat(s, a, b);
    AfterConcat(s, a + b, c);
    AfterConcat(s, a + b + c, d);
    RecoversIff(s1, kept, kept, kept);
    OneStep(s4, LoseService);
    AfterConcat(s, a + b + c + d, [LoseService]);
    steps := a + b + c + d + [LoseService];
    RunKeeps(s, steps);
    RunMirrors(s, steps);
    RecoversIff(After(s, steps), kept, kept, kept);
  }
}
