/** What an undisturbed reconcile of an application achieves, whatever it finds of the model: when it
    fails, when it waits, and when it has created what is missing. */
module ApplicationProgress {
  import opened Wrappers
  import opened Objects
  import opened Application
  import opened ApplicationConvergence
  import opened ApplicationReconciler

  function AllWork(n: nat): Outcome { Works }

  function Calmly(m: ModelView, kept: bool): Weather { Weather(AllWork, m, kept) }

  /** One reconcile in which every call works. */
  ghost function Calm(s: State, m: ModelView, kept: bool): State { Through(Call(s, m, Works, kept), Calmly(m, kept), 1) }

  /** Between reconciles, with the informer up to date and an application to work on: it has the
      finalizer and is neither failed nor being deleted. */
  ghost predicate Reconcilable(s: State) {
    && Inv(s) && s.queue == [] && s.work.Idle? && s.app.Some? && !s.app.value.deleting
    && s.app.value.status.phase != Failed && Ours in s.app.value.finalizers
  }

  /** The runtime is a known one or left open, and no volume or mount is reserved. */
  predicate ValidSpec(a: App) { !a.runtime.Unknown? && a.volumesOk }

  /** The application is invalid, or its model is missing, or has failed before it was loaded. */
  predicate Fails(a: App, m: ModelView) { !ValidSpec(a) || m == Missing || (m == ModelFailed && !Holds(a, Loaded)) }

  /** What a calm reconcile leaves. */
  ghost predicate Outcomes(s: State, m: ModelView, t: State)
    requires s.app.Some?
  {
    var a := s.app.value;
    && t.work.Idle? && t.app.Some?
    && (t.app.value.status.phase == Failed <==> Fails(a, m))
    && (Fails(a, m) ==> t.lws == s.lws && t.service == s.service)
    && (!Fails(a, m) ==>
          && Holds(t.app.value, Prepared)
          && (Holds(t.app.value, Loaded) <==> Holds(a, Loaded) || m == ModelReady)
          && (Holds(t.app.value, Ready) <==> Holds(t.app.value, Loaded) && (Holds(a, Ready) ==> s.lws))
          && (Holds(t.app.value, Ready) ==> t.app.value.status.phase == Running && t.lws)
          && (!Holds(t.app.value, Loaded) ==> t.app.value.status.phase == Loading)
          && (t.lws <==> s.lws || (Holds(t.app.value, Ready) && !Holds(a, Ready)))
          && (t.service <==> s.service || (Holds(t.app.value, Ready) && !Holds(a, Ready))))
  }

  /** Past the model, the model makes no difference. */
  lemma {:induction false} ThroughIsFinish(s: State, m: ModelView, kept: bool, n: nat)
    requires !s.work.GetModel?
    ensures Through(s, Calmly(m, kept), n) == Finish(s, kept)
    decreases Rank(s.work)
  {
    if !s.work.Idle? {
      NextRanks(s, kept);
      ThroughIsFinish(Next(s, kept), m, kept, n + 1);
    }
  }

  /** The stored application has the status `st`, and these objects exist. */
  predicate Left(t: State, st: Status, lws: bool, service: bool) {
    t.work.Idle? && t.app.Some? && t.app.value.status == st && t.lws == lws && t.service == service
  }

  lemma SaveLeaves(s: State, kept: bool)
    requires s.work.Save? && Current(s, s.work.obj)
    ensures Left(Finish(s, kept), s.work.obj.status, s.lws, s.service)
  {
    NextRanks(s, kept);
  }

  lemma SyncLeaves(s: State, kept: bool)
    requires s.work.Sync? && Current(s, s.work.obj)
    ensures Left(Finish(s, kept), if s.lws then s.work.obj.status else Flagged(Phased(s.work.obj.status, Running), Ready, false), s.lws, s.service)
  {
    SyncFinish(s, kept);
  }

  lemma CreatingLeaves(s: State, kept: bool)
    requires s.work.GetLws? && WorkOk(s.work) && Current(s, s.work.obj)
    ensures Left(Finish(s, kept), Flagged(Phased(s.work.obj.status, Running), Ready, true), true, true)
  {
    LwsFinish(s, kept);
    var c :| Finish(s, kept) == Finish(s.(work := GetService(s.work.obj), lws := true, lwsCreated := c), kept);
    ServiceFinish(s.(work := GetService(s.work.obj), lws := true, lwsCreated := c), kept);
  }

  /** The first reconcile of an application adds the finalizer to those it has, fills in the runtime
      if it was left open, and creates nothing. */
  lemma FirstReconcile(s: State, m: ModelView, kept: bool)
    requires Inv(s) && s.queue == [] && s.work.Idle? && s.app.Some? && !s.app.value.deleting
    requires s.app.value.status.phase != Failed && Ours !in s.app.value.finalizers
    ensures var t := Calm(s, m, kept);
            && t.work.Idle? && t.app.Some? && t.lws == s.lws && t.service == s.service
            && t.app.value.finalizers == s.app.value.finalizers + [Ours]
            && t.app.value.runtime == (if s.app.value.runtime.Unset? then Vllm else s.app.value.runtime)
            && t.app.value.volumesOk == s.app.value.volumesOk && t.app.value.status.phase != Failed
  {
    CacheIsCurrent(s);
    var s1 := Call(s, m, Works, kept);
    var s2 := Next(s1, kept);
    assert s1.work.AddFinalizer? && s2.work.Save? && Current(s2, s2.work.obj);
    ThroughIsFinish(s1, m, kept, 1);
    NextRanks(s1, kept);
    NextRanks(s2, kept);
  }

  /** From the fetched application to the model. */
  lemma ReachesModel(s: State, m: ModelView, kept: bool)
    requires Reconcilable(s)
    ensures var s1 := Call(s, m, Works, kept);
            && s1 == s.(work := Enter(s.app.value)) && Current(s, s1.work.obj)
            && (if ValidSpec(s.app.value) then s1.work.GetModel?
                else s1.work.Save? && s1.work.obj.status.phase == Failed)
            && (s1.work.GetModel? ==>
                  && WorkOk(s1.work) && Holds(s1.work.obj, Loaded) == Holds(s.app.value, Loaded)
                  && Holds(s1.work.obj, Ready) == Holds(s.app.value, Ready))
  {
    EnterOk(s.app.value);
    CacheIsCurrent(s);
  }

  /** From the model to the end. */
  lemma ModelToEnd(s: State, m: ModelView, kept: bool, n: nat)
    requires s.work.GetModel?
    ensures Through(s, Calmly(m, kept), n) == Finish(s.(work := ModelStage(s.work.obj, m)), kept)
  {
    var s' := s.(work := ModelStage(s.work.obj, m));
    assert Through(s, Calmly(m, kept), n) == Through(s', Calmly(m, kept), n + 1);
    ThroughIsFinish(s', m, kept, n + 1);
  }

  /** What the model stage leads to: `a` is the copy that has passed the check. */
  lemma StageLeaves(s: State, a: App, m: ModelView, kept: bool) returns (st: Status, made: bool)
    requires WorkOk(GetModel(a)) && Current(s, a)
    ensures Left(Finish(s.(work := ModelStage(a, m)), kept), st, s.lws || made, s.service || made)
    ensures made <==> !Holds(a, Ready) && m != Missing && (Holds(a, Loaded) || m == ModelReady)
    ensures st.phase == Failed <==> m == Missing || (m == ModelFailed && !Holds(a, Loaded))
    ensures st.phase != Failed ==>
              && On(st.flags, Prepared) && (On(st.flags, Loaded) <==> Holds(a, Loaded) || m == ModelReady)
              && (On(st.flags, Ready) <==> made || (Holds(a, Ready) && s.lws))
              && (On(st.flags, Ready) ==> st.phase == Running) && (!On(st.flags, Loaded) ==> st.phase == Loading)
  {
    var w := ModelStage(a, m);
    var s2 := s.(work := w);
    ModelStageOk(a, m);
    made := w.GetLws?;
    if w.Save? {
      SaveLeaves(s2, kept);
      st := w.obj.status;
    } else if w.Sync? {
      SyncLeaves(s2, kept);
      st := if s.lws then w.obj.status else Flagged(Phased(w.obj.status, Running), Ready, false);
    } else {
      CreatingLeaves(s2, kept);
      st := Flagged(Phased(w.obj.status, Running), Ready, true);
    }
  }

  /** One calm reconcile of such an application: it fails if and only if the application is invalid,
      its model is missing, or its model has failed before it was loaded; it marks the model loaded if
      and only if it was or is ready; and it creates LeaderWorkerSet and Service if and only if the
      model is loaded and the application was not ready. */
  lemma CalmReconcile(s: State, m: ModelView, kept: bool)
    requires Reconcilable(s)
    ensures Outcomes(s, m, Calm(s, m, kept))
  {
    var s1 := Call(s, m, Works, kept);
    ReachesModel(s, m, kept);
    if s1.work.Save? {
      ThroughIsFinish(s1, m, kept, 1);
      SaveLeaves(s1, kept);
    } else {
      ModelToEnd(s1, m, kept, 1);
      var st, made := StageLeaves(s1, s1.work.obj, m, kept);
    }
  }
}
