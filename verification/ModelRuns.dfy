/** What holds in every run of the model controller. */
module ModelRuns {
  import opened Wrappers
  import opened Objects
  import opened ModelController

  ghost predicate Follows(s: State, steps: seq<Step>)
    decreases |steps|
  {
    steps == [] || (Enabled(s, steps[0]) && Follows(Do(s, steps[0]), steps[1..]))
  }

  ghost function After(s: State, steps: seq<Step>): State
    requires Follows(s, steps)
    decreases |steps|
  {
    if steps == [] then s else After(Do(s, steps[0]), steps[1..])
  }

  lemma {:induction false} RunKeeps(s: State, steps: seq<Step>)
    requires Inv(s) && Follows(s, steps)
    ensures Inv(After(s, steps))
    decreases |steps|
  {
    if steps != [] {
      StepKeeps(s, steps[0]);
      RunKeeps(Do(s, steps[0]), steps[1..]);
    }
  }

  /** A ready model has its storage; it is marked loaded if and only if its source is not the empty
      one; and a Huggingface model is ready only after its worker pod was found succeeded. */
  lemma ReadyMeans(s: State, steps: seq<Step>)
    requires Initial(s) && Follows(s, steps)
    ensures var t := After(s, steps);
            t.model.Some? && t.model.value.status.phase == PhaseReady ==>
              && Holds(t.model.value, Prepared)
              && (Holds(t.model.value, Loaded) <==> !t.model.value.source.EmptySource?)
              && (t.model.value.source.Huggingface? ==> t.model.value.uid in t.observed)
  {
    RunKeeps(s, steps);
  }

  /** A worker pod exists only for a Huggingface model that exists with the controller's finalizer. */
  lemma NoOrphanPod(s: State, steps: seq<Step>)
    requires Initial(s) && Follows(s, steps)
    ensures var t := After(s, steps);
            t.pod.Some? ==> t.model.Some? && Ours in t.model.value.finalizers && t.model.value.source.Huggingface?
  {
    RunKeeps(s, steps);
  }

  lemma SettledStep(s: State, step: Step)
    requires Inv(s) && Enabled(s, step)
    requires s.model.Some? && (s.model.value.status.phase == PhaseReady || s.model.value.status.phase == Failed)
    ensures var s' := Do(s, step); s'.model.Some? ==> s'.model.value.status == s.model.value.status
  {
  }

  /** Once ready or failed, the status of a model never changes again. */
  lemma {:induction false} Settled(s: State, steps: seq<Step>)
    requires Inv(s) && s.model.Some? && (s.model.value.status.phase == PhaseReady || s.model.value.status.phase == Failed)
    requires Follows(s, steps) && forall i :: 0 <= i < |steps| ==> !steps[i].CreateModel?
    ensures var t := After(s, steps); t.model.None? || t.model.value.status == s.model.value.status
    decreases |steps|
  {
    if steps != [] {
      var s' := Do(s, steps[0]);
      StepKeeps(s, steps[0]);
      SettledStep(s, steps[0]);
      if s'.model.Some? {
        Settled(s', steps[1..]);
      } else {
        StaysGone(s', steps[1..]);
      }
    }
  }

  lemma {:induction false} StaysGone(s: State, steps: seq<Step>)
    requires s.model.None?
    requires Follows(s, steps) && forall i :: 0 <= i < |steps| ==> !steps[i].CreateModel?
    ensures After(s, steps).model.None?
    decreases |steps|
  {
    if steps != [] { StaysGone(Do(s, steps[0]), steps[1..]); }
  }

  /** Every worker pod mounts the claim of its model. */
  lemma PodMountsOwnClaim(s: State, steps: seq<Step>)
    requires Initial(s) && Follows(s, steps)
    ensures var t := After(s, steps); t.pod.Some? ==> t.model.Some? && t.pod.value.claim == PvcName(t.model.value)
  {
    RunKeeps(s, steps);
  }

  /** A call makes a worker pod, however it ends, if and only if it creates one, is not refused, and
      the conditions its reconcile fetched did not yet say that the storage was there. */
  lemma MakesPodIff(s: State, steps: seq<Step>, o: Outcome)
    requires Initial(s) && Follows(s, steps) && After(s, steps).pod.None?
    ensures var t := After(s, steps);
            Call(t, o).pod.Some? <==> t.work.CreatePod? && !o.Refused? && !On(t.began, Prepared)
  {
    RunKeeps(s, steps);
  }

  /** The worker pod is about to be created for the current object. */
  predicate AboutToCreatePod(s: State) {
    s.work.CreatePod? && s.pod.None? && Current(s, s.work.obj) && !s.model.value.deleting
  }

  /** The informer catches up. */
  function CaughtUp(s: State): State { s.(cache := Copy(s, |s.queue|), queue := []) }

  /** `n` calls that work, each with the informer up to date. */
  function Calls(s: State, n: nat): State {
    if n == 0 then s else Call(CaughtUp(Calls(s, n - 1)), Works)
  }

  // ---------------------------------------------------------------------------------------
  // The download that never starts

  /** A Huggingface model that has its storage recorded and is not loaded. */
  predicate Waiting(m: Model) {
    m.source.Huggingface? && m.pvc.Some? && Holds(m, Prepared) && !Holds(m, Loaded) && !Holds(m, Ready) && m.status.phase != PhaseReady
  }

  /** There is no worker pod, and no copy of the model from which a reconcile would name a claim. */
  ghost predicate Stuck(s: State) {
    && s.pod.None? && (s.model.Some? ==> Waiting(s.model.value))
    && (s.cache.Some? ==> Waiting(s.cache.value))
    && (forall i :: 0 <= i < |s.queue| && s.queue[i].Some? ==> Waiting(s.queue[i].value))
    && (!s.work.Idle? ==>
          && Waiting(s.work.obj) && !s.work.GetPvc? && !s.work.CreatePvc?
          && (s.work.GetPod? || s.work.CreatePod? ==> s.work.claim == ""))
  }

  lemma StuckEnters(m: Model)
    requires Waiting(m)
    ensures var w := Enter(m);
            !w.Idle? && Waiting(w.obj) && (w.Save? || w.AddFinalizer? || w.DeletePod? || w == GetPod(w.obj, ""))
  {
  }

  lemma StuckCall(s: State, o: Outcome)
    requires Stuck(s)
    ensures Stuck(Call(s, o))
  {
    if s.cache.Some? { StuckEnters(s.cache.value); }
    if s.work.GetPod? || s.work.CreatePod? {
      StuckDownload(s, o);
    } else if !s.work.Idle? {
      StuckWrite(s, o);
    }
  }

  lemma StuckDownload(s: State, o: Outcome)
    requires Stuck(s) && (s.work.GetPod? || s.work.CreatePod?)
    ensures Stuck(Call(s, o))
  {
  }

  lemma StuckWrite(s: State, o: Outcome)
    requires Stuck(s) && (s.work.AddFinalizer? || s.work.Save? || Removing(s.work))
    ensures Stuck(Call(s, o))
  {
  }

  lemma StuckStep(s: State, step: Step)
    requires Stuck(s) && Enabled(s, step) && !step.CreateModel?
    ensures Stuck(Do(s, step))
  {
    if step.Controller? { StuckCall(s, step.outcome); }
  }

  /** Such a model never gets a worker pod and never gets ready. */
  lemma {:induction false} StuckForEver(s: State, steps: seq<Step>)
    requires Stuck(s) && Follows(s, steps) && forall i :: 0 <= i < |steps| ==> !steps[i].CreateModel?
    ensures var t := After(s, steps); t.pod.None? && (t.model.Some? ==> t.model.value.status.phase != PhaseReady)
    decreases |steps|
  {
    if steps != [] {
      StuckStep(s, steps[0]);
      StuckForEver(Do(s, steps[0]), steps[1..]);
    }
  }

  /** And that is where a model ends whose worker pod is refused once, as soon as the controller has
      saved its status and the informer has caught up. */
  lemma RefusedPodIsStuck(s: State)
    requires Inv(s) && AboutToCreatePod(s)
    ensures var t := CaughtUp(Calls(Call(s, Refused), 1)); Stuck(t) && t.model.Some? && !t.model.value.deleting
  {
    var s0 := Call(s, Refused);
    CallKeeps(s, Refused);
    assert Calls(s0, 0) == s0 && Calls(s0, 1) == Call(CaughtUp(s0), Works);
    var saved := Calls(s0, 1);
    assert saved.work.Idle? && saved.model.Some? && Copy(saved, |saved.queue|) == saved.model;
  }

  // ---------------------------------------------------------------------------------------
  // New models

  lemma {:induction false} AfterConcat(s: State, a: seq<Step>, b: seq<Step>)
    requires Follows(s, a) && Follows(After(s, a), b)
    ensures Follows(s, a + b) && After(s, a + b) == After(After(s, a), b)
    decreases |a|
  {
    if a == [] {
      assert a + b == b;
    } else {
      assert (a + b)[1..] == a[1..] + b;
      AfterConcat(Do(s, a[0]), a[1..], b);
    }
  }

  lemma {:induction false} CatchUpRun(s: State) returns (steps: seq<Step>)
    ensures Follows(s, steps) && After(s, steps) == CaughtUp(s)
    decreases |s.queue|
  {
    if s.queue == [] {
      steps := [];
    } else {
      var m := Do(s, Deliver);
      var rest := CatchUpRun(m);
      assert CaughtUp(m) == CaughtUp(s);
      steps := [Deliver] + rest;
      assert steps[1..] == rest;
    }
  }

  /** These calls are a run. */
  lemma {:induction false} CallsRun(s: State, n: nat) returns (steps: seq<Step>)
    ensures Follows(s, steps) && After(s, steps) == Calls(s, n)
  {
    if n == 0 {
      steps := [];
    } else {
      var a := CallsRun(s, n - 1);
      var m := Calls(s, n - 1);
      var b := CatchUpRun(m);
      var c := [Controller(Works)];
      assert c[1..] == [] && Follows(CaughtUp(m), c) && After(CaughtUp(m), c) == Call(CaughtUp(m), Works);
      AfterConcat(s, a, b);
      AfterConcat(s, a + b, c);
      steps := a + b + c;
    }
  }

  /** A new model after its finalizer was added: three calls. */
  function Started(s: State, name: string, pvc: string, source: Source): State {
    var v := s.versions + 2;
    var m := Some(Model(v - 1, v, name, false, [Ours], Some(pvc), source, Status(NoPhase, NO_FLAGS)));
    s.(versions := v, model := m, cache := m, queue := [], work := Idle, began := NO_FLAGS)
  }

  lemma StartedAfterThree(s: State, name: string, pvc: string, source: Source)
    requires Initial(s) && name != ""
    ensures CaughtUp(Calls(Do(s, CreateModel(name, Some(pvc), source)), 3)) == Started(s, name, pvc, source)
  {
    var s0 := Do(s, CreateModel(name, Some(pvc), source));
    assert Calls(s0, 0) == s0;
    var s1 := Calls(s0, 1);
    assert s1 == Call(CaughtUp(s0), Works) && s1.work.AddFinalizer?;
    var s2 := Calls(s0, 2);
    assert s2 == Call(CaughtUp(s1), Works) && s2.work == Save(s2.model.value);
    assert s2.model.value.finalizers == [] + [Ours] == [Ours];
    assert Calls(s0, 3) == Call(CaughtUp(s2), Works) == CaughtUp(s2).(work := Idle);
  }

  lemma StartedRun(s: State, name: string, pvc: string, source: Source) returns (steps: seq<Step>)
    requires Initial(s) && name != ""
    ensures Follows(s, steps) && After(s, steps) == Started(s, name, pvc, source)
  {
    var create := [CreateModel(name, Some(pvc), source)];
    var s0 := Do(s, create[0]);
    assert create[1..] == [] && Follows(s, create) && After(s, create) == s0;
    var a := CallsRun(s0, 3);
    var b := CatchUpRun(Calls(s0, 3));
    StartedAfterThree(s, name, pvc, source);
    AfterConcat(s, create, a);
    AfterConcat(s, create + a, b);
    steps := create + a + b;
  }

  /** Every new Huggingface model whose claim does not exist yet gets to the point where its worker
      pod is created. */
  lemma NewModelCreatesPod(s: State, name: string, pvc: string) returns (steps: seq<Step>)
    requires Initial(s) && name != "" && (if pvc == "" then name else pvc) !in s.pvcs
    ensures Follows(s, steps) && AboutToCreatePod(After(s, steps))
  {
    var s0 := Started(s, name, pvc, Huggingface);
    var a := StartedRun(s, name, pvc, Huggingface);
    assert Calls(s0, 0) == s0;
    assert Calls(s0, 1).work.GetPvc?;
    assert Calls(s0, 2).work.CreatePvc?;
    assert Calls(s0, 3).work.GetPod?;
    assert AboutToCreatePod(Calls(s0, 4));
    var b := CallsRun(s0, 4);
    AfterConcat(s, a, b);
    steps := a + b;
  }

  /** So every new Huggingface model can end there. */
  lemma NewModelGetsStuck(s: State, name: string, pvc: string) returns (steps: seq<Step>)
    requires Initial(s) && name != "" && (if pvc == "" then name else pvc) !in s.pvcs
    ensures Follows(s, steps) && Stuck(After(s, steps))
    ensures After(s, steps).model.Some? && !After(s, steps).model.value.deleting
  {
    var a := NewModelCreatesPod(s, name, pvc);
    var s1, refuse := After(s, a), [Controller(Refused)];
    assert refuse[1..] == [] && Follows(s1, refuse) && After(s1, refuse) == Call(s1, Refused);
    var b := CallsRun(Call(s1, Refused), 1);
    var c := CatchUpRun(Calls(Call(s1, Refused), 1));
    AfterConcat(s, a, refuse);
    AfterConcat(s, a + refuse, b);
    AfterConcat(s, a + refuse + b, c);
    RunKeeps(s, a);
    RefusedPodIsStuck(s1);
    steps := a + refuse + b + c;
  }
}
