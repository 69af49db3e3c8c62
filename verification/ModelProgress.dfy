/** What an undisturbed reconcile of a model achieves, for every source and every state of its worker
    pod, and so how a new model gets ready. */
module ModelProgress {
  import opened Wrappers
  import opened Objects
  import opened ModelController
  import opened ModelRuns
  import opened ModelReconciler

  function AllWork(n: nat): Outcome { Works }

  /** One reconcile in which every call works. */
  ghost function Calm(s: State): State { Through(Call(s, Works), AllWork, 1) }

  /** Between reconciles, with the informer up to date and a model to work on: it has the finalizer
      and is neither ready, failed nor being deleted. */
  ghost predicate Open(s: State) {
    && Inv(s) && s.queue == [] && s.work.Idle? && s.model.Some? && !s.model.value.deleting
    && Ours in s.model.value.finalizers && s.model.value.status.phase != PhaseReady && s.model.value.status.phase != Failed
  }

  /** The stored model has the status of `obj` and is otherwise as in `s`. */
  predicate Saved(t: State, s: State, obj: Model) {
    && t.work.Idle? && s.model.Some? && t.model.Some? && t.model.value.status == obj.status
    && SameObject(t.model.value, s.model.value) && t.model.value.deleting == s.model.value.deleting
    && t.model.value.finalizers == s.model.value.finalizers
    && t.pvcs == s.pvcs && t.pod == s.pod
  }

  lemma SaveEnds(s: State, n: nat)
    requires s.work.Save? && Current(s, s.work.obj)
    ensures Saved(Through(s, AllWork, n), s, s.work.obj)
  {
    var t := Call(s, Works);
    assert Through(s, AllWork, n) == Through(t, AllWork, n + 1) == t;
  }

  /** The status with which a model leaves the load stage, given its worker pod. */
  lemma LoadEnds(s: State, m: Model, claim: string, n: nat) returns (obj: Model, pod: Option<Pod>)
    requires s.work == LoadStage(m, claim) && Current(s, m) && !Holds(m, Loaded) && !Holds(m, Ready)
    requires m.status.phase != PhaseReady && m.status.phase != Failed
    ensures Saved(Through(s, AllWork, n), s.(pod := pod), obj)
    ensures Holds(obj, Prepared) == Holds(m, Prepared)
    ensures pod == if m.source.Huggingface? && s.pod.None? && claim != "" then Some(Pod(Active, claim)) else s.pod
    ensures obj.status.phase == PhaseReady <==> !m.source.Huggingface? || (s.pod.Some? && s.pod.value.phase == PodSucceeded)
    ensures Holds(obj, Loaded) <==> obj.status.phase == PhaseReady && !m.source.EmptySource?
    ensures obj.status.phase == Failed <==> m.source.Huggingface? && s.pod.Some? && s.pod.value.phase == PodFailed
    ensures m.source.Huggingface? && s.pod.None? ==> obj.status.phase == ModelLoading
    ensures m.source.Huggingface? && s.pod.Some? && s.pod.value.phase == Active ==> obj == m
  {
    pod := s.pod;
    if m.source.Huggingface? {
      var s1 := Call(s, Works);
      assert Through(s, AllWork, n) == Through(s1, AllWork, n + 1);
      if s.pod.None? {
        var s2 := Call(s1, Works);
        assert Through(s1, AllWork, n + 1) == Through(s2, AllWork, n + 2);
        SaveEnds(s2, n + 2);
        obj, pod := s2.work.obj, s2.pod;
      } else {
        SaveEnds(s1, n + 1);
        obj := s1.work.obj;
      }
    } else {
      SaveEnds(s, n);
      obj := s.work.obj;
    }
  }

  /** The storage stage of a model whose storage is not recorded yet. */
  lemma StorageEnds(s: State, m: Model) returns (s': State, n: nat)
    requires s.work == GetPvc(m)
    ensures Through(s, AllWork, 1) == Through(s', AllWork, n)
    ensures s' == s.(pvcs := s.pvcs + {PvcName(m)}, work := StorageDone(m))
  {
    var s1 := Call(s, Works);
    assert Through(s, AllWork, 1) == Through(s1, AllWork, 2);
    if PvcName(m) in s.pvcs {
      assert s.pvcs + {PvcName(m)} == s.pvcs;
      s', n := s1, 2;
    } else {
      s', n := Call(s1, Works), 3;
      assert Through(s1, AllWork, 2) == Through(s', AllWork, 3);
    }
  }

  /** An open model is unfinished, and the reconcile enters its storage stage. */
  lemma EntersStorage(s: State)
    requires Open(s)
    ensures var m := s.model.value.(status := s.model.value.status.(flags := Begin(s.model.value.status.flags)));
            && s.cache == s.model && Call(s, Works).work == StorageStage(m) && Current(s, m)
            && Unfinished(m) && !Holds(m, Loaded) && !Holds(m, Ready) && Holds(m, Prepared) == Holds(s.model.value, Prepared)
            && SameObject(m, s.model.value)
  {
    assert Copy(s, 0) == s.cache;
  }

  /** What a calm reconcile of an open model leaves, given its storage, its source and its pod. */
  ghost predicate Outcomes(s: State, t: State)
    requires s.model.Some?
  {
    var m := s.model.value;
    var claim := if m.pvc.Some? && m.pvc.value != "" then m.pvc.value else m.name;
    && t.work.Idle? && t.model.Some? && SameObject(t.model.value, m) && !t.model.value.deleting
    && t.model.value.finalizers == m.finalizers
    && (m.pvc.None? ==> t.model.value.status.phase == Failed && t.pod == s.pod && t.pvcs == s.pvcs)
    && (m.pvc.Some? ==>
          && Holds(t.model.value, Prepared)
          && t.pvcs == (if Holds(m, Prepared) then s.pvcs else s.pvcs + {claim})
          && t.pod == (if m.source.Huggingface? && s.pod.None? && !Holds(m, Prepared) then Some(Pod(Active, claim)) else s.pod)
          && (t.model.value.status.phase == PhaseReady <==>
                !m.source.Huggingface? || (s.pod.Some? && s.pod.value.phase == PodSucceeded))
          && (Holds(t.model.value, Loaded) <==> t.model.value.status.phase == PhaseReady && !m.source.EmptySource?)
          && (t.model.value.status.phase == Failed <==> m.source.Huggingface? && s.pod.Some? && s.pod.value.phase == PodFailed))
  }

  /** One calm reconcile of an open model: without storage it fails; otherwise its storage is there
      and recorded, a Huggingface model without pod gets one on its claim if the storage was not
      recorded before, it is ready if and only if it needs no download or its pod has succeeded, it is
      loaded if and only if it is ready and its source is not the empty one, and it has failed if and
      only if its pod has. */
  lemma CalmReconcile(s: State)
    requires Open(s)
    ensures Outcomes(s, Calm(s))
  {
    var m := s.model.value.(status := s.model.value.status.(flags := Begin(s.model.value.status.flags)));
    var s1 := Call(s, Works);
    EntersStorage(s);
    if m.pvc.None? {
      SaveEnds(s1, 1);
    } else if Holds(m, Prepared) {
      var obj, pod := LoadEnds(s1, m, "", 1);
    } else {
      var began := SetPhase(m, StorageCreating);
      var s2, n := StorageEnds(s1, began);
      var obj, pod := LoadEnds(s2, SetFlag(began, Prepared, true), PvcName(began), n);
    }
  }

  /** Once the storage is recorded, the worker pod decides: the model is ready and loaded if and only
      if its pod has succeeded, and failed if and only if its pod has failed. */
  lemma PodDecides(s: State)
    requires Open(s) && Holds(s.model.value, Prepared) && s.model.value.source.Huggingface?
    ensures var t := Calm(s);
            && t.work.Idle? && t.model.Some?
            && (t.model.value.status.phase == PhaseReady && Holds(t.model.value, Loaded)
                <==> s.pod.Some? && s.pod.value.phase == PodSucceeded)
            && (t.model.value.status.phase == Failed <==> s.pod.Some? && s.pod.value.phase == PodFailed)
  {
    CalmReconcile(s);
    assert Copy(s, 0) == s.cache && s.model.value.pvc.Some?;
  }

  /** Reconciling a model that is being deleted removes its worker pod and the finalizer; the object
      is gone if and only if nobody else holds a finalizer. */
  lemma DeletionCompletes(s: State)
    requires Inv(s) && s.queue == [] && s.work.Idle? && s.model.Some? && s.model.value.deleting
    ensures var t := Calm(s);
            && t.work.Idle? && t.pod.None?
            && (t.model.None? <==> forall f :: f in s.model.value.finalizers ==> f == Ours)
            && (t.model.Some? ==> forall f :: f in t.model.value.finalizers <==> f in s.model.value.finalizers && f != Ours)
  {
    var m := s.model.value;
    assert Copy(s, 0) == s.cache == s.model;
    var s1 := Call(s, Works);
    var s2 := if m.source.Huggingface? then Call(s1, Works) else s1;
    var n := if m.source.Huggingface? then 2 else 1;
    assert s2.work == DropFinalizer(m) && Current(s2, m) && s2.pod.None?;
    assert Calm(s) == Through(s2, AllWork, n) == Call(s2, Works);
    forall f ensures f in WithoutFinalizer(m.finalizers, Ours) <==> f in m.finalizers && f != Ours {
      WithoutHas(m.finalizers, Ours, f);
    }
    if WithoutFinalizer(m.finalizers, Ours) != [] {
      assert WithoutFinalizer(m.finalizers, Ours)[0] in WithoutFinalizer(m.finalizers, Ours);
    }
  }

  // ---------------------------------------------------------------------------------------
  // Runs to ready

  /** A calm reconcile after which the informer catches up. */
  ghost function Pass(s: State): State { CaughtUp(Calm(s)) }

  lemma OneStep(s: State, step: Step)
    requires Enabled(s, step)
    ensures Follows(s, [step]) && After(s, [step]) == Do(s, step)
  {
    assert [step][1..] == [];
  }

  lemma {:induction false} ThroughRun(s: State, n: nat) returns (steps: seq<Step>)
    ensures Follows(s, steps) && After(s, steps) == Through(s, AllWork, n)
    decreases ModelReconciler.Rank(s.work)
  {
    if s.work.Idle? {
      steps := [];
    } else {
      var rest := ThroughRun(Call(s, Works), n + 1);
      OneStep(s, Controller(Works));
      AfterConcat(s, [Controller(Works)], rest);
      steps := [Controller(Works)] + rest;
    }
  }

  /** A pass is a run. */
  lemma PassRun(s: State) returns (steps: seq<Step>)
    ensures Follows(s, steps) && After(s, steps) == Pass(s)
  {
    OneStep(s, Controller(Works));
    var a := ThroughRun(Call(s, Works), 1);
    var b := CatchUpRun(Calm(s));
    AfterConcat(s, [Controller(Works)], a);
    AfterConcat(s, [Controller(Works)] + a, b);
    steps := [Controller(Works)] + a + b;
  }

  lemma PassOutcomes(s: State)
    requires Open(s)
    ensures Inv(Pass(s)) && Outcomes(s, Pass(s)) && Pass(s).queue == []
  {
    CalmReconcile(s);
    var steps := PassRun(s);
    RunKeeps(s, steps);
    assert Copy(Calm(s), |Calm(s).queue|) == Calm(s).model by {
      OneStep(s, Controller(Works));
      var a := ThroughRun(Call(s, Works), 1);
      CallKeeps(s, Works);
      RunKeeps(Call(s, Works), a);
    }
  }

  /** A new model with storage, once its finalizer is on. */
  lemma NewModelOpen(s: State, name: string, pvc: string, source: Source) returns (steps: seq<Step>, t: State)
    requires Initial(s) && name != ""
    ensures Follows(s, steps) && After(s, steps) == t && Open(t) && t.pod.None?
    ensures t.model.value.name == name && t.model.value.source == source && t.model.value.pvc == Some(pvc) && !Holds(t.model.value, Prepared)
  {
    steps := StartedRun(s, name, pvc, source);
    RunKeeps(s, steps);
    t := Started(s, name, pvc, source);
  }

  /** Every new model that needs no download gets ready, and is then loaded if and only if its source
      is not set but empty. */
  lemma UndownloadedGetsReady(s: State, name: string, pvc: string, source: Source) returns (steps: seq<Step>)
    requires Initial(s) && name != "" && !source.Huggingface?
    ensures Follows(s, steps)
    ensures var t := After(s, steps);
            && t.model.Some? && t.model.value.name == name && t.model.value.source == source
            && t.model.value.status.phase == PhaseReady
            && (Holds(t.model.value, Loaded) <==> !source.EmptySource?)
  {
    var a, s1 := NewModelOpen(s, name, pvc, source);
    var b := PassRun(s1);
    PassOutcomes(s1);
    AfterConcat(s, a, b);
    steps := a + b;
  }

  /** A pass, the end of the worker pod, and a second pass. */
  lemma DownloadRun(s: State) returns (steps: seq<Step>, t: State)
    requires Open(s) && s.model.value.source.Huggingface? && s.model.value.pvc.Some? && !Holds(s.model.value, Prepared) && s.pod.None?
    ensures Follows(s, steps) && After(s, steps) == t && t.model.Some? && SameObject(t.model.value, s.model.value)
    ensures t.model.value.status.phase == PhaseReady && Holds(t.model.value, Loaded)
  {
    var a := PassRun(s);
    PassOutcomes(s);
    var s2, ends := Pass(s), PodEnds(PodSucceeded);
    OneStep(s2, ends);
    StepKeeps(s2, ends);
    var s3 := Do(s2, ends);
    var b := PassRun(s3);
    PassOutcomes(s3);
    t := Pass(s3);
    AfterConcat(s, a, [ends]);
    AfterConcat(s, a + [ends], b);
    steps := a + [ends] + b;
  }

  /** Every new Huggingface model has a run in which it is downloaded and gets ready and loaded. */
  lemma HuggingfaceGetsReady(s: State, name: string, pvc: string) returns (steps: seq<Step>)
    requires Initial(s) && name != ""
    ensures Follows(s, steps)
    ensures var t := After(s, steps);
            && t.model.Some? && t.model.value.name == name && t.model.value.source.Huggingface?
            && t.model.value.status.phase == PhaseReady && Holds(t.model.value, Loaded)
  {
    var a, s1 := NewModelOpen(s, name, pvc, Huggingface);
    var b, t := DownloadRun(s1);
    AfterConcat(s, a, b);
    steps := a + b;
  }
}
