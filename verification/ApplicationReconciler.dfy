/** The application controller's reconcile as the program it is, against the cluster it changes:
    undisturbed by others, it makes exactly the calls of the step machine in `Application`. */
module ApplicationReconciler {
  import opened Wrappers
  import opened Objects
  import opened Application
  import opened ApplicationConvergence

  /** What a reconcile meets: how its calls end, by number, what it sees of the model, and whether a
      stored copy keeps its unsaved status. */
  datatype Weather = Weather(outcome: nat -> Outcome, model: ModelView, kept: bool)

  /** The step machine run from call number `n` to the end of the reconcile. */
  ghost function Through(s: State, w: Weather, n: nat): State
    decreases Rank(s.work)
  {
    if s.work.Idle? then s else Through(Call(s, w.model, w.outcome(n), w.kept), w, n + 1)
  }

  /** When every call works and the model is ready, that is one pass of the convergence proofs. */
  lemma {:induction false} CalmWeatherIsPass(s: State, kept: bool, n: nat)
    ensures Through(s, Weather(_ => Works, ModelReady, kept), n) == Finish(s, kept)
    decreases Rank(s.work)
  {
    if !s.work.Idle? {
      NextRanks(s, kept);
      CalmWeatherIsPass(Next(s, kept), kept, n + 1);
    }
  }

  class Reconciler {
    var versions: int
    var app: Option<App>
    var cache: Option<App>
    var queue: seq<Option<App>>
    var lws: bool
    var service: bool
    var lwsCreated: nat

    ghost function Snapshot(work: Work): State
      reads this
    {
      State(versions, app, cache, queue, lws, service, work, lwsCreated)
    }

    method Reconcile(w: Weather)
      modifies this
      ensures Snapshot(Idle) == Through(old(Call(Snapshot(Idle), w.model, w.outcome(0), w.kept)), w, 1)
    {
      if cache.None? || !w.outcome(0).Works? {
        return;
      }
      if cache.value.deleting {
        Remove(cache.value, w, 1);
      } else {
        var obj, n := ReconcileObject(cache.value, w);
        UpdateStatus(obj, w, n);
      }
    }

    method UpdateStatus(obj: App, w: Weather, n: nat)
      modifies `versions, `app, `queue
      ensures Snapshot(Idle) == Through(old(Snapshot(Save(obj))), w, n)
    {
      if !w.outcome(n).Refused? && app.Some? && app.value.version == obj.version && app.value.status != obj.status {
        versions := versions + 1;
        app := Some(app.value.(version := versions, status := obj.status));
        queue := queue + [app];
      }
    }

    method UpdateObject(obj: App)
      requires app.Some?
      modifies `versions, `app, `queue
      ensures Snapshot(Idle) == StoreObject(old(Snapshot(Idle)), obj)
    {
      versions := versions + 1;
      app := Kept(app.value.(version := versions, finalizers := obj.finalizers, runtime := obj.runtime));
      queue := queue + [app];
    }

    method Remove(a: App, w: Weather, n: nat)
      modifies this
      ensures Snapshot(Idle) == Through(old(Snapshot(DeleteService(a))), w, n)
    {
      if !w.outcome(n).Refused? {
        service := false;
      }
      if !w.outcome(n).Works? {
        return;
      }
      ghost var s1 := Snapshot(DeleteLws(a));
      assert Through(old(Snapshot(DeleteService(a))), w, n) == Through(s1, w, n + 1);
      if !w.outcome(n + 1).Refused? {
        lws := false;
      }
      assert Through(s1, w, n + 1) == Through(Call(s1, w.model, w.outcome(n + 1), w.kept), w, n + 2);
      if !w.outcome(n + 1).Works? {
        return;
      }
      ghost var s2 := Snapshot(DropFinalizer(a));
      assert Through(s1, w, n + 1) == Through(s2, w, n + 2) == Call(s2, w.model, w.outcome(n + 2), w.kept);
      var rest := RemoveFinalizer(a.finalizers, Ours);
      if !w.outcome(n + 2).Refused? && app.Some? && app.value.version == a.version {
        UpdateObject(a.(finalizers := rest));
      }
    }

    /** From the fetched object to the status that is saved. */
    method ReconcileObject(fetched: App, w: Weather) returns (obj: App, n: nat)
      requires !fetched.deleting
      modifies this
      ensures Through(old(Snapshot(Enter(fetched))), w, 1) == Through(Snapshot(Save(obj)), w, n)
    {
      obj, n := fetched, 1;
      if obj.status.phase == Failed {
        return;
      }
      if obj.status.phase == NoPhase {
        obj := SetPhase(obj, Pending);
      }
      obj := obj.(status := obj.status.(flags := Begin(obj.status.flags), conds := Initialize(obj.status.conds)));
      if obj.runtime.Unset? {
        obj := obj.(runtime := Vllm);
      }
      assert obj == Defaulted(fetched);
      var has := HasFinalizer(obj.finalizers, Ours);
      if !has {
        obj := obj.(finalizers := obj.finalizers + [Ours]);
        obj := AddOurFinalizer(obj, w);
        return obj, 2;
      }
      if !Holds(obj, Prepared) {
        obj := SetPhase(obj, Checking);
        if !Supported(obj.runtime) {
          obj := SetFlag(SetPhase(obj, Failed), Prepared, false);
          return;
        }
        if !obj.volumesOk {
          obj := SetFlag(SetPhase(obj, Failed), Prepared, false);
          return;
        }
        obj := SetFlag(obj, Prepared, true);
      }
      assert Enter(fetched) == GetModel(obj);
      obj, n := WaitForModel(obj, w);
    }

    method AddOurFinalizer(a: App, w: Weather) returns (obj: App)
      modifies `versions, `app, `queue
      ensures Through(old(Snapshot(AddFinalizer(a))), w, 1) == Through(Snapshot(Save(obj)), w, 2)
    {
      obj := a;
      if w.outcome(1).Refused? || app.None? || app.value.version != a.version {
        return;
      }
      UpdateObject(a);
      if w.outcome(1).Works? {
        obj := Refreshed(app, a, w.kept);
      }
    }

    method WaitForModel(a: App, w: Weather) returns (obj: App, n: nat)
      modifies this
      ensures Through(old(Snapshot(GetModel(a))), w, 1) == Through(Snapshot(Save(obj)), w, n)
    {
      obj, n := a, 2;
      if !w.outcome(1).Works? {
        return;
      }
      if w.model == Missing {
        obj := SetFlag(SetPhase(obj, Failed), Loaded, false);
        return;
      }
      if !Holds(obj, Loaded) {
        obj := SetPhase(obj, Loading);
        match w.model {
          case ModelFailed =>
            obj := SetFlag(SetPhase(obj, Failed), Loaded, false);
            return;
          case ModelReady =>
            obj := SetFlag(obj, Loaded, true);
          case _ =>
            return;
        }
      }
      assert Through(old(Snapshot(GetModel(a))), w, 1) == Through(Snapshot(ReadyStage(obj)), w, 2);
      var done := true;
      if !Holds(obj, Ready) {
        obj := SetPhase(obj, Creating);
        obj, n, done := EnsureLws(obj, w);
        if done {
          obj, n, done := EnsureService(obj, w, n);
        }
      }
      if done {
        obj := SyncStatus(obj, w, n);
        n := n + 1;
      }
    }

    /** `created`: the LeaderWorkerSet is there and the reconcile goes on; otherwise it ends. */
    method EnsureLws(a: App, w: Weather) returns (obj: App, n: nat, created: bool)
      modifies `lws, `lwsCreated
      ensures Through(old(Snapshot(GetLws(a))), w, 2)
              == Through(Snapshot(if created then GetService(obj) else Save(obj)), w, n)
    {
      obj, n, created := a, 3, false;
      if !w.outcome(2).Works? {
        return;
      }
      if !lws {
        if !Supported(obj.runtime) {
          obj := SetFlag(SetPhase(obj, Failed), Prepared, false);
          return;
        }
        n := 4;
        ghost var s := Snapshot(CreateLws(obj));
        assert Through(old(Snapshot(GetLws(a))), w, 2) == Through(s, w, 3);
        if !w.outcome(3).Refused? {
          lws, lwsCreated := true, lwsCreated + 1;
        }
        if !w.outcome(3).Works? {
          obj := SetFlag(obj, Ready, false);
          return;
        }
      }
      created := true;
    }

    /** `created`: the Service is there and the object is marked ready; otherwise the reconcile ends. */
    method EnsureService(a: App, w: Weather, k: nat) returns (obj: App, n: nat, created: bool)
      modifies `service
      ensures Through(old(Snapshot(GetService(a))), w, k)
              == Through(Snapshot(if created then Sync(obj) else Save(obj)), w, n)
    {
      obj, n, created := a, k + 1, false;
      if !w.outcome(k).Works? {
        return;
      }
      if !service {
        n := k + 2;
        ghost var s := Snapshot(CreateService(obj));
        assert Through(old(Snapshot(GetService(a))), w, k) == Through(s, w, k + 1);
        if !w.outcome(k + 1).Refused? {
          service := true;
        }
        if !w.outcome(k + 1).Works? {
          return;
        }
      }
      obj := SetFlag(SetPhase(obj, Running), Ready, true);
      created := true;
    }

    method SyncStatus(a: App, w: Weather, n: nat) returns (obj: App)
      ensures Through(Snapshot(Sync(a)), w, n) == Through(Snapshot(Save(obj)), w, n + 1)
    {
      obj := a;
      if w.outcome(n).Works? && !lws {
        obj := SetFlag(SetPhase(obj, Running), Ready, false);
      }
    }
  }
}
