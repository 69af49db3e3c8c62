/** The model controller's reconcile as the program it is, against the cluster it changes:
    undisturbed by others, it makes exactly the calls of the step machine in `ModelController`. */
module ModelReconciler {
  import opened Wrappers
  import opened Objects
  import opened ModelController

  function Rank(w: Work): nat {
    match w
    case Idle => 0
    case Save(_) | DropFinalizer(_) => 1
    case CreatePod(_, _) | DeletePod(_) | AddFinalizer(_) => 2
    case GetPod(_, _) => 3
    case CreatePvc(_) => 4
    case GetPvc(_) => 5
  }

  /** The step machine run from call number `n` to the end of the reconcile; `outcome` says how each
      call ends. */
  ghost function Through(s: State, outcome: nat -> Outcome, n: nat): State
    decreases Rank(s.work)
  {
    if s.work.Idle? then s else Through(Call(s, outcome(n)), outcome, n + 1)
  }

  class Reconciler {
    var versions: int
    var model: Option<Model>
    var cache: Option<Model>
    var queue: seq<Option<Model>>
    var pvcs: set<string>
    var pod: Option<Pod>
    ghost var began: Flags
    ghost var observed: set<int>

    ghost function Snapshot(work: Work): State
      reads this
    {
      State(versions, model, cache, queue, pvcs, pod, work, began, observed)
    }

    method Reconcile(outcome: nat -> Outcome)
      modifies this
      ensures Snapshot(Idle) == Through(old(Call(Snapshot(Idle), outcome(0))), outcome, 1)
    {
      if cache.None? || !outcome(0).Works? {
        return;
      }
      began := cache.value.status.flags;
      if cache.value.deleting {
        Remove(cache.value, outcome);
      } else {
        var obj, n := ReconcileObject(cache.value, outcome);
        UpdateStatus(obj, outcome, n);
      }
    }

    method UpdateStatus(obj: Model, outcome: nat -> Outcome, n: nat)
      modifies `versions, `model, `queue
      ensures Snapshot(Idle) == Through(old(Snapshot(Save(obj))), outcome, n)
    {
      if !outcome(n).Refused? && model.Some? && model.value.version == obj.version && model.value.status != obj.status {
        versions := versions + 1;
        model := Some(model.value.(version := versions, status := obj.status));
        queue := queue + [model];
      }
    }

    method UpdateFinalizers(fs: seq<Finalizer>)
      requires model.Some?
      modifies `versions, `model, `queue
      ensures Snapshot(Idle) == StoreFinalizers(old(Snapshot(Idle)), fs)
    {
      versions := versions + 1;
      model := Kept(model.value.(version := versions, finalizers := fs));
      queue := queue + [model];
    }

    method Remove(m: Model, outcome: nat -> Outcome)
      requires m.deleting
      modifies `versions, `model, `queue, `pod
      ensures Snapshot(Idle) == Through(old(Snapshot(Enter(m))), outcome, 1)
    {
      var n := 1;
      if m.source.Huggingface? {
        if !outcome(1).Refused? {
          pod := None;
        }
        if !outcome(1).Works? {
          return;
        }
        n := 2;
      }
      ghost var s := Snapshot(DropFinalizer(m));
      assert Through(old(Snapshot(Enter(m))), outcome, 1) == Through(s, outcome, n) == Call(s, outcome(n));
      var rest := RemoveFinalizer(m.finalizers, Ours);
      if !outcome(n).Refused? && model.Some? && model.value.version == m.version {
        UpdateFinalizers(rest);
      }
    }

    /** From the fetched object to the status that is saved. */
    method ReconcileObject(fetched: Model, outcome: nat -> Outcome) returns (obj: Model, n: nat)
      requires !fetched.deleting
      modifies this
      ensures Through(old(Snapshot(Enter(fetched))), outcome, 1) == Through(Snapshot(Save(obj)), outcome, n)
    {
      obj, n := fetched, 1;
      if obj.status.phase == PhaseReady || obj.status.phase == Failed {
        return;
      }
      var has := HasFinalizer(obj.finalizers, Ours);
      if !has {
        obj := obj.(finalizers := obj.finalizers + [Ours]);
        obj := AddOurFinalizer(obj, outcome);
        return obj, 2;
      }
      if obj.status.flags == NO_FLAGS {
        obj := obj.(status := obj.status.(flags := NEW_FLAGS));
      }
      if obj.pvc.None? {
        obj := SetFlag(SetPhase(obj, Failed), Prepared, false);
        return;
      }
      var claim := "";
      if !Holds(obj, Prepared) {
        obj := SetPhase(obj, StorageCreating);
        claim := if obj.pvc.value == "" then obj.name else obj.pvc.value;
        var created;
        obj, n, created := EnsureStorage(obj, outcome);
        if !created {
          return;
        }
      }
      obj, n := Load(obj, claim, outcome, n);
    }

    method AddOurFinalizer(m: Model, outcome: nat -> Outcome) returns (obj: Model)
      modifies `versions, `model, `queue
      ensures Through(old(Snapshot(AddFinalizer(m))), outcome, 1) == Through(Snapshot(Save(obj)), outcome, 2)
    {
      obj := m;
      if outcome(1).Refused? || model.None? || model.value.version != m.version {
        return;
      }
      UpdateFinalizers(m.finalizers);
      if outcome(1).Works? && model.Some? {
        obj := model.value;
      }
    }

    /** `created`: the claim is there and the reconcile goes on; otherwise it ends. */
    method EnsureStorage(m: Model, outcome: nat -> Outcome) returns (obj: Model, n: nat, created: bool)
      modifies `pvcs
      ensures Through(old(Snapshot(GetPvc(m))), outcome, 1)
              == Through(Snapshot(if created then LoadStage(obj, PvcName(m)) else Save(obj)), outcome, n)
      ensures created ==> obj == SetFlag(m, Prepared, true)
    {
      obj, n, created := m, 2, false;
      if !outcome(1).Works? {
        return;
      }
      if PvcName(m) !in pvcs {
        n := 3;
        ghost var s := Snapshot(CreatePvc(m));
        assert Through(old(Snapshot(GetPvc(m))), outcome, 1) == Through(s, outcome, 2);
        if !outcome(2).Refused? {
          pvcs := pvcs + {PvcName(m)};
        }
        if !outcome(2).Works? {
          obj := SetFlag(obj, Prepared, false);
          return;
        }
      }
      obj := SetFlag(obj, Prepared, true);
      created := true;
    }

    method Load(m: Model, claim: string, outcome: nat -> Outcome, k: nat) returns (obj: Model, n: nat)
      modifies `pod, `observed
      ensures Through(old(Snapshot(LoadStage(m, claim))), outcome, k) == Through(Snapshot(Save(obj)), outcome, n)
    {
      obj, n := m, k;
      if !Holds(obj, Loaded) {
        if obj.source.Huggingface? {
          var loaded;
          obj, n, loaded := Download(obj, claim, outcome, k);
          if !loaded {
            return;
          }
        } else if obj.source.NoSource? {
          obj := SetFlag(obj, Loaded, true);
        }
      }
      if !Holds(obj, Ready) {
        obj := SetFlag(SetPhase(obj, PhaseReady), Ready, true);
      }
    }

    /** `loaded`: the worker pod has succeeded and the reconcile goes on; otherwise it ends. */
    method Download(m: Model, claim: string, outcome: nat -> Outcome, k: nat) returns (obj: Model, n: nat, loaded: bool)
      modifies `pod, `observed
      ensures Through(old(Snapshot(GetPod(m, claim))), outcome, k)
              == Through(Snapshot(if loaded then ReadyStage(obj) else Save(obj)), outcome, n)
    {
      obj, n, loaded := m, k + 1, false;
      if !outcome(k).Works? {
        return;
      }
      if pod.None? {
        n := k + 2;
        ghost var s := Snapshot(CreatePod(m, claim));
        assert Through(old(Snapshot(GetPod(m, claim))), outcome, k) == Through(s, outcome, k + 1);
        if !outcome(k + 1).Refused? && claim != "" {
          pod := Some(Pod(Active, claim));
        }
        obj := SetFlag(SetPhase(obj, ModelLoading), Loaded, false);
        return;
      }
      match pod.value.phase {
        case PodFailed =>
          obj := SetFlag(SetPhase(obj, Failed), Loaded, false);
        case PodSucceeded =>
          observed := observed + {m.uid};
          obj := SetFlag(obj, Loaded, true);
          loaded := true;
        case Active =>
      }
    }
  }
}
