/** The two controllers together: an application's controller reads the informer's copy of the model
    that the model controller and its worker pod bring along, in any interleaving of their API
    calls. */
module Lifecycle {
  import opened Wrappers
  import opened Objects
  import A = Application
  import M = ModelController

  /** `seen` records that a working read, since the application object was created, has found the
      model ready. */
  datatype State = State(app: A.State, model: M.State, seen: bool)

  datatype Step = AppStep(a: A.Step) | ModelStep(m: M.Step)

  function View(m: Option<M.Model>): A.ModelView {
    if m.None? then A.Missing
    else if m.value.status.phase == M.Failed then A.ModelFailed
    else if m.value.status.phase == M.PhaseReady then A.ModelReady
    else A.ModelOther
  }

  /** The application controller sees the model as the informer has it at the time of the call. */
  predicate Enabled(s: State, step: Step) {
    match step
    case AppStep(a) => A.Enabled(s.app, a) && (a.Controller? ==> a.model == View(s.model.cache))
    case ModelStep(m) => M.Enabled(s.model, m)
  }

  /** This step is a read of the model by the application controller that finds it ready. */
  predicate ReadsReady(s: State, step: Step) {
    step.AppStep? && step.a.Controller? && step.a.outcome.Works? && s.app.work.GetModel? && View(s.model.cache).ModelReady?
  }

  predicate CreatesApp(step: Step) { step.AppStep? && step.a.CreateApp? }

  /** This step is a read of the worker pod, in a reconcile of model `uid`, that finds it succeeded. */
  predicate FindsSucceeded(s: State, step: Step, uid: int) {
    && step.ModelStep? && step.m.Controller? && step.m.outcome.Works? && s.model.work.GetPod? && s.model.work.obj.uid == uid
    && s.model.pod.Some? && s.model.pod.value.phase == M.PodSucceeded
  }

  function Do(s: State, step: Step): State
    requires Enabled(s, step)
  {
    match step
    case AppStep(a) => s.(app := A.Do(s.app, a), seen := !a.CreateApp? && (s.seen || ReadsReady(s, step)))
    case ModelStep(m) => s.(model := M.Do(s.model, m))
  }

  ghost predicate Run(states: seq<State>, steps: seq<Step>) {
    && |states| == |steps| + 1
    && A.Initial(states[0].app) && M.Initial(states[0].model) && !states[0].seen
    && forall i :: 0 <= i < |steps| ==> Enabled(states[i], steps[i]) && states[i + 1] == Do(states[i], steps[i])
  }

  // ---------------------------------------------------------------------------------------
  // Nothing is marked loaded before a read found the model ready

  /** The application is marked loaded where it counts: in the store, in a copy from which a reconcile
      would go on, or in a reconcile that goes on or could still store it. */
  ghost predicate MarkedLoaded(s: A.State) {
    || (s.app.Some? && A.Holds(s.app.value, Loaded))
    || (exists a :: A.Visible(s, a) && !a.deleting && Ours in a.finalizers && A.Holds(a, Loaded))
    || (!s.work.Idle? && (A.PastFinalizer(s.work) || A.Current(s, s.work.obj)) && A.Holds(s.work.obj, Loaded))
  }

  lemma SameCopies(s: A.State, s': A.State)
    requires s'.cache == s.cache && s'.queue == s.queue
    ensures forall a :: A.Visible(s', a) ==> A.Visible(s, a)
  {
  }

  lemma ForwardLoads(s: A.State, m: A.ModelView, o: Outcome, kept: bool)
    requires A.Inv(s) && A.PastFinalizer(s.work) && !MarkedLoaded(s) && MarkedLoaded(A.Call(s, m, o, kept))
    ensures s.work.GetModel? && o.Works? && m.ModelReady?
  {
    var s' := A.Call(s, m, o, kept);
    NoNewLoaded(s, m, o, kept);
    SameCopies(s, s');
  }

  /** Only a working read that finds the model ready marks a copy loaded. */
  lemma NoNewLoaded(s: A.State, m: A.ModelView, o: Outcome, kept: bool)
    requires A.PastFinalizer(s.work) && !A.Holds(s.work.obj, Loaded)
    ensures var s' := A.Call(s, m, o, kept);
            && s'.app == s.app && s'.cache == s.cache && s'.queue == s.queue && !s'.work.Idle?
            && (A.Holds(s'.work.obj, Loaded) ==> s.work.GetModel? && o.Works? && m.ModelReady?)
  {
  }

  lemma EnterLoads(s: A.State, m: A.ModelView, o: Outcome, kept: bool)
    requires A.Inv(s) && s.work.Idle? && !MarkedLoaded(s)
    ensures !MarkedLoaded(A.Call(s, m, o, kept))
  {
    var s' := A.Call(s, m, o, kept);
    SameCopies(s, s');
    if s.cache.Some? {
      assert A.Visible(s, s.cache.value);
      A.EnterOk(s.cache.value);
      EnterMarksNothing(s.cache.value);
      if A.Current(s, s.cache.value) { A.CacheIsCurrent(s); }
    }
  }

  lemma EnterMarksNothing(a: A.App)
    ensures !A.Enter(a).Idle? && (A.Holds(A.Enter(a).obj, Loaded) ==> A.Holds(a, Loaded))
    ensures A.PastFinalizer(A.Enter(a)) ==> !a.deleting && Ours in a.finalizers
  {
  }

  /** A step after which every copy is an old one or the stored object. */
  lemma NothingNew(s: A.State, s': A.State)
    requires !MarkedLoaded(s) && s'.cache == s.cache && (s'.queue == s.queue || s'.queue == s.queue + [s'.app])
    requires s'.app.Some? ==> !A.Holds(s'.app.value, Loaded)
    requires s'.work.Idle? || !A.Holds(s'.work.obj, Loaded) || (!A.PastFinalizer(s'.work) && !A.Current(s', s'.work.obj))
    ensures !MarkedLoaded(s')
  {
    forall a | A.Visible(s', a) ensures A.Visible(s, a) || s'.app == Some(a) { }
  }

  lemma AddFinalizerLoads(s: A.State, m: A.ModelView, o: Outcome, kept: bool)
    requires A.Inv(s) && s.work.AddFinalizer? && !MarkedLoaded(s)
    ensures !MarkedLoaded(A.Call(s, m, o, kept))
  {
    NothingNew(s, A.Call(s, m, o, kept));
  }

  lemma SaveLoads(s: A.State, m: A.ModelView, o: Outcome, kept: bool)
    requires A.Inv(s) && s.work.Save? && !MarkedLoaded(s)
    ensures !MarkedLoaded(A.Call(s, m, o, kept))
  {
    NothingNew(s, A.Call(s, m, o, kept));
  }

  lemma RemovalLoads(s: A.State, m: A.ModelView, o: Outcome, kept: bool)
    requires A.Inv(s) && A.Removing(s.work) && !MarkedLoaded(s)
    ensures !MarkedLoaded(A.Call(s, m, o, kept))
  {
    NothingNew(s, A.Call(s, m, o, kept));
  }

  lemma UserLoads(s: A.State, step: A.Step)
    requires A.Inv(s) && A.Enabled(s, step) && !step.Controller? && !step.CreateApp? && !MarkedLoaded(s)
    ensures !MarkedLoaded(A.Do(s, step))
  {
    var s' := A.Do(s, step);
    forall a | A.Visible(s', a) ensures A.Visible(s, a) || s'.app == Some(a) { }
  }

  /** A new object is not marked loaded, and nothing left over from an earlier one counts. */
  lemma CreateLoads(s: A.State, step: A.Step)
    requires A.Inv(s) && A.Enabled(s, step) && step.CreateApp?
    ensures !MarkedLoaded(A.Do(s, step))
  {
    var s' := A.Do(s, step);
    forall a | A.Visible(s', a) ensures A.Visible(s, a) || s'.app == Some(a) { }
  }

  lemma SeenKept(s: State, step: Step)
    requires A.Inv(s.app) && (MarkedLoaded(s.app) ==> s.seen) && Enabled(s, step)
    ensures MarkedLoaded(Do(s, step).app) ==> Do(s, step).seen
  {
    if step.AppStep? {
      if step.a.CreateApp? {
        CreateLoads(s.app, step.a);
      } else if !MarkedLoaded(s.app) {
        if !step.a.Controller? {
          UserLoads(s.app, step.a);
        } else if s.app.work.Idle? {
          EnterLoads(s.app, step.a.model, step.a.outcome, step.a.kept);
        } else if A.PastFinalizer(s.app.work) {
          if MarkedLoaded(Do(s, step).app) { ForwardLoads(s.app, step.a.model, step.a.outcome, step.a.kept); }
        } else if s.app.work.AddFinalizer? {
          AddFinalizerLoads(s.app, step.a.model, step.a.outcome, step.a.kept);
        } else if s.app.work.Save? {
          SaveLoads(s.app, step.a.model, step.a.outcome, step.a.kept);
        } else {
          RemovalLoads(s.app, step.a.model, step.a.outcome, step.a.kept);
        }
      }
    }
  }

  lemma {:induction false} RunKeeps(states: seq<State>, steps: seq<Step>, k: nat)
    requires Run(states, steps) && k < |states|
    ensures A.Inv(states[k].app) && M.Inv(states[k].model) && (MarkedLoaded(states[k].app) ==> states[k].seen)
  {
    if k > 0 {
      RunKeeps(states, steps, k - 1);
      SeenKept(states[k - 1], steps[k - 1]);
      if steps[k - 1].AppStep? {
        A.StepKeeps(states[k - 1].app, steps[k - 1].a);
      } else {
        M.StepKeeps(states[k - 1].model, steps[k - 1].m);
      }
    }
  }

  // ---------------------------------------------------------------------------------------
  // What was recorded did happen

  /** The read that found the model ready, with no application created since. */
  lemma {:induction false} SeenHasRead(states: seq<State>, steps: seq<Step>, k: nat)
    returns (j: nat)
    requires Run(states, steps) && k < |states| && states[k].seen
    ensures j < k && ReadsReady(states[j], steps[j])
    ensures forall i :: j < i < k ==> !CreatesApp(steps[i])
  {
    if states[k - 1].seen {
      j := SeenHasRead(states, steps, k - 1);
    } else {
      j := k - 1;
    }
  }

  lemma ObservedStep(s: State, step: Step, uid: int)
    requires Enabled(s, step) && uid in Do(s, step).model.observed
    ensures uid in s.model.observed || FindsSucceeded(s, step, uid)
  {
  }

  lemma {:induction false} ObservedHasRead(states: seq<State>, steps: seq<Step>, k: nat, uid: int)
    returns (i: nat)
    requires Run(states, steps) && k < |states| && uid in states[k].model.observed
    ensures i < k && FindsSucceeded(states[i], steps[i], uid)
  {
    ObservedStep(states[k - 1], steps[k - 1], uid);
    if uid in states[k - 1].model.observed {
      i := ObservedHasRead(states, steps, k - 1, uid);
    } else {
      i := k - 1;
    }
  }

  /** What a step does to the informer: it sees one more version, or has one more coming. */
  lemma CopiesMove(s: M.State, step: M.Step)
    requires M.Enabled(s, step)
    ensures var s' := M.Do(s, step);
            || (s'.cache == s.cache && s'.queue == s.queue)
            || (s'.cache == s.cache && s'.queue == s.queue + [s'.model])
            || (s.queue != [] && s'.cache == s.queue[0] && s'.queue == s.queue[1..])
  {
  }

  /** The stored model was `m` in some state up to `k`. */
  ghost predicate StoredBefore(states: seq<State>, k: nat, m: Option<M.Model>)
    requires k < |states|
  {
    exists i :: 0 <= i <= k && states[i].model.model == m
  }

  lemma {:induction false} CopiesWereStored(states: seq<State>, steps: seq<Step>, k: nat, n: nat)
    requires Run(states, steps) && k < |states| && n <= |states[k].model.queue|
    ensures StoredBefore(states, k, M.Copy(states[k].model, n))
    decreases k
  {
    if k == 0 {
      assert states[0].model.model == M.Copy(states[0].model, n);
    } else {
      var s, s' := states[k - 1].model, states[k].model;
      if steps[k - 1].ModelStep? { CopiesMove(s, steps[k - 1].m); }
      var n' := if s'.cache == s.cache && s'.queue == s.queue then n
                else if s'.cache == s.cache && s'.queue == s.queue + [s'.model] then n
                else n + 1;
      if n' <= |s.queue| && M.Copy(s', n) == M.Copy(s, n') {
        CopiesWereStored(states, steps, k - 1, n');
      } else {
        assert states[k].model.model == M.Copy(s', n);
      }
    }
  }

  /** A worker pod of model `uid` was found succeeded before step `j`. */
  ghost predicate SucceededBefore(states: seq<State>, steps: seq<Step>, j: nat, uid: int)
    requires Run(states, steps) && j <= |steps|
  {
    exists i :: 0 <= i < j && FindsSucceeded(states[i], steps[i], uid)
  }

  /** Step `j` reads a model that was stored as ready and, if its source is Huggingface, had its
      worker pod found succeeded before that. */
  ghost predicate Justifies(states: seq<State>, steps: seq<Step>, j: nat)
    requires Run(states, steps) && j < |steps|
  {
    && ReadsReady(states[j], steps[j])
    && StoredBefore(states, j, states[j].model.cache)
    && (states[j].model.cache.value.source.Huggingface? ==>
          SucceededBefore(states, steps, j, states[j].model.cache.value.uid))
  }

  lemma ReadIsJustified(states: seq<State>, steps: seq<Step>, j: nat)
    requires Run(states, steps) && j < |steps| && ReadsReady(states[j], steps[j])
    ensures Justifies(states, steps, j)
  {
    RunKeeps(states, steps, j);
    CopiesWereStored(states, steps, j, 0);
    var s := states[j].model;
    assert M.Copy(s, 0) == s.cache;
    if s.cache.value.source.Huggingface? {
      var i := ObservedHasRead(states, steps, j, s.cache.value.uid);
    }
  }

  /** Whenever a step creates a LeaderWorkerSet, an earlier one, since the application object was
      created, read a model that was ready by right. */
  lemma CreatedOnlyAfterReady(states: seq<State>, steps: seq<Step>, k: nat)
    requires Run(states, steps) && k < |steps|
    requires states[k + 1].app.lwsCreated > states[k].app.lwsCreated
    ensures exists j :: 0 <= j < k && Justifies(states, steps, j) && forall i :: j < i < k ==> !CreatesApp(steps[i])
  {
    RunKeeps(states, steps, k);
    assert states[k].app.work.CreateLws?;
    var j := SeenHasRead(states, steps, k);
    ReadIsJustified(states, steps, j);
  }
}
