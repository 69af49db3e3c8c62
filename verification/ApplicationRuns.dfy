/** What holds in every run of the application controller. */
module ApplicationRuns {
  import opened Wrappers
  import opened Objects
  import opened Application

  ghost predicate Follows(s: State, steps: seq<Step>)
    decreases |steps|
  {
    steps == [] || (Enabled(s, steps[0]) && Follows(Do(s, steps[0]), steps[1..]))
  }

  ghost function After(s: State, steps: seq<Step>): State
    requires Follows(s, steps)
    decreases |steps|
  {
    if steps == [] then s else After(Do(s, steps[0]), steps[1..])
  }

  lemma {:induction false} RunKeeps(s: State, steps: seq<Step>)
    requires Inv(s) && Follows(s, steps)
    ensures Inv(After(s, steps))
    decreases |steps|
  {
    if steps != [] {
      StepKeeps(s, steps[0]);
      RunKeeps(Do(s, steps[0]), steps[1..]);
    }
  }

  /** A LeaderWorkerSet or Service exists only while the application exists with the controller's
      finalizer, so nothing is left when the object is gone. */
  lemma NoOrphans(s: State, steps: seq<Step>)
    requires Initial(s) && Follows(s, steps)
    ensures var t := After(s, steps);
            && (t.lws || t.service ==> t.app.Some? && Ours in t.app.value.finalizers)
            && (t.app.None? ==> !t.lws && !t.service)
  {
    RunKeeps(s, steps);
  }

  /** The flags are what the list says, and the list repeats no type. */
  predicate Mirrors(st: Status) { FlagsOf(st.conds) == st.flags && NoRepeats(st.conds) }

  ghost predicate Mirrored(s: State) { AllGood(s, st => Mirrors(st)) }

  /** `good` holds of the status in the store and of the one in the controller's copy. */
  ghost predicate AllGood(s: State, good: Status -> bool) {
    && (s.app.Some? ==> good(s.app.value.status))
    && (forall a :: Visible(s, a) ==> good(a.status))
    && (!s.work.Idle? ==> good(s.work.obj.status))
  }

  /** The three ways in which the controller changes a status keep `good`. */
  ghost predicate Closed(good: Status -> bool) {
    && (forall st, k, b {:trigger good(Flagged(st, k, b))} :: good(st) ==> good(Flagged(st, k, b)))
    && (forall st, ph {:trigger good(Phased(st, ph))} :: good(st) ==> good(Phased(st, ph)))
    && (forall st {:trigger good(Begun(st))} :: good(st) ==> good(Begun(st)))
  }

  lemma EnterGood(a: App, good: Status -> bool)
    requires Closed(good) && good(a.status)
    ensures !Enter(a).Idle? && good(Enter(a).obj.status)
  {
    var st := Begun(a.status);
    assert good(st);
    assert good(Phased(st, Failed)) && good(Phased(st, Checking));
  }

  lemma ModelStageGood(a: App, good: Status -> bool, m: ModelView)
    requires Closed(good) && good(a.status)
    ensures !ModelStage(a, m).Idle? && good(ModelStage(a, m).obj.status)
  {
    assert good(Phased(a.status, Failed)) && good(Phased(a.status, Loading)) && good(Phased(a.status, Creating));
    var loaded := Flagged(Phased(a.status, Loading), Loaded, true);
    assert good(loaded);
    assert good(Phased(loaded, Creating));
  }

  lemma LwsGood(s: State, good: Status -> bool, m: ModelView, o: Outcome, kept: bool)
    requires (s.work.GetLws? || s.work.CreateLws?) && Closed(good) && good(s.work.obj.status)
    ensures var s' := Call(s, m, o, kept); !s'.work.Idle? && good(s'.work.obj.status)
  {
    var st := s.work.obj.status;
    assert good(Phased(st, Failed)) && good(Flagged(st, Ready, false));
    assert good(Flagged(Phased(st, Failed), Prepared, false));
  }

  lemma ServiceGood(s: State, good: Status -> bool, m: ModelView, o: Outcome, kept: bool)
    requires (s.work.GetService? || s.work.CreateService? || s.work.Sync?) && Closed(good) && good(s.work.obj.status)
    ensures var s' := Call(s, m, o, kept); !s'.work.Idle? && good(s'.work.obj.status)
  {
    var st := Phased(s.work.obj.status, Running);
    assert good(st);
    assert good(Flagged(st, Ready, true)) && good(Flagged(st, Ready, false));
  }

  /** The copy after a call that belongs to a reconcile past its finalizer. */
  lemma ForwardGood(s: State, good: Status -> bool, m: ModelView, o: Outcome, kept: bool)
    requires PastFinalizer(s.work) && Closed(good) && good(s.work.obj.status)
    ensures var s' := Call(s, m, o, kept); !s'.work.Idle? && good(s'.work.obj.status)
  {
    if s.work.GetModel? {
      ModelStageGood(s.work.obj, good, m);
    } else if s.work.GetLws? || s.work.CreateLws? {
      LwsGood(s, good, m, o, kept);
    } else {
      ServiceGood(s, good, m, o, kept);
    }
  }

  /** A call that stores nothing, or one more version with a good status. */
  lemma StoreGood(s: State, s': State, good: Status -> bool)
    requires AllGood(s, good) && (!s'.work.Idle? ==> good(s'.work.obj.status))
    requires s'.cache == s.cache
    requires (s'.app == s.app && s'.queue == s.queue)
             || (s'.queue == s.queue + [s'.app] && (s'.app.Some? ==> good(s'.app.value.status)))
    ensures AllGood(s', good)
  {
    forall x | Visible(s', x) ensures good(x.status) {
      assert Visible(s, x) || s'.app == Some(x);
    }
  }

  lemma WriteGood(s: State, good: Status -> bool, m: ModelView, o: Outcome, kept: bool)
    requires AllGood(s, good) && !s.work.Idle? && !PastFinalizer(s.work)
    ensures AllGood(Call(s, m, o, kept), good)
  {
    StoreGood(s, Call(s, m, o, kept), good);
  }

  lemma CallGood(s: State, good: Status -> bool, m: ModelView, o: Outcome, kept: bool)
    requires Closed(good) && AllGood(s, good)
    ensures AllGood(Call(s, m, o, kept), good)
  {
    var s' := Call(s, m, o, kept);
    if s.work.Idle? {
      if s.cache.Some? {
        assert Visible(s, s.cache.value);
        EnterGood(s.cache.value, good);
      }
      StoreGood(s, s', good);
    } else if PastFinalizer(s.work) {
      ForwardGood(s, good, m, o, kept);
      StoreGood(s, s', good);
    } else {
      WriteGood(s, good, m, o, kept);
    }
  }

  lemma MirrorsClosed()
    ensures Closed(st => Mirrors(st))
  {
    forall st: Status, k, b | Mirrors(st) ensures Mirrors(Flagged(st, k, b)) {
      FlagsSimulateLists(st.conds, k, b);
      NoRepeatsKept(st.conds, k, b);
    }
    forall st: Status | Mirrors(st) ensures Mirrors(Begun(st)) {
      FlagsSimulateLists(st.conds, Ready, false);
      NoRepeatsKept(st.conds, Ready, false);
    }
  }

  lemma CallMirrors(s: State, m: ModelView, o: Outcome, kept: bool)
    requires Mirrored(s)
    ensures Mirrored(Call(s, m, o, kept))
  {
    MirrorsClosed();
    CallGood(s, st => Mirrors(st), m, o, kept);
  }

  lemma StepMirrors(s: State, step: Step)
    requires Mirrored(s) && Enabled(s, step)
    ensures Mirrored(Do(s, step))
  {
    var s' := Do(s, step);
    if step.Controller? {
      CallMirrors(s, step.model, step.outcome, step.kept);
    } else if step.Deliver? {
      forall x | Visible(s', x) ensures Visible(s, x) { }
    } else {
      assert Mirrors(Status(NoPhase, NO_FLAGS, [])) by { FlagsOfEmptyIff([]); }
      StoreGood(s, s', st => Mirrors(st));
    }
  }

  lemma {:induction false} RunMirrors(s: State, steps: seq<Step>)
    requires Mirrored(s) && Follows(s, steps)
    ensures Mirrored(After(s, steps))
    decreases |steps|
  {
    if steps != [] {
      StepMirrors(s, steps[0]);
      RunMirrors(Do(s, steps[0]), steps[1..]);
    }
  }

  /** In every run the condition list is empty and the phase unset, or it holds exactly one
      condition of each type; ready implies loaded implies checked unless the application failed; and
      generating the LeaderWorkerSet never errs. */
  lemma ConditionsInOrder(s: State, steps: seq<Step>)
    requires Initial(s) && Follows(s, steps) && After(s, steps).app.Some?
    ensures var st := After(s, steps).app.value.status;
            && ((st.conds == [] && st.phase == NoPhase)
                || (|st.conds| == 3 && NoRepeats(st.conds) && forall k: Kind :: Find(st.conds, k) < 3))
            && (st.phase != Failed && IsTrue(st.conds, Ready) ==> IsTrue(st.conds, Loaded))
            && (st.phase != Failed && IsTrue(st.conds, Loaded) ==> IsTrue(st.conds, Prepared))
    ensures var w := After(s, steps).work; w.GetLws? ==> GenerateStage(w.obj) == CreateLws(w.obj)
  {
    RunKeeps(s, steps);
    RunMirrors(s, steps);
    var st := After(s, steps).app.value.status;
    FlagsOfEmptyIff(st.conds);
    if AllSet(st.flags) { OnePerType(st.conds); }
    forall k ensures IsTrue(st.conds, k) == On(st.flags, k) {
      FlagsSimulateLists(st.conds, k, false);
    }
  }

  lemma FailedStep(s: State, step: Step)
    requires Inv(s) && s.app.Some? && s.app.value.status.phase == Failed && Enabled(s, step)
    ensures var s' := Do(s, step); s'.app.Some? ==> s'.app.value.status.phase == Failed
  {
  }

  /** A failed application stays failed until its object is gone. */
  lemma {:induction false} FailedAbsorbs(s: State, steps: seq<Step>)
    requires Inv(s) && s.app.Some? && s.app.value.status.phase == Failed
    requires Follows(s, steps) && forall i :: 0 <= i < |steps| ==> !steps[i].CreateApp?
    ensures var t := After(s, steps); t.app.None? || t.app.value.status.phase == Failed
    decreases |steps|
  {
    if steps != [] {
      var s' := Do(s, steps[0]);
      StepKeeps(s, steps[0]);
      FailedStep(s, steps[0]);
      if s'.app.Some? {
        FailedAbsorbs(s', steps[1..]);
      } else {
        StaysGone(s', steps[1..]);
      }
    }
  }

  lemma {:induction false} StaysGone(s: State, steps: seq<Step>)
    requires s.app.None?
    requires Follows(s, steps) && forall i :: 0 <= i < |steps| ==> !steps[i].CreateApp?
    ensures After(s, steps).app.None?
    decreases |steps|
  {
    if steps != [] { StaysGone(Do(s, steps[0]), steps[1..]); }
  }
}
