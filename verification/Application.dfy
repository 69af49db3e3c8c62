/** The application controller, one API call at a time. Between two calls anything may happen: the
    user deletes the object, other controllers touch it, the LeaderWorkerSet or the Service
    vanish. Every call may fail, with or without having taken effect, and a reconcile starts from the
    informer's copy of the object, which may be old. */
module Application {
  import opened Wrappers
  import opened Objects

  datatype Phase = NoPhase | Pending | Checking | Loading | Creating | Running | Failed

  /** `Unset` is the empty string, which stands for vLLM. */
  datatype Runtime = Unset | Vllm | Sglang | Dynamo | Unknown(name: string)

  /** `conds` is the condition list, `flags` what it says per type; see `Mirrors`. */
  datatype Status = Status(phase: Phase, flags: Flags, conds: seq<Cond>)

  /** `volumesOk`: no volume or mount uses the reserved model volume. */
  datatype App = App(version: int, deleting: bool, finalizers: seq<Finalizer>, runtime: Runtime, volumesOk: bool, status: Status)

  /** What the controller sees of the referenced model. */
  datatype ModelView = Missing | ModelFailed | ModelReady | ModelOther

  /** Where a reconcile is: the next API call, and the controller's copy of the object. */
  datatype Work =
    | Idle
    | AddFinalizer(obj: App)
    | GetModel(obj: App)
    | GetLws(obj: App)
    | CreateLws(obj: App)
    | GetService(obj: App)
    | CreateService(obj: App)
    | Sync(obj: App)
    | Save(obj: App)
    | DeleteService(obj: App)
    | DeleteLws(obj: App)
    | DropFinalizer(obj: App)

  /** `app` is the stored object, `cache` the informer's copy of it, and `queue` the later versions that
      the informer has still to see, oldest first; `lwsCreated` counts the LeaderWorkerSets created so
      far. */
  datatype State = State(
    versions: int, app: Option<App>, cache: Option<App>, queue: seq<Option<App>>,
    lws: bool, service: bool, work: Work, lwsCreated: nat)

  function Effective(runtime: Runtime): Runtime { if runtime.Unset? then Vllm else runtime }

  predicate Supported(runtime: Runtime) { runtime.Vllm? || runtime.Sglang? || runtime.Dynamo? }

  function Phased(st: Status, p: Phase): Status { st.(phase := p) }

  function Flagged(st: Status, k: Kind, b: bool): Status { st.(flags := Put(st.flags, k, b), conds := Update(st.conds, k, b)) }

  /** The status once its phase and conditions have their defaults. */
  function Begun(st: Status): Status {
    Status(if st.phase == NoPhase then Pending else st.phase, Begin(st.flags), Initialize(st.conds))
  }

  function SetPhase(a: App, p: Phase): App { a.(status := Phased(a.status, p)) }

  function SetFlag(a: App, k: Kind, b: bool): App { a.(status := Flagged(a.status, k, b)) }

  predicate Holds(a: App, k: Kind) { On(a.status.flags, k) }

  // ---------------------------------------------------------------------------------------
  // The controller between API calls

  /** The copy once phase, conditions and runtime have their defaults. */
  function Defaulted(a: App): App { a.(status := Begun(a.status), runtime := Effective(a.runtime)) }

  /** From the fetched object to the first call. */
  function Enter(a: App): Work {
    if a.deleting then DeleteService(a)
    else if a.status.phase == Failed then Save(a)
    else
      var d := Defaulted(a);
      if Ours !in d.finalizers then AddFinalizer(d.(finalizers := WithFinalizer(d.finalizers, Ours)))
      else PrecheckStage(d)
  }

  function PrecheckStage(a: App): Work {
    if Holds(a, Prepared) then GetModel(a)
    else if !Supported(a.runtime) || !a.volumesOk then Save(SetFlag(SetPhase(a, Failed), Prepared, false))
    else GetModel(SetFlag(SetPhase(a, Checking), Prepared, true))
  }

  function ModelStage(a: App, m: ModelView): Work {
    if m == Missing then Save(SetFlag(SetPhase(a, Failed), Loaded, false))
    else if Holds(a, Loaded) then ReadyStage(a)
    else match m
      case ModelFailed => Save(SetFlag(SetPhase(a, Failed), Loaded, false))
      case ModelReady => ReadyStage(SetFlag(SetPhase(a, Loading), Loaded, true))
      case _ => Save(SetPhase(a, Loading))
  }

  function ReadyStage(a: App): Work {
    if Holds(a, Ready) then Sync(a) else GetLws(SetPhase(a, Creating))
  }

  /** Generating the LeaderWorkerSet fails only for an unsupported runtime. */
  function GenerateStage(a: App): Work {
    if Supported(a.runtime) then CreateLws(a) else Save(SetFlag(SetPhase(a, Failed), Prepared, false))
  }

  function MarkReady(a: App): Work { Sync(SetFlag(SetPhase(a, Running), Ready, true)) }

  // ---------------------------------------------------------------------------------------
  // One API call

  /** A write to the object goes through only on the version it was read at. */
  predicate Current(s: State, obj: App) { s.app.Some? && s.app.value.version == obj.version }

  /** An object that is being deleted and has no finalizer left disappears. */
  function Kept(a: App): Option<App> { if a.deleting && a.finalizers == [] then None else Some(a) }

  /** The next version of the object is `a`, or nothing. */
  function Write(s: State, a: Option<App>): State {
    s.(versions := s.versions + 1, app := a, queue := s.queue + [a])
  }

  /** Storing the object with all but its status taken from `obj`. */
  function StoreObject(s: State, obj: App): State
    requires s.app.Some?
  {
    Write(s, Kept(s.app.value.(version := s.versions + 1, finalizers := obj.finalizers, runtime := obj.runtime)))
  }

  function StoreStatus(s: State, obj: App): State
    requires s.app.Some?
  {
    if s.app.value.status == obj.status then s
    else Write(s, Some(s.app.value.(version := s.versions + 1, status := obj.status)))
  }

  /** The copy after it was stored: the server's, with the status either the server's or still the
      unsaved one. */
  function Refreshed(stored: Option<App>, obj: App, kept: bool): App {
    if stored.None? then obj else if kept then stored.value.(status := obj.status) else stored.value
  }

  /** The next call of the controller. `model` is what a read of the model returns now. */
  function Call(s: State, model: ModelView, o: Outcome, kept: bool): State {
    match s.work
    case Idle => if s.cache.None? || !o.Works? then s else s.(work := Enter(s.cache.value))
    case AddFinalizer(a) =>
      if o.Refused? || !Current(s, a) then s.(work := Save(a))
      else
        var s' := StoreObject(s, a);
        s'.(work := Save(if o.Lost? then a else Refreshed(s'.app, a, kept)))
    case GetModel(a) => s.(work := if o.Works? then ModelStage(a, model) else Save(a))
    case GetLws(a) => s.(work := if !o.Works? then Save(a) else if s.lws then GetService(a) else GenerateStage(a))
    case CreateLws(a) =>
      var s' := if o.Refused? || s.lws then s else s.(lws := true, lwsCreated := s.lwsCreated + 1);
      s'.(work := if o.Works? then GetService(a) else Save(SetFlag(a, Ready, false)))
    case GetService(a) => s.(work := if !o.Works? then Save(a) else if s.service then MarkReady(a) else CreateService(a))
    case CreateService(a) =>
      (if o.Refused? then s else s.(service := true)).(work := if o.Works? then MarkReady(a) else Save(a))
    case Sync(a) => s.(work := Save(if !o.Works? || s.lws then a else SetFlag(SetPhase(a, Running), Ready, false)))
    case Save(a) => (if o.Refused? || !Current(s, a) then s else StoreStatus(s, a)).(work := Idle)
    case DeleteService(a) => (if o.Refused? then s else s.(service := false)).(work := if o.Works? then DeleteLws(a) else Idle)
    case DeleteLws(a) => (if o.Refused? then s else s.(lws := false)).(work := if o.Works? then DropFinalizer(a) else Idle)
    case DropFinalizer(a) =>
      (if o.Refused? || !Current(s, a) then s
       else StoreObject(s, a.(finalizers := WithoutFinalizer(a.finalizers, Ours)))).(work := Idle)
  }

  datatype Step =
    | Controller(model: ModelView, outcome: Outcome, kept: bool)
    | CreateApp(runtime: Runtime, volumesOk: bool)
    | DeleteApp
    | TouchFinalizers(others: seq<Finalizer>)
    | LoseLws
    | LoseService
    | Deliver

  predicate Enabled(s: State, step: Step) {
    match step
    case CreateApp(_, _) => s.app.None?
    case DeleteApp => s.app.Some?
    case TouchFinalizers(fs) => s.app.Some? && Ours !in fs
    case Deliver => s.queue != []
    case _ => true
  }

  /** Other parties may add and remove finalizers, but not this controller's: the new list is `fs`,
      plus this controller's if it was there. */
  function Do(s: State, step: Step): State
    requires Enabled(s, step)
  {
    match step
    case Controller(m, o, kept) => Call(s, m, o, kept)
    case CreateApp(runtime, volumesOk) =>
      Write(s, Some(App(s.versions + 1, false, [], runtime, volumesOk, Status(NoPhase, NO_FLAGS, []))))
    case DeleteApp => Write(s, Kept(s.app.value.(version := s.versions + 1, deleting := true)))
    case TouchFinalizers(fs) =>
      var fs' := if Ours in s.app.value.finalizers then fs + [Ours] else fs;
      Write(s, Kept(s.app.value.(version := s.versions + 1, finalizers := fs')))
    case LoseLws => s.(lws := false)
    case LoseService => s.(service := false)
    case Deliver => s.(cache := s.queue[0], queue := s.queue[1..])
  }

  // ---------------------------------------------------------------------------------------
  // The invariant

  /** Unless failed, ready implies loaded implies checked, and ready means running. */
  predicate InOrder(a: App) {
    a.status.phase != Failed ==>
      && (Holds(a, Ready) ==> Holds(a, Loaded) && a.status.phase == Running)
      && (Holds(a, Loaded) ==> Holds(a, Prepared))
  }

  predicate ObjectOk(a: App) {
    && (AllSet(a.status.flags) || (a.status.flags == NO_FLAGS && a.status.phase == NoPhase))
    && InOrder(a)
    && (Holds(a, Prepared) ==> Supported(Effective(a.runtime)) && a.volumesOk)
  }

  /** The calls that belong to a reconcile past its finalizer. */
  predicate PastFinalizer(w: Work) {
    w.GetModel? || w.GetLws? || w.CreateLws? || w.GetService? || w.CreateService? || w.Sync?
  }

  predicate Removing(w: Work) { w.DeleteService? || w.DeleteLws? || w.DropFinalizer? }

  predicate WorkOk(w: Work) {
    match w
    case Idle => true
    case AddFinalizer(a) => ObjectOk(a) && AllSet(a.status.flags) && a.status.phase != Failed && Ours in a.finalizers
    case GetModel(a) => ObjectOk(a) && !a.runtime.Unset? && Holds(a, Prepared) && a.status.phase != Failed
    case Save(a) => ObjectOk(a)
    case Sync(a) => ObjectOk(a) && Holds(a, Ready) && a.status.phase == Running
    case DeleteService(_) | DeleteLws(_) | DropFinalizer(_) => true
    case _ => ObjectOk(w.obj) && !w.obj.runtime.Unset? && Holds(w.obj, Loaded) && !Holds(w.obj, Ready) && w.obj.status.phase == Creating
  }

  /** A copy at the current version is the stored object but for status, runtime default and the
      finalizer being added. */
  predicate CopyOf(obj: App, a: App) {
    && obj.deleting == a.deleting && obj.volumesOk == a.volumesOk && Effective(obj.runtime) == Effective(a.runtime)
    && (a.status.phase == Failed ==> obj.status.phase == Failed)
    && (a.deleting ==> obj.finalizers == a.finalizers)
  }

  predicate Guarded(s: State) { s.app.Some? && Ours in s.app.value.finalizers }

  /** What holds of the stored object, the reconcile in progress and the created objects. */
  predicate Core(s: State) {
    && (s.app.Some? ==> ObjectOk(s.app.value) && s.app.value.version == s.versions)
    && WorkOk(s.work)
    && (!s.work.Idle? ==> s.work.obj.version <= s.versions && (Current(s, s.work.obj) ==> CopyOf(s.work.obj, s.app.value)))
    && (Removing(s.work) <==> !s.work.Idle? && s.work.obj.deleting)
    && (s.lws || s.service || PastFinalizer(s.work) ==> Guarded(s))
    && (s.work.DeleteLws? ==> !s.service)
    && (s.work.DropFinalizer? ==> !s.service && !s.lws)
  }

  /** The informer has the object in this version, or has it coming. */
  predicate Visible(s: State, a: App) { s.cache == Some(a) || Some(a) in s.queue }

  function Newest(s: State): Option<App> { if s.queue == [] then s.cache else s.queue[|s.queue| - 1] }

  /** The versions up to this one have been delivered. */
  function Seen(s: State): int { s.versions - |s.queue| }

  /** What holds of the informer: a copy that is not being deleted and has the finalizer is still
      guarded by it. */
  ghost predicate InformerOk(s: State) {
    && Newest(s) == s.app
    && (s.cache.Some? ==> s.cache.value.version <= Seen(s))
    && (!s.work.Idle? && !s.work.Save? ==> s.work.obj.version <= Seen(s))
    && (forall a :: Visible(s, a) ==> ObjectOk(a))
    && (forall a :: Visible(s, a) && !a.deleting && Ours in a.finalizers ==> Guarded(s))
    && (forall i :: 0 <= i < |s.queue| && s.queue[i].Some? ==> s.queue[i].value.version == Seen(s) + 1 + i)
  }

  ghost predicate Inv(s: State) { Core(s) && InformerOk(s) }

  predicate Initial(s: State) {
    s.app.None? && s.cache.None? && s.queue == [] && !s.lws && !s.service && s.work.Idle? && s.lwsCreated == 0
  }

  /** `b` is `a` but for the status and the runtime default. */
  predicate SameBut(b: App, a: App) {
    && b.version == a.version && b.deleting == a.deleting && b.volumesOk == a.volumesOk
    && b.finalizers == a.finalizers && Effective(b.runtime) == Effective(a.runtime)
  }

  /** A next call, or saving the status, that fits the copy `obj`. */
  predicate Advances(w: Work, obj: App) { (PastFinalizer(w) || w.Save?) && WorkOk(w) && SameBut(w.obj, obj) }

  lemma EnterOk(a: App)
    requires ObjectOk(a)
    ensures var w := Enter(a);
            && !w.Idle? && WorkOk(w) && w.obj.version == a.version && CopyOf(w.obj, a)
            && (Removing(w) <==> w.obj.deleting)
            && (PastFinalizer(w) ==> Ours in a.finalizers)
  {
  }

  lemma ModelStageOk(a: App, m: ModelView)
    requires WorkOk(GetModel(a))
    ensures Advances(ModelStage(a, m), a)
  {
  }

  lemma CreatingOk(a: App)
    requires WorkOk(CreateLws(a))
    ensures GenerateStage(a) == CreateLws(a)
    ensures Advances(MarkReady(a), a) && Advances(Save(SetFlag(a, Ready, false)), a)
  {
  }

  /** The reconcile moves on to its next call, or to saving the status. */
  lemma AdvanceKeeps(s: State, w: Work)
    requires Core(s) && PastFinalizer(s.work)
    requires Advances(w, s.work.obj)
    ensures Core(s.(work := w))
    ensures Core(s.(work := w, service := true))
    ensures Core(s.(work := w, lws := true, lwsCreated := s.lwsCreated + 1))
  {
  }

  lemma CreatingCallOk(s: State, m: ModelView, o: Outcome, kept: bool)
    requires WorkOk(s.work) && (s.work.GetLws? || s.work.CreateLws? || s.work.GetService? || s.work.CreateService?)
    ensures Advances(Call(s, m, o, kept).work, s.work.obj)
  {
    CreatingOk(s.work.obj);
  }

  lemma ForwardOk(s: State, m: ModelView, o: Outcome, kept: bool)
    requires WorkOk(s.work) && PastFinalizer(s.work)
    ensures Advances(Call(s, m, o, kept).work, s.work.obj)
  {
    if s.work.GetModel? {
      ModelStageOk(s.work.obj, m);
    } else if !s.work.Sync? {
      CreatingCallOk(s, m, o, kept);
    }
  }

  lemma ForwardKeeps(s: State, m: ModelView, o: Outcome, kept: bool)
    requires Core(s) && PastFinalizer(s.work)
    ensures Core(Call(s, m, o, kept))
  {
    ForwardOk(s, m, o, kept);
    var s' := Call(s, m, o, kept);
    AdvanceKeeps(s, s'.work);
    assert s' == s.(work := s'.work) || s' == s.(work := s'.work, service := true)
        || s' == s.(work := s'.work, lws := true, lwsCreated := s.lwsCreated + 1);
  }

  /** The object is stored with the finalizer; its copy is then the stored one, or an old one. */
  lemma FinalizerStored(s: State, a: App, copy: App)
    requires Core(s) && s.work == AddFinalizer(a) && Current(s, a)
    requires copy == a || copy == Refreshed(StoreObject(s, a).app, a, true) || copy == Refreshed(StoreObject(s, a).app, a, false)
    ensures Core(StoreObject(s, a).(work := Save(copy)))
  {
    var stored := s.app.value.(version := s.versions + 1, finalizers := a.finalizers, runtime := a.runtime);
    assert a.finalizers != [];
    assert Kept(stored) == Some(stored);
    assert ObjectOk(stored) && ObjectOk(copy);
  }

  lemma AddFinalizerKeeps(s: State, m: ModelView, o: Outcome, kept: bool)
    requires Core(s) && s.work.AddFinalizer?
    ensures Core(Call(s, m, o, kept))
  {
    var a := s.work.obj;
    if !o.Refused? && Current(s, a) {
      FinalizerStored(s, a, if o.Lost? then a else Refreshed(StoreObject(s, a).app, a, kept));
    }
  }

  lemma SaveKeeps(s: State, m: ModelView, o: Outcome, kept: bool)
    requires Core(s) && s.work.Save?
    ensures Core(Call(s, m, o, kept))
  {
  }

  lemma RemovalKeeps(s: State, m: ModelView, o: Outcome, kept: bool)
    requires Core(s) && Removing(s.work)
    ensures Core(Call(s, m, o, kept))
  {
    WithoutHas(s.work.obj.finalizers, Ours, Ours);
  }

  /** The informer's copy, when it is at the stored version, is the stored object. */
  lemma CacheIsCurrent(s: State)
    requires Inv(s) && s.cache.Some? && Current(s, s.cache.value)
    ensures s.queue == [] && s.cache == s.app
  {
  }

  lemma CallKeepsCore(s: State, m: ModelView, o: Outcome, kept: bool)
    requires Inv(s)
    ensures Core(Call(s, m, o, kept))
  {
    if PastFinalizer(s.work) {
      ForwardKeeps(s, m, o, kept);
    } else if Removing(s.work) {
      RemovalKeeps(s, m, o, kept);
    } else if s.work.Idle? {
      if s.cache.Some? {
        assert Visible(s, s.cache.value);
        EnterOk(s.cache.value);
        if Current(s, s.cache.value) { CacheIsCurrent(s); }
      }
    } else if s.work.Save? {
      SaveKeeps(s, m, o, kept);
    } else {
      AddFinalizerKeeps(s, m, o, kept);
    }
  }

  /** A write is one more version for the informer to see. */
  lemma WriteInforms(s: State, a: Option<App>, w: Work)
    requires InformerOk(s) && (a.Some? ==> ObjectOk(a.value) && a.value.version == s.versions + 1)
    requires w.Idle? || w.Save? || w.obj.version <= Seen(s)
    requires forall x :: Visible(s, x) && !x.deleting && Ours in x.finalizers ==> a.Some? && Ours in a.value.finalizers
    ensures InformerOk(Write(s, a).(work := w))
  {
    var s' := Write(s, a).(work := w);
    forall x | Visible(s', x) ensures Visible(s, x) || a == Some(x) { }
  }

  /** A call that stores nothing leaves the informer as it is. */
  lemma NoWriteInforms(s: State, s': State)
    requires InformerOk(s) && s'.versions == s.versions && s'.app == s.app && s'.cache == s.cache && s'.queue == s.queue
    requires s'.work.Idle? || s'.work.Save? || s'.work.obj.version <= Seen(s)
    ensures InformerOk(s')
  {
    forall x | Visible(s', x) ensures Visible(s, x) { }
  }

  lemma StoringKeepsInformer(s: State, m: ModelView, o: Outcome, kept: bool)
    requires Inv(s) && !o.Refused? && !s.work.Idle? && Current(s, s.work.obj)
    requires s.work.AddFinalizer? || s.work.Save? || s.work.DropFinalizer?
    ensures InformerOk(Call(s, m, o, kept))
  {
    var s' := Call(s, m, o, kept);
    CallKeepsCore(s, m, o, kept);
    if s.work.DropFinalizer? {
      assert s.queue == [];
      WithoutHas(s.work.obj.finalizers, Ours, Ours);
    }
    if s'.versions == s.versions {
      NoWriteInforms(s, s');
    } else {
      assert s' == Write(s, s'.app).(work := s'.work);
      WriteInforms(s, s'.app, s'.work);
    }
  }

  lemma CallKeepsInformer(s: State, m: ModelView, o: Outcome, kept: bool)
    requires Inv(s)
    ensures InformerOk(Call(s, m, o, kept))
  {
    var s' := Call(s, m, o, kept);
    if PastFinalizer(s.work) {
      ForwardOk(s, m, o, kept);
      NoWriteInforms(s, s');
    } else if s.work.Idle? {
      if s.cache.Some? {
        assert Visible(s, s.cache.value);
        EnterOk(s.cache.value);
      }
      NoWriteInforms(s, s');
    } else if (s.work.AddFinalizer? || s.work.Save? || s.work.DropFinalizer?) && !o.Refused? && Current(s, s.work.obj) {
      StoringKeepsInformer(s, m, o, kept);
    } else {
      NoWriteInforms(s, s');
    }
  }

  lemma CallKeeps(s: State, m: ModelView, o: Outcome, kept: bool)
    requires Inv(s)
    ensures Inv(Call(s, m, o, kept))
  {
    CallKeepsCore(s, m, o, kept);
    CallKeepsInformer(s, m, o, kept);
  }

  lemma UserKeeps(s: State, step: Step)
    requires Inv(s) && Enabled(s, step) && (step.CreateApp? || step.DeleteApp? || step.TouchFinalizers?)
    ensures Inv(Do(s, step))
  {
    var s' := Do(s, step);
    assert s' == Write(s, s'.app).(work := s.work);
    WriteInforms(s, s'.app, s.work);
  }

  lemma OutsideKeeps(s: State, step: Step)
    requires Inv(s) && Enabled(s, step) && (step.LoseLws? || step.LoseService? || step.Deliver?)
    ensures Inv(Do(s, step))
  {
    var s' := Do(s, step);
    if step.Deliver? {
      forall x | Visible(s', x) ensures Visible(s, x) { }
    } else {
      NoWriteInforms(s, s');
    }
  }

  /** Every step keeps the invariant. */
  lemma StepKeeps(s: State, step: Step)
    requires Inv(s) && Enabled(s, step)
    ensures Inv(Do(s, step))
  {
    if step.Controller? {
      CallKeeps(s, step.model, step.outcome, step.kept);
    } else if step.CreateApp? || step.DeleteApp? || step.TouchFinalizers? {
      UserKeeps(s, step);
    } else {
      OutsideKeeps(s, step);
    }
  }
}
