/** The model controller, one API call at a time, next to the worker pod that downloads the model.
    As for applications, anything may happen between two calls, every call may fail, and a reconcile
    starts from the informer's copy of the object, which may be old. */
module ModelController {
  import opened Wrappers
  import opened Objects

  datatype Phase = NoPhase | StorageCreating | ModelLoading | PhaseReady | Failed

  /** No source, a Huggingface source, or a source that names nothing. */
  datatype Source = NoSource | Huggingface | EmptySource

  datatype Status = Status(phase: Phase, flags: Flags)

  /** `pvc` is the name in the storage specification, possibly empty, if there is one. */
  datatype Model = Model(
    uid: int, version: int, name: string, deleting: bool, finalizers: seq<Finalizer>,
    pvc: Option<string>, source: Source, status: Status)

  datatype PodPhase = Active | PodSucceeded | PodFailed

  datatype Pod = Pod(phase: PodPhase, claim: string)

  /** The next API call, the controller's copy and, past the storage step, the claim a worker pod
      would mount: the empty string in a pass that did not take that step. */
  datatype Work =
    | Idle
    | AddFinalizer(obj: Model)
    | GetPvc(obj: Model)
    | CreatePvc(obj: Model)
    | GetPod(obj: Model, claim: string)
    | CreatePod(obj: Model, claim: string)
    | Save(obj: Model)
    | DeletePod(obj: Model)
    | DropFinalizer(obj: Model)

  /** `model` is the stored object, `cache` the informer's copy of it, and `queue` the later versions
      that the informer has still to see, oldest first. Two records of the past: `began`, the
      conditions as last fetched, and `observed`, the models whose worker pod a reconcile has found
      succeeded. */
  datatype State = State(
    versions: int, model: Option<Model>, cache: Option<Model>, queue: seq<Option<Model>>,
    pvcs: set<string>, pod: Option<Pod>, work: Work, began: Flags, observed: set<int>)

  function PvcName(m: Model): string { if m.pvc.None? || m.pvc.value == "" then m.name else m.pvc.value }

  function SetPhase(m: Model, p: Phase): Model { m.(status := m.status.(phase := p)) }

  function SetFlag(m: Model, k: Kind, b: bool): Model { m.(status := m.status.(flags := Put(m.status.flags, k, b))) }

  predicate Holds(m: Model, k: Kind) { On(m.status.flags, k) }

  // ---------------------------------------------------------------------------------------
  // The controller between API calls

  function Enter(m: Model): Work {
    if m.deleting then if m.source.Huggingface? then DeletePod(m) else DropFinalizer(m)
    else if m.status.phase == PhaseReady || m.status.phase == Failed then Save(m)
    else if Ours !in m.finalizers then AddFinalizer(m.(finalizers := WithFinalizer(m.finalizers, Ours)))
    else StorageStage(m.(status := m.status.(flags := Begin(m.status.flags))))
  }

  function StorageStage(m: Model): Work {
    if m.pvc.None? then Save(SetFlag(SetPhase(m, Failed), Prepared, false))
    else if !Holds(m, Prepared) then GetPvc(SetPhase(m, StorageCreating))
    else LoadStage(m, "")
  }

  function StorageDone(m: Model): Work { LoadStage(SetFlag(m, Prepared, true), PvcName(m)) }

  function LoadStage(m: Model, claim: string): Work {
    if Holds(m, Loaded) then ReadyStage(m)
    else match m.source
      case Huggingface => GetPod(m, claim)
      case EmptySource => ReadyStage(m)
      case NoSource => ReadyStage(SetFlag(m, Loaded, true))
  }

  function ReadyStage(m: Model): Work {
    Save(if Holds(m, Ready) then m else SetFlag(SetPhase(m, PhaseReady), Ready, true))
  }

  // ---------------------------------------------------------------------------------------
  // One API call

  predicate Current(s: State, obj: Model) { s.model.Some? && s.model.value.version == obj.version }

  function Kept(m: Model): Option<Model> { if m.deleting && m.finalizers == [] then None else Some(m) }

  /** The next version of the object is `m`, or nothing. */
  function Write(s: State, m: Option<Model>): State {
    s.(versions := s.versions + 1, model := m, queue := s.queue + [m])
  }

  function StoreFinalizers(s: State, fs: seq<Finalizer>): State
    requires s.model.Some?
  {
    Write(s, Kept(s.model.value.(version := s.versions + 1, finalizers := fs)))
  }

  function StoreStatus(s: State, obj: Model): State
    requires s.model.Some?
  {
    if s.model.value.status == obj.status then s
    else Write(s, Some(s.model.value.(version := s.versions + 1, status := obj.status)))
  }

  /** The next call of the controller. The server takes no pod whose volume names no claim. */
  function Call(s: State, o: Outcome): State {
    match s.work
    case Idle => if s.cache.None? || !o.Works? then s else s.(work := Enter(s.cache.value), began := s.cache.value.status.flags)
    case AddFinalizer(m) =>
      if o.Refused? || !Current(s, m) then s.(work := Save(m))
      else
        var s' := StoreFinalizers(s, m.finalizers);
        s'.(work := Save(if o.Lost? || s'.model.None? then m else s'.model.value))
    case GetPvc(m) =>
      s.(work := if !o.Works? then Save(m) else if PvcName(m) in s.pvcs then StorageDone(m) else CreatePvc(m))
    case CreatePvc(m) =>
      (if o.Refused? then s else s.(pvcs := s.pvcs + {PvcName(m)}))
      .(work := if o.Works? then StorageDone(m) else Save(SetFlag(m, Prepared, false)))
    case GetPod(m, claim) =>
      if !o.Works? then s.(work := Save(m))
      else if s.pod.None? then s.(work := CreatePod(m, claim))
      else if s.pod.value.phase == PodFailed then s.(work := Save(SetFlag(SetPhase(m, Failed), Loaded, false)))
      else if s.pod.value.phase == Active then s.(work := Save(m))
      else s.(work := ReadyStage(SetFlag(m, Loaded, true)), observed := s.observed + {m.uid})
    case CreatePod(m, claim) =>
      (if o.Refused? || claim == "" || s.pod.Some? then s else s.(pod := Some(Pod(Active, claim))))
      .(work := Save(SetFlag(SetPhase(m, ModelLoading), Loaded, false)))
    case Save(m) => (if o.Refused? || !Current(s, m) then s else StoreStatus(s, m)).(work := Idle)
    case DeletePod(m) => (if o.Refused? then s else s.(pod := None)).(work := if o.Works? then DropFinalizer(m) else Idle)
    case DropFinalizer(m) =>
      (if o.Refused? || !Current(s, m) then s else StoreFinalizers(s, WithoutFinalizer(m.finalizers, Ours))).(work := Idle)
  }

  datatype Step =
    | Controller(outcome: Outcome)
    | CreateModel(name: string, pvc: Option<string>, source: Source)
    | DeleteModel
    | TouchFinalizers(others: seq<Finalizer>)
    | PodEnds(phase: PodPhase)
    | LosePod
    | LosePvc(claim: string)
    | Deliver

  predicate Enabled(s: State, step: Step) {
    match step
    case CreateModel(name, _, _) => s.model.None? && name != ""
    case DeleteModel => s.model.Some?
    case TouchFinalizers(fs) => s.model.Some? && Ours !in fs
    case PodEnds(_) => s.pod.Some? && s.pod.value.phase == Active
    case Deliver => s.queue != []
    case _ => true
  }

  function Do(s: State, step: Step): State
    requires Enabled(s, step)
  {
    match step
    case Controller(o) => Call(s, o)
    case CreateModel(name, pvc, source) =>
      Write(s, Some(Model(s.versions + 1, s.versions + 1, name, false, [], pvc, source, Status(NoPhase, NO_FLAGS))))
    case DeleteModel => Write(s, Kept(s.model.value.(version := s.versions + 1, deleting := true)))
    case TouchFinalizers(fs) => StoreFinalizers(s, if Ours in s.model.value.finalizers then fs + [Ours] else fs)
    case PodEnds(phase) => s.(pod := Some(s.pod.value.(phase := phase)))
    case LosePod => s.(pod := None)
    case LosePvc(claim) => s.(pvcs := s.pvcs - {claim})
    case Deliver => s.(cache := s.queue[0], queue := s.queue[1..])
  }

  // ---------------------------------------------------------------------------------------
  // The invariant

  /** A ready model has its storage, and is loaded exactly when its source is not the empty one, and
      no other model is; a Huggingface model is loaded only after its worker pod was found succeeded. */
  predicate ObjectOk(m: Model, observed: set<int>) {
    && m.name != ""
    && (AllSet(m.status.flags) || m.status == Status(NoPhase, NO_FLAGS))
    && (Holds(m, Ready) <==> m.status.phase == PhaseReady)
    && (Holds(m, Ready) ==> Holds(m, Prepared) && (m.source.EmptySource? || Holds(m, Loaded)))
    && (Holds(m, Loaded) ==> Holds(m, Ready))
    && (Holds(m, Loaded) ==> !m.source.EmptySource? && (m.source.Huggingface? ==> m.uid in observed))
    && (Holds(m, Prepared) ==> m.pvc.Some?)
  }

  predicate PastFinalizer(w: Work) { w.GetPvc? || w.CreatePvc? || w.GetPod? || w.CreatePod? }

  predicate Removing(w: Work) { w.DeletePod? || w.DropFinalizer? }

  predicate Unfinished(m: Model) { AllSet(m.status.flags) && m.status.phase != PhaseReady && m.status.phase != Failed }

  predicate WorkOk(w: Work, began: Flags, observed: set<int>) {
    match w
    case Idle => true
    case AddFinalizer(m) => ObjectOk(m, observed) && Ours in m.finalizers && m.status.phase != PhaseReady && m.status.phase != Failed
    case Save(m) => ObjectOk(m, observed)
    case DeletePod(_) | DropFinalizer(_) => true
    case GetPvc(_) | CreatePvc(_) =>
      ObjectOk(w.obj, observed) && Unfinished(w.obj) && w.obj.pvc.Some? && !On(began, Prepared)
    case GetPod(_, _) | CreatePod(_, _) =>
      && ObjectOk(w.obj, observed) && Unfinished(w.obj) && w.obj.source.Huggingface? && Holds(w.obj, Prepared)
      && w.claim == if On(began, Prepared) then "" else PvcName(w.obj)
  }

  predicate SameObject(obj: Model, m: Model) {
    obj.uid == m.uid && obj.name == m.name && obj.pvc == m.pvc && obj.source == m.source
  }

  predicate CopyOf(obj: Model, m: Model) {
    && SameObject(obj, m) && obj.deleting == m.deleting
    && (m.status.phase == PhaseReady || m.status.phase == Failed ==> obj.status == m.status)
    && (m.deleting ==> obj.finalizers == m.finalizers)
  }

  predicate Guarded(s: State) { s.model.Some? && Ours in s.model.value.finalizers }

  /** What holds of the stored object, the reconcile in progress and the worker pod. */
  predicate Core(s: State) {
    && (s.model.Some? ==> ObjectOk(s.model.value, s.observed) && s.model.value.version == s.versions)
    && WorkOk(s.work, s.began, s.observed)
    && (!s.work.Idle? ==> s.work.obj.version <= s.versions && (Current(s, s.work.obj) ==> CopyOf(s.work.obj, s.model.value)))
    && (Removing(s.work) <==> !s.work.Idle? && s.work.obj.deleting)
    && (PastFinalizer(s.work) ==> Guarded(s) && SameObject(s.work.obj, s.model.value))
    && (s.pod.Some? ==> Guarded(s) && s.model.value.source.Huggingface? && s.pod.value.claim == PvcName(s.model.value))
    && (s.work.DropFinalizer? ==> s.pod.None?)
  }

  /** The informer's copy, followed by the versions it has coming. */
  function Copy(s: State, i: nat): Option<Model>
    requires i <= |s.queue|
  {
    if i == 0 then s.cache else s.queue[i - 1]
  }

  /** The versions up to this one have been delivered. */
  function Seen(s: State): int { s.versions - |s.queue| }

  /** A copy from which a reconcile would go past its finalizer. */
  predicate Held(m: Option<Model>) { m.Some? && !m.value.deleting && Ours in m.value.finalizers }

  predicate SameAs(m: Option<Model>, stored: Option<Model>) { m.Some? ==> stored.Some? && SameObject(m.value, stored.value) }

  /** Everything the informer has or has coming is a version of the stored object. */
  ghost predicate OneObject(s: State) { forall i: nat :: i <= |s.queue| ==> SameAs(Copy(s, i), s.model) }

  /** What holds of the informer: from a copy with the finalizer on, the object is the stored one and
      still guarded. */
  ghost predicate InformerOk(s: State) {
    && Copy(s, |s.queue|) == s.model
    && (s.cache.Some? ==> s.cache.value.version <= Seen(s))
    && (!s.work.Idle? && !s.work.Save? ==> s.work.obj.version <= Seen(s))
    && (forall i :: 0 <= i < |s.queue| && s.queue[i].Some? ==> s.queue[i].value.version == Seen(s) + 1 + i)
    && (forall i: nat :: i <= |s.queue| && Copy(s, i).Some? ==> ObjectOk(Copy(s, i).value, s.observed))
    && (forall i: nat, j: nat :: i <= j <= |s.queue| && Held(Copy(s, i)) ==> Guarded(s) && SameAs(Copy(s, j), s.model))
    && (s.pod.Some? || PastFinalizer(s.work) ==> OneObject(s))
  }

  ghost predicate Inv(s: State) { Core(s) && InformerOk(s) }

  predicate Initial(s: State) {
    s.model.None? && s.cache.None? && s.queue == [] && s.pod.None? && s.work.Idle? && s.observed == {}
  }

  // ---------------------------------------------------------------------------------------
  // Every step keeps it

  /** A next call, or saving the status, that fits the copy `obj`. */
  predicate Advances(w: Work, obj: Model, began: Flags, observed: set<int>) {
    && (PastFinalizer(w) || w.Save?) && WorkOk(w, began, observed) && SameObject(w.obj, obj)
    && w.obj.version == obj.version && w.obj.deleting == obj.deleting && w.obj.finalizers == obj.finalizers
  }

  lemma LoadStageOk(m: Model, claim: string, began: Flags, observed: set<int>)
    requires ObjectOk(m, observed) && Unfinished(m)
    requires Holds(m, Prepared) && claim == if On(began, Prepared) then "" else PvcName(m)
    ensures Advances(LoadStage(m, claim), m, began, observed)
  {
  }

  lemma StorageStageOk(m: Model, observed: set<int>)
    requires ObjectOk(m, observed) && Unfinished(m)
    ensures Advances(StorageStage(m), m, m.status.flags, observed)
  {
    if m.pvc.Some? && Holds(m, Prepared) { LoadStageOk(m, "", m.status.flags, observed); }
  }

  lemma EnterOk(m: Model, observed: set<int>)
    requires ObjectOk(m, observed)
    ensures var w := Enter(m);
            && !w.Idle? && WorkOk(w, m.status.flags, observed) && w.obj.version == m.version && CopyOf(w.obj, m)
            && (Removing(w) <==> w.obj.deleting) && (PastFinalizer(w) ==> Ours in m.finalizers)
            && (w.DropFinalizer? ==> !m.source.Huggingface?)
  {
    if !m.deleting && m.status.phase != PhaseReady && m.status.phase != Failed && Ours in m.finalizers {
      var b := m.(status := m.status.(flags := Begin(m.status.flags)));
      StorageStageOk(b, observed);
    }
  }

  lemma AdvanceKeeps(s: State, w: Work)
    requires Core(s) && PastFinalizer(s.work) && Advances(w, s.work.obj, s.began, s.observed)
    ensures Core(s.(work := w))
  {
  }

  lemma StorageKeeps(s: State, o: Outcome)
    requires Core(s) && (s.work.GetPvc? || s.work.CreatePvc?)
    ensures Core(Call(s, o))
  {
    var m := s.work.obj;
    var done := SetFlag(m, Prepared, true);
    LoadStageOk(done, PvcName(done), s.began, s.observed);
    var s' := Call(s, o);
    AdvanceKeeps(s, s'.work);
    assert s'.(pvcs := s.pvcs) == s.(work := s'.work);
  }

  lemma GetPodKeeps(s: State, o: Outcome)
    requires Core(s) && s.work.GetPod?
    ensures Core(Call(s, o))
  {
  }

  lemma CreatePodKeeps(s: State, o: Outcome)
    requires Core(s) && s.work.CreatePod?
    ensures Core(Call(s, o))
  {
  }

  lemma AddFinalizerKeeps(s: State, o: Outcome)
    requires Core(s) && s.work.AddFinalizer?
    ensures Core(Call(s, o))
  {
  }

  lemma SaveKeeps(s: State, o: Outcome)
    requires Core(s) && s.work.Save?
    ensures Core(Call(s, o))
  {
  }

  lemma RemovalKeeps(s: State, o: Outcome)
    requires Core(s) && Removing(s.work)
    ensures Core(Call(s, o))
  {
    WithoutHas(s.work.obj.finalizers, Ours, Ours);
  }

  /** The informer's copy, when it is at the stored version, is the stored object. */
  lemma CacheIsCurrent(s: State)
    requires Inv(s) && s.cache.Some? && Current(s, s.cache.value)
    ensures s.queue == [] && s.cache == s.model
  {
  }

  lemma EnterKeeps(s: State, o: Outcome)
    requires Inv(s) && s.work.Idle?
    ensures Core(Call(s, o))
  {
    if s.cache.Some? {
      assert Copy(s, 0) == s.cache;
      EnterOk(s.cache.value, s.observed);
      if Current(s, s.cache.value) { CacheIsCurrent(s); }
    }
  }

  lemma CallKeepsCore(s: State, o: Outcome)
    requires Inv(s)
    ensures Core(Call(s, o))
  {
    match s.work
    case Idle => EnterKeeps(s, o);
    case AddFinalizer(_) => AddFinalizerKeeps(s, o);
    case GetPvc(_) | CreatePvc(_) => StorageKeeps(s, o);
    case GetPod(_, _) => GetPodKeeps(s, o);
    case CreatePod(_, _) => CreatePodKeeps(s, o);
    case Save(_) => SaveKeeps(s, o);
    case DeletePod(_) | DropFinalizer(_) => RemovalKeeps(s, o);
  }

  /** A step that stores nothing leaves the informer as it is. */
  lemma NoWriteInforms(s: State, s': State)
    requires InformerOk(s) && s'.versions == s.versions && s'.model == s.model && s'.cache == s.cache && s'.queue == s.queue
    requires s.observed <= s'.observed && (s'.work.Idle? || s'.work.Save? || s'.work.obj.version <= Seen(s))
    requires s'.pod.Some? || PastFinalizer(s'.work) ==> s.pod.Some? || PastFinalizer(s.work) || Held(s.cache)
    ensures InformerOk(s')
  {
    assert forall i: nat :: i <= |s.queue| ==> Copy(s', i) == Copy(s, i);
    assert Held(Copy(s, 0)) ==> OneObject(s);
  }

  /** A write is one more version for the informer to see. */
  lemma WriteInforms(s: State, m: Option<Model>, w: Work)
    requires InformerOk(s) && (m.Some? ==> ObjectOk(m.value, s.observed) && m.value.version == s.versions + 1)
    requires w.Idle? || w.Save? || (w == s.work && w.obj.version <= Seen(s))
    requires AnyHeld(s) || s.pod.Some? || PastFinalizer(w) ==> Continues(s, m)
    ensures InformerOk(Write(s, m).(work := w))
  {
    var s' := Write(s, m).(work := w);
    assert forall i: nat :: i <= |s.queue| ==> Copy(s', i) == Copy(s, i);
    assert Copy(s', |s'.queue|) == m;
    forall i: nat, j: nat | i <= j <= |s'.queue| && Held(Copy(s', i)) ensures Guarded(s') && SameAs(Copy(s', j), m) {
      if i <= |s.queue| {
        assert AnyHeld(s);
        if j <= |s.queue| { assert SameAs(Copy(s, j), s.model); }
      }
    }
    if s'.pod.Some? || PastFinalizer(w) {
      forall i: nat | i <= |s'.queue| ensures SameAs(Copy(s', i), m) {
        if i <= |s.queue| { assert SameAs(Copy(s, i), s.model); }
      }
    }
  }

  ghost predicate AnyHeld(s: State) { exists i: nat :: i <= |s.queue| && Held(Copy(s, i)) }

  /** The next version is the same object and still has the finalizer. */
  predicate Continues(s: State, m: Option<Model>) {
    m.Some? && Ours in m.value.finalizers && s.model.Some? && SameObject(m.value, s.model.value)
  }

  lemma HeldMeansGuarded(s: State)
    requires InformerOk(s) && AnyHeld(s)
    ensures Guarded(s)
  {
  }

  lemma StoringKeepsInformer(s: State, o: Outcome)
    requires Inv(s) && !o.Refused? && !s.work.Idle? && Current(s, s.work.obj)
    requires s.work.AddFinalizer? || s.work.Save? || s.work.DropFinalizer?
    ensures InformerOk(Call(s, o))
  {
    var s' := Call(s, o);
    CallKeepsCore(s, o);
    if AnyHeld(s) { HeldMeansGuarded(s); }
    if s.work.DropFinalizer? {
      assert s.queue == [] && Copy(s, 0) == s.model;
      assert !AnyHeld(s);
      WithoutHas(s.work.obj.finalizers, Ours, Ours);
    }
    if s'.versions == s.versions {
      NoWriteInforms(s, s');
    } else {
      assert s' == Write(s, s'.model).(work := s'.work);
      WriteInforms(s, s'.model, s'.work);
    }
  }

  lemma ForwardInforms(s: State, o: Outcome)
    requires Inv(s) && PastFinalizer(s.work)
    ensures InformerOk(Call(s, o))
  {
    var s' := Call(s, o);
    if s.work.GetPvc? || s.work.CreatePvc? {
      var done := SetFlag(s.work.obj, Prepared, true);
      LoadStageOk(done, PvcName(done), s.began, s.observed);
    }
    NoWriteInforms(s, s');
  }

  lemma EnterInforms(s: State, o: Outcome)
    requires Inv(s) && s.work.Idle?
    ensures InformerOk(Call(s, o))
  {
    if s.cache.Some? {
      assert Copy(s, 0) == s.cache;
      EnterOk(s.cache.value, s.observed);
    }
    NoWriteInforms(s, Call(s, o));
  }

  lemma CallKeepsInformer(s: State, o: Outcome)
    requires Inv(s)
    ensures InformerOk(Call(s, o))
  {
    if PastFinalizer(s.work) {
      ForwardInforms(s, o);
    } else if s.work.Idle? {
      EnterInforms(s, o);
    } else if !s.work.DeletePod? && !o.Refused? && Current(s, s.work.obj) {
      StoringKeepsInformer(s, o);
    } else {
      NoWriteInforms(s, Call(s, o));
    }
  }

  lemma CallKeeps(s: State, o: Outcome)
    requires Inv(s)
    ensures Inv(Call(s, o))
  {
    CallKeepsCore(s, o);
    CallKeepsInformer(s, o);
  }

  lemma UserKeeps(s: State, step: Step)
    requires Inv(s) && Enabled(s, step) && (step.CreateModel? || step.DeleteModel? || step.TouchFinalizers?)
    ensures Inv(Do(s, step))
  {
    var s' := Do(s, step);
    if AnyHeld(s) { HeldMeansGuarded(s); }
    assert s' == Write(s, s'.model).(work := s.work);
    WriteInforms(s, s'.model, s.work);
  }

  lemma DeliverKeeps(s: State)
    requires Inv(s) && s.queue != []
    ensures Inv(Do(s, Deliver))
  {
    var s' := Do(s, Deliver);
    assert forall i: nat :: i <= |s'.queue| ==> Copy(s', i) == Copy(s, i + 1);
  }

  lemma OutsideKeeps(s: State, step: Step)
    requires Inv(s) && Enabled(s, step) && (step.PodEnds? || step.LosePod? || step.LosePvc?)
    ensures Inv(Do(s, step))
  {
    NoWriteInforms(s, Do(s, step));
  }

  /** Every step keeps the invariant. */
  lemma StepKeeps(s: State, step: Step)
    requires Inv(s) && Enabled(s, step)
    ensures Inv(Do(s, step))
  {
    match step
    case Controller(o) => CallKeeps(s, o);
    case CreateModel(_, _, _) | DeleteModel | TouchFinalizers(_) => UserKeeps(s, step);
    case Deliver => DeliverKeeps(s);
    case PodEnds(_) | LosePod | LosePvc(_) => OutsideKeeps(s, step);
  }
}
