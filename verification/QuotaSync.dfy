/** The ten-second loop that copies quota counters into the status of an ArksQuota. Several
    gateway replicas run it at once, each on its own possibly stale copy of the object; status
    writes are checked against the resource version. */
module QuotaSync {

  datatype QuotaStatus = QuotaStatus(kind: string, used: int)

  /** One counter as read from Redis. */
  datatype Reading = Reading(kind: string, current: int)

  datatype Merged = Merged(status: seq<QuotaStatus>, updateObject: bool, updateQuota: bool)

  // ---------------------------------------------------------------------------------------
  // The merge

  /** Position of the first entry of a type, or the length. */
  function Find(status: seq<QuotaStatus>, kind: string): (i: nat)
    ensures i <= |status|
    ensures i < |status| ==> status[i].kind == kind
    ensures forall j :: 0 <= j < i ==> status[j].kind != kind
  {
    if status == [] then 0
    else if status[0].kind == kind then 0
    else 1 + Find(status[1..], kind)
  }

  function UsedOf(status: seq<QuotaStatus>, kind: string): int {
    var i := Find(status, kind);
    if i < |status| then status[i].used else 0
  }

  function MergeOne(m: Merged, r: Reading): Merged {
    var i := Find(m.status, r.kind);
    if i == |m.status| then m.(status := m.status + [QuotaStatus(r.kind, r.current)], updateObject := true)
    else if m.status[i].used < r.current then
      m.(status := m.status[i := QuotaStatus(r.kind, r.current)], updateObject := true)
    else if m.status[i].used > r.current then m.(updateQuota := true)
    else m
  }

  function Merge(status: seq<QuotaStatus>, readings: seq<Reading>): Merged {
    if readings == [] then Merged(status, false, false)
    else MergeOne(Merge(status, readings[..|readings| - 1]), readings[|readings| - 1])
  }

  /** The nested loops of the sync: for each reading find the status entry of its type, raise it,
      or ask for a write-back, or append a new entry. */
  method SyncStatus(original: seq<QuotaStatus>, readings: seq<Reading>) returns (m: Merged)
    ensures m == Merge(original, readings)
  {
    var status, updateObject, updateQuota := original, false, false;
    for u := 0 to |readings|
      invariant Merged(status, updateObject, updateQuota) == Merge(original, readings[..u])
    {
      assert readings[..u + 1][..u] == readings[..u];
      var found := false;
      var i := 0;
      while i < |status| && !found
        invariant 0 <= i <= |status|
        invariant !found ==> Merged(status, updateObject, updateQuota) == Merge(original, readings[..u])
        invariant !found ==> forall j :: 0 <= j < i ==> status[j].kind != readings[u].kind
        invariant found ==> Merged(status, updateObject, updateQuota) == Merge(original, readings[..u + 1])
        decreases |status| - i, !found
      {
        if status[i].kind == readings[u].kind {
          assert Find(status, readings[u].kind) == i;
          if status[i].used < readings[u].current {
            updateObject := true;
            status := status[i := QuotaStatus(readings[u].kind, readings[u].current)];
          } else if status[i].used > readings[u].current {
            updateQuota := true;
          }
          found := true;
        } else {
          i := i + 1;
        }
      }
      if !found {
        assert Find(status, readings[u].kind) == |status|;
        updateObject := true;
        status := status + [QuotaStatus(readings[u].kind, readings[u].current)];
      }
    }
    assert readings[..|readings|] == readings;
    m := Merged(status, updateObject, updateQuota);
  }

  /** The first position is determined by the types alone. */
  lemma FindIs(status: seq<QuotaStatus>, kind: string, i: nat)
    requires i <= |status| && (i < |status| ==> status[i].kind == kind)
    requires forall j :: 0 <= j < i ==> status[j].kind != kind
    ensures Find(status, kind) == i
  {
  }

  lemma FindUpdate(status: seq<QuotaStatus>, i: nat, used: int, kind: string)
    requires i < |status| && Find(status, status[i].kind) == i
    ensures UsedOf(status[i := QuotaStatus(status[i].kind, used)], kind)
            == if kind == status[i].kind then used else UsedOf(status, kind)
  {
    FindIs(status[i := QuotaStatus(status[i].kind, used)], kind, Find(status, kind));
  }

  lemma FindAppend(status: seq<QuotaStatus>, e: QuotaStatus, kind: string)
    requires Find(status, e.kind) == |status|
    ensures UsedOf(status + [e], kind) == if kind == e.kind then e.used else UsedOf(status, kind)
  {
    var i := Find(status, kind);
    FindIs(status + [e], kind, if i == |status| && kind != e.kind then i + 1 else i);
  }

  function Max(a: int, b: int): int { if a < b then b else a }

  /** A non-negative reading raises its own type to the maximum and leaves the others. */
  lemma MergeOneUsed(m: Merged, r: Reading, kind: string)
    requires r.current >= 0
    ensures UsedOf(MergeOne(m, r).status, kind)
            == if kind == r.kind then Max(UsedOf(m.status, kind), r.current) else UsedOf(m.status, kind)
    ensures MergeOne(m, r).updateQuota <==> m.updateQuota || (Find(m.status, r.kind) < |m.status| && UsedOf(m.status, r.kind) > r.current)
    ensures MergeOne(m, r).updateObject || MergeOne(m, r).status == m.status
  {
    var i := Find(m.status, r.kind);
    if i == |m.status| {
      FindAppend(m.status, QuotaStatus(r.kind, r.current), kind);
    } else {
      FindUpdate(m.status, i, r.current, kind);
    }
  }

  /** The largest reading of a type, from `start` on. */
  function Peak(readings: seq<Reading>, kind: string, start: int): int {
    if readings == [] then start
    else
      var last := readings[|readings| - 1];
      var rest := Peak(readings[..|readings| - 1], kind, start);
      if last.kind == kind then Max(rest, last.current) else rest
  }

  predicate NonNegative(readings: seq<Reading>) {
    forall i :: 0 <= i < |readings| ==> readings[i].current >= 0
  }

  /** The merge computes a maximum per type. */
  lemma {:induction false} MergeIsPeak(status: seq<QuotaStatus>, readings: seq<Reading>, kind: string)
    requires NonNegative(readings)
    ensures UsedOf(Merge(status, readings).status, kind) == Peak(readings, kind, UsedOf(status, kind))
  {
    if readings != [] {
      var n := |readings| - 1;
      MergeIsPeak(status, readings[..n], kind);
      MergeOneUsed(Merge(status, readings[..n]), readings[n], kind);
    }
  }

  /** Which is the start or one of the readings of the type, and no less than any of them. */
  lemma {:induction false} PeakIsLargest(readings: seq<Reading>, kind: string, start: int)
    ensures Peak(readings, kind, start) >= start
    ensures forall i :: 0 <= i < |readings| && readings[i].kind == kind ==> Peak(readings, kind, start) >= readings[i].current
    ensures Peak(readings, kind, start) == start || Reading(kind, Peak(readings, kind, start)) in readings
  {
    if readings != [] {
      PeakIsLargest(readings[..|readings| - 1], kind, start);
    }
  }

  lemma {:induction false} PeakBounds(readings: seq<Reading>, kind: string, start: int, bound: int)
    requires start <= bound
    requires forall i :: 0 <= i < |readings| && readings[i].kind == kind ==> readings[i].current <= bound
    ensures start <= Peak(readings, kind, start) <= bound
  {
    if readings != [] {
      PeakBounds(readings[..|readings| - 1], kind, start, bound);
    }
  }

  /** Every reading is at least what the status says, and repeated readings of a type only grow. */
  predicate Fresh(status: seq<QuotaStatus>, readings: seq<Reading>) {
    && NonNegative(readings)
    && (forall i :: 0 <= i < |readings| ==> UsedOf(status, readings[i].kind) <= readings[i].current)
    && (forall i, j :: 0 <= i < j < |readings| && readings[i].kind == readings[j].kind ==>
          readings[i].current <= readings[j].current)
  }

  /** Fresh readings never ask for a write-back. */
  lemma {:induction false} FreshNeedsNoWriteBack(status: seq<QuotaStatus>, readings: seq<Reading>)
    requires Fresh(status, readings)
    ensures !Merge(status, readings).updateQuota
  {
    if readings != [] {
      var n := |readings| - 1;
      var init, last := readings[..n], readings[n];
      assert forall i :: 0 <= i < n ==> init[i] == readings[i];
      FreshNeedsNoWriteBack(status, init);
      MergeIsPeak(status, init, last.kind);
      PeakBounds(init, last.kind, UsedOf(status, last.kind), last.current);
      MergeOneUsed(Merge(status, init), last, last.kind);
    }
  }

  // ---------------------------------------------------------------------------------------
  // Many sync loops

  datatype Quota = Quota(limits: seq<string>, status: seq<QuotaStatus>)

  /** A loop that listed version `copy` and has read the first counters of its limits. */
  datatype Worker = Worker(copy: nat, readings: seq<Reading>)

  /** `history` holds every version of the object, the last one current; `charged` what completed
      requests were charged in all. */
  datatype State = State(counters: map<string, int>, charged: map<string, int>, history: seq<Quota>, workers: map<int, Worker>)

  datatype Step =
    | Charge(kind: string, amount: nat)
    | Edit(limits: seq<string>)
    | ListQuota(id: int, version: nat)
    | ReadCounter(id: int)
    | WriteBack(id: int)
    | WriteStatus(id: int)
    | Stop(id: int)

  function Count(m: map<string, int>, kind: string): int { if kind in m then m[kind] else 0 }

  predicate DoneReading(s: State, id: int) {
    id in s.workers && s.workers[id].copy < |s.history| && |s.workers[id].readings| == |s.history[s.workers[id].copy].limits|
  }

  function MergeOf(s: State, id: int): Merged
    requires DoneReading(s, id)
  {
    Merge(s.history[s.workers[id].copy].status, s.workers[id].readings)
  }

  predicate Enabled(s: State, step: Step) {
    match step
    case Charge(_, _) => true
    case Edit(_) => s.history != []
    case ListQuota(id, v) => id !in s.workers && v < |s.history|
    case ReadCounter(id) =>
      && id in s.workers && s.workers[id].copy < |s.history|
      && |s.workers[id].readings| < |s.history[s.workers[id].copy].limits|
    case WriteBack(id) => DoneReading(s, id) && MergeOf(s, id).updateQuota
    case WriteStatus(id) => DoneReading(s, id) && MergeOf(s, id).updateObject
    case Stop(id) => id in s.workers
  }

  function Zeroed(counters: map<string, int>, limits: seq<string>): map<string, int> {
    map k | k in counters.Keys + (set l | l in limits) :: if k in limits then 0 else counters[k]
  }

  /** The write-back sets every counter of the quota to the request of the read, which is 0. */
  function Do(s: State, step: Step): State
    requires Enabled(s, step)
  {
    match step
    case Charge(k, a) =>
      s.(counters := s.counters[k := Count(s.counters, k) + a], charged := s.charged[k := Count(s.charged, k) + a])
    case Edit(limits) => s.(history := s.history + [s.history[|s.history| - 1].(limits := limits)])
    case ListQuota(id, v) => s.(workers := s.workers[id := Worker(v, [])])
    case ReadCounter(id) =>
      var w := s.workers[id];
      var kind := s.history[w.copy].limits[|w.readings|];
      s.(workers := s.workers[id := w.(readings := w.readings + [Reading(kind, Count(s.counters, kind))])])
    case WriteBack(id) => s.(counters := Zeroed(s.counters, s.history[s.workers[id].copy].limits))
    case WriteStatus(id) =>
      if s.workers[id].copy == |s.history| - 1
      then s.(history := s.history + [s.history[|s.history| - 1].(status := MergeOf(s, id).status)], workers := s.workers - {id})
      else s.(workers := s.workers - {id})
    case Stop(id) => s.(workers := s.workers - {id})
  }

  predicate WorkerOk(s: State, w: Worker) {
    && w.copy < |s.history|
    && Fresh(s.history[w.copy].status, w.readings)
    && (forall i :: 0 <= i < |w.readings| ==> w.readings[i].current <= Count(s.counters, w.readings[i].kind))
  }

  ghost predicate Inv(s: State) {
    && s.counters == s.charged
    && (forall k :: 0 <= Count(s.counters, k))
    && (forall v, k :: 0 <= v < |s.history| ==> UsedOf(s.history[v].status, k) <= Count(s.counters, k))
    && (forall v, v', k :: 0 <= v < v' < |s.history| ==> UsedOf(s.history[v].status, k) <= UsedOf(s.history[v'].status, k))
    && (forall id :: id in s.workers ==> WorkerOk(s, s.workers[id]))
  }

  predicate Initial(s: State) {
    s.counters == map[] && s.charged == map[] && s.workers == map[] && |s.history| == 1 && s.history[0].status == []
  }

  lemma NoWriteBack(s: State, id: int)
    requires Inv(s) && DoneReading(s, id)
    ensures !Enabled(s, WriteBack(id))
  {
    assert WorkerOk(s, s.workers[id]);
    FreshNeedsNoWriteBack(s.history[s.workers[id].copy].status, s.workers[id].readings);
  }

  /** A new version of the object that records no less than the last one and no more than the counters. */
  lemma NewVersionKeeps(s: State, q: Quota)
    requires Inv(s) && s.history != []
    requires forall k :: UsedOf(s.history[|s.history| - 1].status, k) <= UsedOf(q.status, k) <= Count(s.counters, k)
    ensures Inv(s.(history := s.history + [q]))
  {
    var s' := s.(history := s.history + [q]);
    var n := |s.history|;
    assert forall v :: 0 <= v < n ==> s'.history[v] == s.history[v];
    forall v, k | 0 <= v < n ensures UsedOf(s.history[v].status, k) <= UsedOf(q.status, k) {
      assert UsedOf(s.history[v].status, k) <= UsedOf(s.history[n - 1].status, k);
    }
    forall i | i in s'.workers ensures WorkerOk(s', s'.workers[i]) {
      assert WorkerOk(s, s.workers[i]);
    }
  }

  lemma DropWorkerKeeps(s: State, id: int)
    requires Inv(s)
    ensures Inv(s.(workers := s.workers - {id}))
  {
    var s' := s.(workers := s.workers - {id});
    forall i | i in s'.workers ensures WorkerOk(s', s'.workers[i]) {
      assert WorkerOk(s, s.workers[i]);
    }
  }

  /** What a loop is about to write lies between its copy and the counters. */
  lemma MergeWithin(s: State, id: int, k: string)
    requires Inv(s) && DoneReading(s, id)
    ensures UsedOf(s.history[s.workers[id].copy].status, k) <= UsedOf(MergeOf(s, id).status, k) <= Count(s.counters, k)
  {
    var w := s.workers[id];
    assert WorkerOk(s, w);
    var was := s.history[w.copy].status;
    MergeIsPeak(was, w.readings, k);
    PeakBounds(w.readings, k, UsedOf(was, k), Count(s.counters, k));
  }

  lemma WriteStatusKeeps(s: State, id: int)
    requires Inv(s) && Enabled(s, WriteStatus(id))
    ensures Inv(Do(s, WriteStatus(id)))
  {
    if s.workers[id].copy == |s.history| - 1 {
      forall k { MergeWithin(s, id, k); }
      var q := s.history[|s.history| - 1].(status := MergeOf(s, id).status);
      NewVersionKeeps(s, q);
      DropWorkerKeeps(s.(history := s.history + [q]), id);
    } else {
      DropWorkerKeeps(s, id);
    }
  }

  lemma ReadKeeps(s: State, id: int)
    requires Inv(s) && Enabled(s, ReadCounter(id))
    ensures Inv(Do(s, ReadCounter(id)))
  {
    var w, s' := s.workers[id], Do(s, ReadCounter(id));
    assert WorkerOk(s, w);
    forall i | i in s'.workers ensures WorkerOk(s', s'.workers[i]) {
      if i != id { assert WorkerOk(s, s.workers[i]); }
    }
  }

  lemma ChargeKeeps(s: State, kind: string, amount: nat)
    requires Inv(s)
    ensures Inv(Do(s, Charge(kind, amount)))
  {
    var s' := Do(s, Charge(kind, amount));
    forall k ensures Count(s.counters, k) <= Count(s'.counters, k) { }
    forall v, k | 0 <= v < |s'.history| ensures UsedOf(s'.history[v].status, k) <= Count(s'.counters, k) {
      assert UsedOf(s.history[v].status, k) <= Count(s.counters, k);
    }
    forall i | i in s'.workers ensures WorkerOk(s', s'.workers[i]) {
      assert WorkerOk(s, s.workers[i]);
    }
  }

  lemma StepKeeps(s: State, step: Step)
    requires Inv(s) && Enabled(s, step)
    ensures Inv(Do(s, step))
  {
    var s' := Do(s, step);
    match step
    case Charge(k, a) => ChargeKeeps(s, k, a);
    case Edit(limits) => NewVersionKeeps(s, s.history[|s.history| - 1].(limits := limits));
    case WriteBack(id) => NoWriteBack(s, id);
    case WriteStatus(id) => WriteStatusKeeps(s, id);
    case ReadCounter(id) => ReadKeeps(s, id);
    case ListQuota(id, _) =>
      forall i | i in s'.workers ensures WorkerOk(s', s'.workers[i]) {
        if i != id { assert WorkerOk(s, s.workers[i]); }
      }
    case Stop(id) => DropWorkerKeeps(s, id);
  }

  ghost predicate Path(s: State, steps: seq<Step>, s': State)
    decreases |steps|
  {
    if steps == [] then s' == s
    else Enabled(s, steps[0]) && Path(Do(s, steps[0]), steps[1..], s')
  }

  lemma {:induction false} PathKeeps(s: State, steps: seq<Step>, s': State)
    requires Inv(s) && Path(s, steps, s')
    ensures Inv(s') && s.history <= s'.history
    decreases |steps|
  {
    if steps != [] {
      StepKeeps(s, steps[0]);
      PathKeeps(Do(s, steps[0]), steps[1..], s');
      assert s.history <= Do(s, steps[0]).history;
    }
  }

  /** While Redis keeps its data: every counter is the sum of all charges, the recorded usage of
      each type never exceeds it and never decreases from one version of the object to a later
      one, and no loop ever writes counters back. */
  lemma SyncIsSafe(s0: State, steps: seq<Step>, s: State)
    requires Initial(s0) && Path(s0, steps, s)
    ensures s.counters == s.charged
    ensures forall v, k :: 0 <= v < |s.history| ==> UsedOf(s.history[v].status, k) <= Count(s.counters, k)
    ensures forall v, v', k :: 0 <= v < v' < |s.history| ==> UsedOf(s.history[v].status, k) <= UsedOf(s.history[v'].status, k)
    ensures forall id :: !Enabled(s, WriteBack(id))
  {
    PathKeeps(s0, steps, s);
    forall id ensures !Enabled(s, WriteBack(id)) {
      if DoneReading(s, id) { NoWriteBack(s, id); }
    }
  }

  // ---------------------------------------------------------------------------------------
  // What the loops record

  /** A status write on a current copy adds a version that records, for every type, the largest of the
      usage recorded before and the loop's readings; on an old copy it changes nothing. */
  lemma WriteStatusRecords(s: State, id: int, k: string)
    requires Inv(s) && Enabled(s, WriteStatus(id))
    ensures var s', w := Do(s, WriteStatus(id)), s.workers[id];
            && id !in s'.workers && s'.counters == s.counters
            && if w.copy != |s.history| - 1 then s'.history == s.history
               else
                 && |s'.history| == |s.history| + 1 && s.history <= s'.history
                 && s'.history[|s.history|].limits == s.history[w.copy].limits
                 && UsedOf(s'.history[|s.history|].status, k) == Peak(w.readings, k, UsedOf(s.history[w.copy].status, k))
  {
    var w := s.workers[id];
    assert WorkerOk(s, w);
    MergeIsPeak(s.history[w.copy].status, w.readings, k);
  }

  lemma {:induction false} PathConcat(s: State, a: seq<Step>, m: State, b: seq<Step>, s': State)
    requires Path(s, a, m) && Path(m, b, s')
    ensures Path(s, a + b, s')
    decreases |a|
  {
    if a == [] {
      assert a + b == b;
    } else {
      assert (a + b)[1..] == a[1..] + b;
      PathConcat(Do(s, a[0]), a[1..], m, b, s');
    }
  }

  lemma PathOne(s: State, step: Step)
    requires Enabled(s, step)
    ensures Path(s, [step], Do(s, step))
  {
    assert [step][1..] == [];
  }

  function ReadAll(counters: map<string, int>, limits: seq<string>): seq<Reading> {
    seq(|limits|, i requires 0 <= i < |limits| => Reading(limits[i], Count(counters, limits[i])))
  }

  /** `s` with a loop that has read the first `n` counters of the current version. */
  function Reader(s: State, id: int, n: nat): State
    requires s.history != [] && n <= |s.history[|s.history| - 1].limits|
  {
    var v := |s.history| - 1;
    s.(workers := s.workers[id := Worker(v, ReadAll(s.counters, s.history[v].limits)[..n])])
  }

  lemma {:induction false} ReadRun(s: State, id: int, n: nat) returns (steps: seq<Step>)
    requires id !in s.workers && s.history != [] && n <= |s.history[|s.history| - 1].limits|
    ensures Path(s, steps, Reader(s, id, n))
  {
    var v := |s.history| - 1;
    if n == 0 {
      steps := [ListQuota(id, v)];
      PathOne(s, steps[0]);
      assert ReadAll(s.counters, s.history[v].limits)[..0] == [];
    } else {
      var a := ReadRun(s, id, n - 1);
      var m, all := Reader(s, id, n - 1), ReadAll(s.counters, s.history[v].limits);
      PathOne(m, ReadCounter(id));
      assert all[..n] == all[..n - 1] + [all[n - 1]];
      assert Do(m, ReadCounter(id)).workers == Reader(s, id, n).workers;
      PathConcat(s, a, m, [ReadCounter(id)], Reader(s, id, n));
      steps := a + [ReadCounter(id)];
    }
  }

  /** The loop's last step, once it has read everything. */
  function Last(s: State, id: int): Step
    requires DoneReading(s, id)
  {
    if MergeOf(s, id).updateObject then WriteStatus(id) else Stop(id)
  }

  /** The newest version, once a loop with a current copy has ended. */
  lemma LastRecords(s: State, id: int, k: string)
    requires DoneReading(s, id) && s.workers[id].copy == |s.history| - 1 && NonNegative(s.workers[id].readings)
    ensures var s', q, w := Do(s, Last(s, id)), s.history[|s.history| - 1], s.workers[id];
            && s'.history != [] && s'.counters == s.counters && s'.workers == s.workers - {id}
            && s'.history[|s'.history| - 1].limits == q.limits
            && UsedOf(s'.history[|s'.history| - 1].status, k) == Peak(w.readings, k, UsedOf(q.status, k))
  {
    var q, w := s.history[|s.history| - 1], s.workers[id];
    MergeIsPeak(q.status, w.readings, k);
    QuietMerge(q.status, w.readings);
  }

  /** What an undisturbed loop has done when it ends. */
  ghost predicate Recorded(s: State, s': State)
    requires s.history != []
  {
    var q := s.history[|s.history| - 1];
    && s'.history != [] && s'.counters == s.counters && s'.workers == s.workers && s'.history[|s'.history| - 1].limits == q.limits
    && forall k :: k in q.limits ==>
         UsedOf(s'.history[|s'.history| - 1].status, k) == Max(UsedOf(q.status, k), Count(s.counters, k))
  }

  lemma LastOfReader(s: State, id: int)
    requires s.history != [] && id !in s.workers && forall k :: Count(s.counters, k) >= 0
    ensures var m := Reader(s, id, |s.history[|s.history| - 1].limits|);
            DoneReading(m, id) && Recorded(s, Do(m, Last(m, id)))
  {
    var q := s.history[|s.history| - 1];
    var n, all := |q.limits|, ReadAll(s.counters, q.limits);
    var m := Reader(s, id, n);
    assert all[..n] == all && m.workers - {id} == s.workers;
    var s' := Do(m, Last(m, id));
    LastRecords(m, id, "");
    forall k | k in q.limits
      ensures UsedOf(s'.history[|s'.history| - 1].status, k) == Max(UsedOf(q.status, k), Count(s.counters, k))
    {
      LastRecords(m, id, k);
      PeakOfAll(s.counters, q, k);
    }
  }

  /** Undisturbed, a loop ends with the usage of every limit recorded as its counter has it. */
  lemma SyncRecords(s: State, id: int) returns (steps: seq<Step>, s': State)
    requires Inv(s) && s.history != [] && id !in s.workers
    ensures Path(s, steps, s') && Recorded(s, s')
    ensures forall k :: k in s.history[|s.history| - 1].limits ==>
              UsedOf(s'.history[|s'.history| - 1].status, k) == Count(s'.counters, k)
  {
    var n := |s.history[|s.history| - 1].limits|;
    var a := ReadRun(s, id, n);
    var m := Reader(s, id, n);
    LastOfReader(s, id);
    s' := Do(m, Last(m, id));
    PathOne(m, Last(m, id));
    PathConcat(s, a, m, [Last(m, id)], s');
    steps := a + [Last(m, id)];
  }

  /** A merge that does not ask for the object to be updated has not changed it. */
  lemma {:induction false} QuietMerge(status: seq<QuotaStatus>, readings: seq<Reading>)
    requires NonNegative(readings)
    ensures Merge(status, readings).updateObject || Merge(status, readings).status == status
  {
    if readings != [] {
      var n := |readings| - 1;
      QuietMerge(status, readings[..n]);
      MergeOneUsed(Merge(status, readings[..n]), readings[n], "");
    }
  }

  /** Reading all counters of a quota. */
  lemma PeakOfAll(counters: map<string, int>, q: Quota, k: string)
    requires k in q.limits
    ensures Peak(ReadAll(counters, q.limits), k, UsedOf(q.status, k)) == Max(UsedOf(q.status, k), Count(counters, k))
  {
    var all := ReadAll(counters, q.limits);
    PeakIsLargest(all, k, UsedOf(q.status, k));
    var i :| 0 <= i < |q.limits| && q.limits[i] == k;
    assert all[i] == Reading(k, Count(counters, k));
  }

  // ---------------------------------------------------------------------------------------
  // After a Redis loss

  /** One undisturbed pass of the loop. */
  function Pass(counters: map<string, int>, q: Quota): (map<string, int>, Quota) {
    var m := Merge(q.status, ReadAll(counters, q.limits));
    (if m.updateQuota then Zeroed(counters, q.limits) else counters,
     if m.updateObject then q.(status := m.status) else q)
  }

  /** The loop's work on one quota: read its counters, merge, write back, update the object. */
  class Provider {
    var counters: map<string, int>
    var quota: Quota

    method SyncQuota()
      modifies this
      ensures (counters, quota) == Pass(old(counters), old(quota))
    {
      var readings := [];
      for i := 0 to |quota.limits|
        invariant readings == ReadAll(counters, quota.limits)[..i]
      {
        readings := readings + [Reading(quota.limits[i], Count(counters, quota.limits[i]))];
      }
      assert readings == ReadAll(counters, quota.limits);
      var m := SyncStatus(quota.status, readings);
      if m.updateQuota {
        SetToZero();
      }
      if m.updateObject {
        quota := quota.(status := m.status);
      }
    }

    /** Every request of the read is set, in order, to what it asked for, which is 0. */
    method SetToZero()
      modifies `counters
      ensures counters == Zeroed(old(counters), quota.limits)
    {
      var limits := quota.limits;
      assert counters == Zeroed(counters, limits[..0]);
      for i := 0 to |limits|
        invariant counters == Zeroed(old(counters), limits[..i])
      {
        counters := counters[limits[i] := 0];
        assert limits[..i + 1] == limits[..i] + [limits[i]];
      }
      assert limits[..|limits|] == limits;
    }
  }

  /** A pass leaves every limit recorded with the larger of its recorded usage and its counter. */
  lemma PassRecords(counters: map<string, int>, q: Quota, k: string)
    requires (forall c :: Count(counters, c) >= 0) && k in q.limits
    ensures UsedOf(Pass(counters, q).1.status, k) == Max(UsedOf(q.status, k), Count(counters, k))
    ensures Pass(counters, q).1.limits == q.limits
  {
    var all := ReadAll(counters, q.limits);
    MergeIsPeak(q.status, all, k);
    PeakOfAll(counters, q, k);
    QuietMerge(q.status, all);
  }

  /** The recorded usage of some type is ahead of its counter. */
  predicate Lagging(counters: map<string, int>, q: Quota) {
    exists i :: 0 <= i < |q.limits| && UsedOf(q.status, q.limits[i]) > Count(counters, q.limits[i])
  }

  lemma {:induction false} LaggingWritesBack(status: seq<QuotaStatus>, readings: seq<Reading>, i: nat)
    requires NonNegative(readings) && i < |readings| && UsedOf(status, readings[i].kind) > readings[i].current
    ensures Merge(status, readings).updateQuota
  {
    var n := |readings| - 1;
    var init := readings[..n];
    assert forall j :: 0 <= j < n ==> init[j] == readings[j];
    if i < n {
      LaggingWritesBack(status, init, i);
      MergeOneUsed(Merge(status, init), readings[n], "");
    } else {
      var kind := readings[n].kind;
      MergeIsPeak(status, init, kind);
      PeakIsLargest(init, kind, UsedOf(status, kind));
      MergeOneUsed(Merge(status, init), readings[n], kind);
    }
  }

  /** A pass writes counters back exactly when some recorded usage is ahead of its counter. */
  lemma WriteBackIff(counters: map<string, int>, q: Quota)
    requires forall k :: Count(counters, k) >= 0
    ensures Merge(q.status, ReadAll(counters, q.limits)).updateQuota <==> Lagging(counters, q)
  {
    var readings := ReadAll(counters, q.limits);
    if Lagging(counters, q) {
      var i :| 0 <= i < |q.limits| && UsedOf(q.status, q.limits[i]) > Count(counters, q.limits[i]);
      LaggingWritesBack(q.status, readings, i);
    } else {
      FreshNeedsNoWriteBack(q.status, readings);
    }
  }

  /** A pass leaves every counter at the larger of its value and the recorded usage if and only if
      no recorded usage was ahead of its counter: the write-back stores 0, not the recorded usage,
      and it does so for every type of the quota. */
  lemma RestoresIff(counters: map<string, int>, q: Quota)
    requires forall k :: Count(counters, k) >= 0
    ensures (forall i :: 0 <= i < |q.limits| ==>
               Count(Pass(counters, q).0, q.limits[i]) == Max(UsedOf(q.status, q.limits[i]), Count(counters, q.limits[i])))
            <==> !Lagging(counters, q)
  {
    WriteBackIff(counters, q);
    if Lagging(counters, q) {
      var i :| 0 <= i < |q.limits| && UsedOf(q.status, q.limits[i]) > Count(counters, q.limits[i]);
      assert Count(Pass(counters, q).0, q.limits[i]) == 0;
    }
  }

  /** Counters after a round of charges. */
  function AddAll(counters: map<string, int>, round: map<string, nat>): map<string, int> {
    map k | k in counters.Keys + round.Keys :: Count(counters, k) + if k in round then round[k] else 0
  }

  function Rounds(counters: map<string, int>, q: Quota, rounds: seq<map<string, nat>>): (map<string, int>, Quota) {
    if rounds == [] then (counters, q)
    else
      var (c, q') := Rounds(counters, q, rounds[..|rounds| - 1]);
      Pass(AddAll(c, rounds[|rounds| - 1]), q')
  }

  /** A loss does not heal: as long as no single round between two passes charges type `kind` as
      much as was recorded before the loss, every pass resets every counter of the quota to 0,
      however many rounds there are. */
  lemma {:induction false} LossDoesNotHeal(q: Quota, kind: string, rounds: seq<map<string, nat>>)
    requires kind in q.limits && UsedOf(q.status, kind) > 0
    requires forall i :: 0 <= i < |rounds| ==> (if kind in rounds[i] then rounds[i][kind] else 0) < UsedOf(q.status, kind)
    ensures var (c, q') := Rounds(map[], q, rounds);
            && (forall k :: Count(c, k) >= 0)
            && (forall k :: k in q.limits ==> Count(c, k) == 0)
            && q'.limits == q.limits && UsedOf(q'.status, kind) == UsedOf(q.status, kind)
  {
    if rounds != [] {
      var n := |rounds| - 1;
      LossDoesNotHeal(q, kind, rounds[..n]);
      var (c, q') := Rounds(map[], q, rounds[..n]);
      var c1 := AddAll(c, rounds[n]);
      var i :| 0 <= i < |q.limits| && q.limits[i] == kind;
      assert Count(c1, kind) < UsedOf(q'.status, kind);
      WriteBackIff(c1, q');
      var readings := ReadAll(c1, q'.limits);
      MergeIsPeak(q'.status, readings, kind);
      PeakBounds(readings, kind, UsedOf(q'.status, kind), UsedOf(q'.status, kind));
    }
  }
}
