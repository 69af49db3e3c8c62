/** What the model and the application controller share: condition lists, finalizer lists, and how
    an API call may end. */
module Objects {
  import opened Wrappers

  /** Both objects carry three condition types. `Prepared` is Precheck for an application and
      StorageCreated for a model. */
  datatype Kind = Prepared | Loaded | Ready

  datatype Cond = Cond(kind: Kind, status: bool)

  /** How an API call ends: it works, it is refused, or its effect happens but the answer is lost. */
  datatype Outcome = Works | Refused | Lost

  // ---------------------------------------------------------------------------------------
  // Condition lists

  /** Position of the first condition of a type, or the length. */
  function Find(conds: seq<Cond>, kind: Kind): (i: nat)
    ensures i <= |conds|
    ensures i < |conds| ==> conds[i].kind == kind
    ensures forall j :: 0 <= j < i ==> conds[j].kind != kind
  {
    if conds == [] || conds[0].kind == kind then 0 else 1 + Find(conds[1..], kind)
  }

  /** The first condition of the type is true; a missing one is not. */
  predicate IsTrue(conds: seq<Cond>, kind: Kind) {
    var i := Find(conds, kind);
    i < |conds| && conds[i].status
  }

  function Update(conds: seq<Cond>, kind: Kind, status: bool): seq<Cond> {
    var i := Find(conds, kind);
    if i < |conds| then conds[i := Cond(kind, status)] else conds + [Cond(kind, status)]
  }

  function Initialize(conds: seq<Cond>): seq<Cond> {
    if conds != [] then conds else [Cond(Prepared, false), Cond(Loaded, false), Cond(Ready, false)]
  }

  method CheckCondition(conds: seq<Cond>, kind: Kind) returns (r: bool)
    ensures r == IsTrue(conds, kind)
  {
    for i := 0 to |conds|
      invariant forall j :: 0 <= j < i ==> conds[j].kind != kind
    {
      if conds[i].kind == kind {
        FindIs(conds, kind, i);
        return conds[i].status;
      }
    }
    FindIs(conds, kind, |conds|);
    return false;
  }

  /** Sets the first condition of the type in place, or hands back one to append. */
  method UpdateCondition(a: array<Cond>, kind: Kind, status: bool) returns (appended: seq<Cond>)
    modifies a
    ensures a[..] + appended == Update(old(a[..]), kind, status)
    ensures |appended| <= 1
  {
    for i := 0 to a.Length
      invariant a[..] == old(a[..])
      invariant forall j :: 0 <= j < i ==> a[j].kind != kind
    {
      if a[i].kind == kind {
        FindIs(a[..], kind, i);
        a[i] := Cond(kind, status);
        assert a[..] == old(a[..])[i := Cond(kind, status)];
        return [];
      }
    }
    FindIs(a[..], kind, a.Length);
    return [Cond(kind, status)];
  }

  lemma FindIs(conds: seq<Cond>, kind: Kind, i: nat)
    requires i <= |conds| && (i < |conds| ==> conds[i].kind == kind)
    requires forall j :: 0 <= j < i ==> conds[j].kind != kind
    ensures Find(conds, kind) == i
  {
  }

  // ---------------------------------------------------------------------------------------
  // A condition list as one optional flag per type

  datatype Flags = Flags(prepared: Option<bool>, loaded: Option<bool>, ready: Option<bool>)

  const NO_FLAGS := Flags(None, None, None)
  const NEW_FLAGS := Flags(Some(false), Some(false), Some(false))

  function Flag(f: Flags, kind: Kind): Option<bool> {
    match kind
    case Prepared => f.prepared
    case Loaded => f.loaded
    case Ready => f.ready
  }

  predicate On(f: Flags, kind: Kind) { Flag(f, kind) == Some(true) }

  function Put(f: Flags, kind: Kind, status: bool): Flags {
    match kind
    case Prepared => f.(prepared := Some(status))
    case Loaded => f.(loaded := Some(status))
    case Ready => f.(ready := Some(status))
  }

  function Begin(f: Flags): Flags { if f == NO_FLAGS then NEW_FLAGS else f }

  predicate AllSet(f: Flags) { f.prepared.Some? && f.loaded.Some? && f.ready.Some? }

  function First(conds: seq<Cond>, kind: Kind): Option<bool> {
    var i := Find(conds, kind);
    if i < |conds| then Some(conds[i].status) else None
  }

  function FlagsOf(conds: seq<Cond>): Flags { Flags(First(conds, Prepared), First(conds, Loaded), First(conds, Ready)) }

  predicate NoRepeats(conds: seq<Cond>) {
    forall i, j :: 0 <= i < j < |conds| ==> conds[i].kind != conds[j].kind
  }

  lemma FlagsOfEmptyIff(conds: seq<Cond>)
    ensures FlagsOf(conds) == NO_FLAGS <==> conds == []
  {
    if conds != [] { FindIs(conds, conds[0].kind, 0); }
  }

  /** The three list operations, on any list, are the three operations on flags. */
  lemma FlagsSimulateLists(conds: seq<Cond>, kind: Kind, status: bool)
    ensures IsTrue(conds, kind) == On(FlagsOf(conds), kind)
    ensures FlagsOf(Update(conds, kind, status)) == Put(FlagsOf(conds), kind, status)
    ensures FlagsOf(Initialize(conds)) == Begin(FlagsOf(conds))
  {
    FlagsOfEmptyIff(conds);
    forall k ensures First(Update(conds, kind, status), k) == if k == kind then Some(status) else First(conds, k) {
      UpdateFirst(conds, kind, status, k);
    }
    var start := [Cond(Prepared, false), Cond(Loaded, false), Cond(Ready, false)];
    FindIs(start, Prepared, 0);
    FindIs(start, Loaded, 1);
    FindIs(start, Ready, 2);
  }

  lemma UpdateFirst(conds: seq<Cond>, kind: Kind, status: bool, k: Kind)
    ensures First(Update(conds, kind, status), k) == if k == kind then Some(status) else First(conds, k)
  {
    var i, n := Find(conds, kind), Find(conds, k);
    var conds' := Update(conds, kind, status);
    if k == kind {
      FindIs(conds', k, i);
    } else if n < |conds| {
      FindIs(conds', k, n);
    } else {
      FindIs(conds', k, |conds'|);
    }
  }

  /** A list whose types do not repeat keeps that through every update and initialisation. */
  lemma NoRepeatsKept(conds: seq<Cond>, kind: Kind, status: bool)
    requires NoRepeats(conds)
    ensures NoRepeats(Update(conds, kind, status)) && NoRepeats(Initialize(conds))
  {
    var conds' := Update(conds, kind, status);
    assert forall i :: 0 <= i < |conds| ==> conds'[i].kind == conds[i].kind;
  }

  /** When no type repeats and every type has a flag, there is exactly one condition of each. */
  lemma OnePerType(conds: seq<Cond>)
    requires NoRepeats(conds) && AllSet(FlagsOf(conds))
    ensures |conds| == 3 && forall k: Kind :: Find(conds, k) < 3
  {
    var p, l, r := Find(conds, Prepared), Find(conds, Loaded), Find(conds, Ready);
    assert conds[p].kind == Prepared && conds[l].kind == Loaded && conds[r].kind == Ready;
    assert forall i :: 0 <= i < |conds| ==> conds[i].kind == Prepared || conds[i].kind == Loaded || conds[i].kind == Ready;
  }

  // ---------------------------------------------------------------------------------------
  // Finalizers

  /** `Ours` is the finalizer of the controller at hand. */
  datatype Finalizer = Ours | Other(name: string)

  function WithFinalizer(fs: seq<Finalizer>, f: Finalizer): seq<Finalizer> {
    if f in fs then fs else fs + [f]
  }

  function WithoutFinalizer(fs: seq<Finalizer>, f: Finalizer): seq<Finalizer> {
    if fs == [] then []
    else WithoutFinalizer(fs[..|fs| - 1], f) + if fs[|fs| - 1] != f then [fs[|fs| - 1]] else []
  }

  method HasFinalizer(fs: seq<Finalizer>, f: Finalizer) returns (r: bool)
    ensures r <==> f in fs
  {
    for i := 0 to |fs|
      invariant f !in fs[..i]
    {
      if fs[i] == f {
        return true;
      }
    }
    return false;
  }

  method RemoveFinalizer(fs: seq<Finalizer>, f: Finalizer) returns (filtered: seq<Finalizer>)
    ensures filtered == WithoutFinalizer(fs, f)
  {
    filtered := [];
    for i := 0 to |fs|
      invariant filtered == WithoutFinalizer(fs[..i], f)
    {
      assert fs[..i + 1][..i] == fs[..i];
      if fs[i] != f {
        filtered := filtered + [fs[i]];
      }
    }
    assert fs[..|fs|] == fs;
  }

  /** Removing takes out every occurrence and nothing else. */
  lemma {:induction false} WithoutHas(fs: seq<Finalizer>, f: Finalizer, g: Finalizer)
    ensures g in WithoutFinalizer(fs, f) <==> g in fs && g != f
  {
    if fs != [] {
      WithoutHas(fs[..|fs| - 1], f, g);
      assert fs == fs[..|fs| - 1] + [fs[|fs| - 1]];
    }
  }

  lemma {:induction false} WithoutAbsent(fs: seq<Finalizer>, f: Finalizer)
    requires f !in fs
    ensures WithoutFinalizer(fs, f) == fs
  {
    if fs != [] {
      var n := |fs| - 1;
      WithoutAbsent(fs[..n], f);
      assert fs == fs[..n] + [fs[n]];
    }
  }

  /** Removing undoes adding. */
  lemma RemovingUndoesAdding(fs: seq<Finalizer>, f: Finalizer)
    requires f !in fs
    ensures WithoutFinalizer(WithFinalizer(fs, f), f) == fs
  {
    WithoutAbsent(fs, f);
    assert (fs + [f])[..|fs|] == fs;
  }
}
