/** Whether a capture's Delete can hit a snapshot that is ready and not rolled back at that moment. */
module CaptureRaces {
  import opened Conditions
  import opened TscInverse
  import opened SnapshotApi
  import opened SnapshotCluster
  import opened SnapshotStatus
  import opened Capture

  /** A write request as a capture sends it, by whatever replica. */
  ghost predicate ByCapture(st: ApiState, op: Op, finalizer: string) {
    match op
    case Create(_) => true
    case UpdateStatus(obj) => Outcome(st, op) == Ok ==> exists id :: ReadySet(st.objs[obj.name], obj, id)
    case PatchFinalizers(_, fs) => finalizer in fs
    case Delete(_) => true
    case UpdateSpec(_) => false
  }

  ghost predicate ReadySet(snap: Snapshot, obj: Snapshot, id: Identity) {
    StatusSet(snap, obj, ReadyCondition(id), id.generation)
  }

  ghost predicate AllByCapture(st: ApiState, ops: seq<Op>, finalizer: string) {
    ops == [] ||
    (AllByCapture(st, ops[..|ops| - 1], finalizer) && ByCapture(RunWrites(st, ops[..|ops| - 1]), ops[|ops| - 1], finalizer))
  }

  /** These are the requests that a call's safe events consist of. */
  lemma SafeIsByCapture(ev: seq<Event>, i: nat, ctx: Context)
    requires i < |ev| && ev[i].Wrote? && SafeAt(ev, i, ctx)
    ensures ByCapture(ev[i].before, ev[i].op, ctx.finalizer)
  {
    hide StatusSet, Valid, KeepsSpecs, CreatedBefore, ReadRolledBack, Apply;
    if ev[i].op.UpdateStatus? {
      var obj := ev[i].op.obj;
      assert ReadySet(ev[i].before.objs[obj.name], obj, ctx.id);
    }
  }

  predicate ProtectedAt(st: ApiState, name: string) { name in st.objs && Protected(st.objs[name]) }

  /** The Delete that follows a read of a rolled-back snapshot hits no protected snapshot unless the stored one has
      another resource version than the one read. */
  lemma DeleteHitsOnlyNewer(ev: seq<Event>, i: nat, ctx: Context)
    requires i < |ev| && ev[i].Wrote? && ev[i].op.Delete? && SafeAt(ev, i, ctx)
    requires ProtectedAt(ev[i].before, ev[i].op.name)
    ensures CreatedBefore(ev, i, ev[i].op.name)
            || (ctx.first.Found? && ev[i].before.objs[ev[i].op.name].rv != ctx.first.value.rv)
  {
    hide CreatedBefore, IsReady, IsRolledBack, Valid, KeepsSpecs;
  }

  // ----- with finalizers nothing happens to it -----

  ghost predicate Held(st: ApiState, name: string) {
    Valid(st) && name in st.objs && IsRolledBack(st.objs[name].conditions) && st.objs[name].finalizers != []
  }

  lemma StatusKeepsRolledBack(snap: Snapshot, obj: Snapshot, id: Identity)
    requires ReadySet(snap, obj, id) && IsRolledBack(snap.conditions)
    ensures IsRolledBack(obj.conditions)
  {
    var t: int :| obj == snap.(conditions := Set(snap.conditions, ReadyCondition(id), t), observedGeneration := id.generation);
    SetIsLocal(snap.conditions, ReadyCondition(id), t, ROLLED_BACK);
    hide Set, Find;
  }

  lemma HeldStays(st: ApiState, op: Op, name: string, finalizer: string)
    requires Held(st, name) && ByCapture(st, op, finalizer) && Outcome(st, op) == Ok
    ensures Held(Apply(st, op), name)
  {
    ApplyInterferes(st, op);
    if op.UpdateStatus? {
      var id :| ReadySet(st.objs[op.obj.name], op.obj, id);
      if op.obj.name == name {
        StatusKeepsRolledBack(st.objs[name], op.obj, id);
      }
    }
    hide IsRolledBack, ReadySet, DecodeSpec, EncodeSpec, Interferes;
  }

  lemma {:induction false} HeldThroughout(st: ApiState, ops: seq<Op>, name: string, finalizer: string)
    requires Held(st, name) && AllByCapture(st, ops, finalizer)
    ensures Held(RunWrites(st, ops), name)
  {
    if ops != [] {
      var before, op := RunWrites(st, ops[..|ops| - 1]), ops[|ops| - 1];
      HeldThroughout(st, ops[..|ops| - 1], name, finalizer);
      if Outcome(before, op) == Ok {
        HeldStays(before, op, name, finalizer);
      }
      hide Held, ByCapture, Outcome, Apply;
    }
  }

  // ----- without, another replica may be faster -----

  /** Another capture between the read and the Delete: it deletes the rolled-back snapshot and stores a ready one. */
  function Faster(st: ApiState, obj: Snapshot, id: Identity): seq<Op> {
    var created := RunWrites(st, [Delete(obj.name), Create(obj)]);
    var snap := if obj.name in created.objs then created.objs[obj.name] else obj;
    [Delete(obj.name), Create(obj),
     UpdateStatus(snap.(conditions := Set(snap.conditions, ReadyCondition(id), 0), observedGeneration := id.generation))]
  }

  lemma Steps(st: ApiState, ops: seq<Op>, op: Op, finalizer: string)
    ensures RunWrites(st, ops + [op]) == (var b := RunWrites(st, ops); if Outcome(b, op) == Ok then Apply(b, op) else b)
    ensures AllByCapture(st, ops + [op], finalizer) <==> AllByCapture(st, ops, finalizer) && ByCapture(RunWrites(st, ops), op, finalizer)
  {
    assert (ops + [op])[..|ops|] == ops;
  }

  lemma FasterIsReady(st: ApiState, obj: Snapshot, id: Identity, finalizer: string)
    requires Valid(st) && obj.name in st.objs && st.objs[obj.name].finalizers == []
    ensures AllByCapture(st, Faster(st, obj, id), finalizer) && ProtectedAt(RunWrites(st, Faster(st, obj, id)), obj.name)
  {
    var name, ops := obj.name, Faster(st, obj, id);
    var dropped := Drop(st, name);
    Steps(st, [], Delete(name), finalizer);
    assert [] + [Delete(name)] == [Delete(name)];
    assert RunWrites(st, [Delete(name)]) == dropped;
    Steps(st, [Delete(name)], Create(obj), finalizer);
    assert [Delete(name)] + [Create(obj)] == [Delete(name), Create(obj)];
    var created := RunWrites(st, [Delete(name), Create(obj)]);
    assert created == Apply(dropped, Create(obj));
    var snap, ready := created.objs[name], ops[2].obj;
    assert snap.conditions == [] && snap.name == name;
    assert ReadySet(snap, ready, id);
    Steps(st, [Delete(name), Create(obj)], UpdateStatus(ready), finalizer);
    assert [Delete(name), Create(obj)] + [UpdateStatus(ready)] == ops;
    hide RunWrites, DecodeSpec, EncodeSpec, AllByCapture;
    ReadyAlone(id);
  }

  lemma ReadyAlone(id: Identity)
    ensures var cs := Set([], ReadyCondition(id), 0); IsReady(cs) && !IsRolledBack(cs)
  {
    var cs := Set([], ReadyCondition(id), 0);
    assert cs == [ReadyCondition(id)];
    FirstIs(cs, READY, 0);
    FirstIs(cs, ROLLED_BACK, 1);
  }

  /** A snapshot was read as rolled back. Other captures can put a ready one in its place before the Delete arrives
      if and only if it has no finalizers, which is also when recapturing works at all. Nothing in the Delete tells
      the two apart. */
  lemma DeleteRaceIff(st: ApiState, name: string, finalizer: string)
    requires Valid(st) && name in st.objs && IsRolledBack(st.objs[name].conditions)
    ensures (exists ops :: AllByCapture(st, ops, finalizer) && ProtectedAt(RunWrites(st, ops), name)) <==> st.objs[name].finalizers == []
  {
    if st.objs[name].finalizers == [] {
      var id := Identity(TargetRef("", "", "", "", ""), 0, map[]);
      FasterIsReady(st, st.objs[name], id, finalizer);
    } else {
      forall ops | AllByCapture(st, ops, finalizer) ensures !ProtectedAt(RunWrites(st, ops), name) {
        HeldThroughout(st, ops, name, finalizer);
      }
    }
    hide Valid, RunWrites, AllByCapture, IsReady, IsRolledBack, Faster;
  }

  /** The other Delete cleans up after a failed status write. One that was applied although it reported a failure has
      made the snapshot ready, and the Delete hits it: the finalizer keeps it stored as it is, marked for deletion. */
  lemma CleanupHitsReady(a: ApiState, b: ApiState, obj: Snapshot, id: Identity, finalizer: string)
    requires Valid(b) && FreshlyCaptured(a, b, obj, id, finalizer)
    ensures ProtectedAt(b, obj.name) && Outcome(b, Delete(obj.name)) == Ok
    ensures
      var c := Apply(b, Delete(obj.name)).objs;
      obj.name in c && c[obj.name] == b.objs[obj.name].(deleting := true, rv := c[obj.name].rv)
  {
    var s := b.objs[obj.name];
    var t: int :| s.conditions == [ReadyCondition(id).(lastTransition := t)];
    FirstIs(s.conditions, READY, 0);
    FirstIs(s.conditions, ROLLED_BACK, 1);
    assert finalizer in s.finalizers;
    hide DecodeSpec, EncodeSpec;
  }
}
