/** What a capture is worth to a later rollback, and when it does not happen although no error is returned. */
module CaptureTheorems {
  import opened Basics
  import opened Conditions
  import opened TscInverse
  import opened SnapshotApi
  import opened SnapshotCluster
  import opened RollbackModel
  import opened RollbackTheorems
  import opened Capture
  import opened TscCapture

  /** Without failing calls and other writers, a call returns no error and leaves a snapshot that is ready and not
      rolled back exactly when there was such a snapshot, or a rolled-back one without finalizers, or none for a
      workload that is not managed. In particular the code's comment that a partial snapshot is overwritten does not
      hold, nor that a rolled-back one is always recaptured. */
  lemma ReadyAfterwardsIff(a: ApiState, b: ApiState, r: Result, name: string, managed: bool, obj: Snapshot, id: Identity,
                           finalizer: string)
    requires Valid(a) && obj.name == name && Expected(a, b, r, name, managed, Some(obj), id, finalizer)
    ensures r != Error
    ensures name in b.objs && Protected(b.objs[name]) <==>
            if name !in a.objs then !managed
            else Protected(a.objs[name]) || (IsRolledBack(a.objs[name].conditions) && a.objs[name].finalizers == [])
  {
    if name in a.objs {
      DeletionMarks(a, name);
    }
    if r == Stored {
      var t: int :| b.objs[name].conditions == [ReadyCondition(id).(lastTransition := t)];
      FirstIs(b.objs[name].conditions, READY, 0);
      FirstIs(b.objs[name].conditions, ROLLED_BACK, 1);
    }
    hide DecodeSpec, EncodeSpec, StatusOf;
  }

  /** The one condition of a snapshot just captured. */
  lemma FreshCondition(a: ApiState, b: ApiState, obj: Snapshot, id: Identity, finalizer: string)
    requires FreshlyCaptured(a, b, obj, id, finalizer)
    ensures
      var s := b.objs[obj.name];
      && |s.conditions| == 1 && s.observedGeneration == id.generation && finalizer in s.finalizers
      && var c := s.conditions[0];
         && c.kind == "Ready" && c.status == True && c.reason == "Captured" && c.observedGeneration == id.generation
         && c.message == "Original state captured for " + id.target.kind + " " + id.target.ns + "/" + id.target.name
  {
    hide DecodeSpec, EncodeSpec;
  }

  /** A concrete case: a capture that died after Create left a snapshot without conditions. Every later call returns
      without an error and leaves it so, with the older specification. */
  lemma PartialSnapshotStays(target: TargetRef, before: Slice, current: Slice, id: Identity, finalizer: string)
    ensures
      var partial := Snapshot("snap", DecodeSpec(EncodeSpec(Captured(target, before))), [], 0, [finalizer], 1, false, 1);
      var a := ApiState(map["snap" := partial], 1);
      && Valid(a) && !Protected(partial)
      && forall b, r :: Expected(a, b, r, "snap", false, NewTscSnapshot("snap", current)(id), id, finalizer) ==> r == Raced && b == a
  {
    hide DecodeSpec, EncodeSpec, FreshlyCaptured;
    assert Find([], READY) == None && Find([], ROLLED_BACK) == None;
  }

  /** What is stored names the workload it was taken from, and tells an absent field from an empty list. */
  lemma StoredNamesTarget(a: ApiState, b: ApiState, name: string, current: Slice, id: Identity, finalizer: string)
    requires FreshlyCaptured(a, b, NewTscSnapshot(name, current)(id).value, id, finalizer)
    ensures
      && name in b.objs && b.objs[name].name == name && b.objs[name].spec.target == id.target
      && b.objs[name].spec == DecodeSpec(EncodeSpec(Captured(id.target, current)))
      && (b.objs[name].spec.present <==> current != Nil)
  {
    SpecRoundTrip(Captured(id.target, current));
    hide DecodeSpec, EncodeSpec;
  }

  /** A captured value survives storage, any changes to the workload, and failing rollback runs: the first
      failure-free run brings it back, and leaves everything else of the workload as it has become. All it takes is that
      the workload is still there under its UID and its snapshot has not been rolled back. */
  lemma CaptureThenRollback(a: ApiState, b: ApiState, name: string, current: Slice, id: Identity, finalizer: string,
                            w0: World, w1: World, w2: World, done: set<string>, q: seq<string>)
    requires FreshlyCaptured(a, b, NewTscSnapshot(name, current)(id).value, id, finalizer)
    requires name in w0.snaps && w0.snaps[name].spec == b.objs[name].spec && !IsRolledBack(w0.snaps[name].conditions)
    requires id.target.kind == "Deployment" || id.target.kind == "StatefulSet"
    requires
      var r := Ref(id.target.kind, id.target.ns, id.target.name);
      r in w0.workloads && w0.workloads[r].uid == id.target.uid
    requires OnePerWorkload(w0) && Progress(w0, w1, done, finalizer) && RollsBack(w1, w2, finalizer)
    ensures
      var r := Ref(id.target.kind, id.target.ns, id.target.name);
      && r in w2.workloads && Constraints(w2.workloads[r].doc) == current
      && (!Prefix(q, TSC_PATH) && !Prefix(TSC_PATH, q) ==> ValueAt(w2.workloads[r].doc, q) == ValueAt(w0.workloads[r].doc, q))
  {
    hide DecodeSpec, EncodeSpec, Captured, Progress, RollsBack, OnePerWorkload, Constraints, ValueAt, Prefix, FreshlyCaptured,
         NewTscSnapshot;
    StoredNamesTarget(a, b, name, current, id, finalizer);
    var r := Ref(id.target.kind, id.target.ns, id.target.name);
    PendingIsDue(w0, name, r);
    hide Due;
    CapturedComesBack(w0, w1, w2, done, finalizer, name, r, id.target, current, q);
  }

  lemma PendingIsDue(w: World, name: string, r: Ref)
    requires name in w.snaps && !IsRolledBack(w.snaps[name].conditions) && r in w.workloads
    requires
      var t := w.snaps[name].spec.target;
      (t.kind == "Deployment" || t.kind == "StatefulSet") && r == Ref(t.kind, t.ns, t.name) && w.workloads[r].uid == t.uid
    ensures Due(w, name, r)
  {}
}
