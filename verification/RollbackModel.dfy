/** What a rollback run may leave behind, what a failure-free one does, and why repeating it after a failure ends in
    the same place. */
module RollbackModel {
  import opened JsonMergePatch
  import opened Conditions
  import opened Finalizers
  import opened TscInverse
  import opened SnapshotApi
  import opened SnapshotCluster

  const APPLIED := "RollbackApplied"
  const TARGET_GONE := "TargetGone"
  const FAILED := "RollbackFailed"

  datatype World = World(workloads: map<Ref, StoredWorkload>, snaps: map<string, Snapshot>)

  function RefOf(s: Snapshot): Ref { Ref(s.spec.target.kind, s.spec.target.ns, s.spec.target.name) }

  /** The kinds of workload that can be looked up. */
  predicate Supported(s: Snapshot) { s.spec.target.kind == "Deployment" || s.spec.target.kind == "StatefulSet" }

  predicate Pending(s: Snapshot) { !IsRolledBack(s.conditions) }

  /** The snapshot's target exists under the recorded UID. */
  predicate Hits(ws: map<Ref, StoredWorkload>, s: Snapshot) {
    Supported(s) && RefOf(s) in ws && ws[RefOf(s)].uid == s.spec.target.uid
  }

  function Restore(w: StoredWorkload, s: Snapshot): StoredWorkload { w.(doc := Merge(w.doc, InverseBody(s.spec))) }

  /** The snapshot named n is pending and its target is the workload r. */
  predicate Due(w: World, n: string, r: Ref) {
    n in w.snaps && Pending(w.snaps[n]) && Hits(w.workloads, w.snaps[n]) && RefOf(w.snaps[n]) == r
  }

  /** No workload has two pending snapshots. */
  ghost predicate OnePerWorkload(w: World) {
    forall m, n, r :: Due(w, m, r) && Due(w, n, r) ==> m == n
  }

  /** Nothing is left to do for the snapshot s: its target, if it was there, has been restored. */
  predicate Settled(w0: World, w: World, s: Snapshot) {
    Supported(s) && (Hits(w0.workloads, s) ==> RefOf(s) in w.workloads
                                               && w.workloads[RefOf(s)] == Restore(w0.workloads[RefOf(s)], s))
  }

  // ----- runs in which calls may fail -----

  ghost predicate WorkloadKept(w0: World, w: World, done: set<string>, r: Ref)
    requires r in w0.workloads && r in w.workloads
  {
    || w.workloads[r] == w0.workloads[r]
    || exists n :: n in done && Due(w0, n, r) && w.workloads[r] == Restore(w0.workloads[r], w0.snaps[n])
  }

  predicate SnapKept(w0: World, w: World, done: set<string>, n: string, finalizer: string)
    requires n in w0.snaps
  {
    var was := w0.snaps[n];
    if n in w.snaps then
      var now := w.snaps[n];
      && now.name == was.name && now.spec == was.spec && now.deleting == was.deleting
      && (now.finalizers == was.finalizers || now.finalizers == Without(was.finalizers, finalizer))
      && (n !in done || !Pending(was) ==> now == was)
      && (Pending(was) && !Pending(now) ==> Settled(w0, w, was))
    else n in done && Pending(was) && Settled(w0, w, was) && was.deleting && Without(was.finalizers, finalizer) == []
  }

  /** Whatever failed while the snapshots in `done` were gone through: a workload is as it was or restored, a
      rolled-back snapshot is as it was, and a snapshot is newly marked or gone only when nothing is left to do for
      it. */
  ghost predicate Progress(w0: World, w: World, done: set<string>, finalizer: string) {
    && w.workloads.Keys == w0.workloads.Keys && w.snaps.Keys <= w0.snaps.Keys
    && (forall r :: r in w0.workloads ==> WorkloadKept(w0, w, done, r))
    && (forall n :: n in w0.snaps ==> SnapKept(w0, w, done, n, finalizer))
  }

  // ----- failure-free runs -----

  predicate SameOtherwise(a: seq<Condition>, b: seq<Condition>, kind: string) {
    kind != ROLLED_BACK ==> Find(a, kind) == Find(b, kind)
  }

  function TargetName(s: Snapshot): string { s.spec.target.ns + "/" + s.spec.target.name }

  function MarkMessage(s: Snapshot, reason: string): string {
    if reason == APPLIED then "Rollback patch applied to " + TargetName(s)
    else "Target workload " + TargetName(s) + " is gone or UID mismatch; no rollback needed"
  }

  /** The snapshot marked for a reason, without the finalizer. */
  ghost predicate MarkedAs(was: Snapshot, now: Snapshot, reason: string, finalizer: string) {
    && now == was.(conditions := now.conditions, observedGeneration := was.generation,
                   finalizers := Without(was.finalizers, finalizer), rv := now.rv)
    && Find(now.conditions, ROLLED_BACK).Some?
    && Find(now.conditions, ROLLED_BACK).value.status == True && Find(now.conditions, ROLLED_BACK).value.reason == reason
    && Find(now.conditions, ROLLED_BACK).value.message == MarkMessage(was, reason)
    && forall kind :: SameOtherwise(was.conditions, now.conditions, kind)
  }

  /** A snapshot that is being deleted goes with its last finalizer. */
  ghost predicate Finished(was: Snapshot, snaps: map<string, Snapshot>, reason: string, finalizer: string) {
    if was.deleting && Without(was.finalizers, finalizer) == [] then was.name !in snaps
    else was.name in snaps && MarkedAs(was, snaps[was.name], reason, finalizer)
  }

  function ReasonFor(w: World, s: Snapshot): string { if Hits(w.workloads, s) then APPLIED else TARGET_GONE }

  ghost predicate SnapDone(w0: World, w: World, done: set<string>, n: string, finalizer: string)
    requires n in w0.snaps
  {
    var was := w0.snaps[n];
    if n in done && Pending(was) && Supported(was) then Finished(was, w.snaps, ReasonFor(w0, was), finalizer)
    else n in w.snaps && w.snaps[n] == was
  }

  predicate WorkloadDone(w0: World, w: World, done: set<string>, r: Ref)
    requires r in w0.workloads && r in w.workloads
  {
    && (forall n :: n in done && Due(w0, n, r) ==> w.workloads[r] == Restore(w0.workloads[r], w0.snaps[n]))
    && ((forall n :: n in done ==> !Due(w0, n, r)) ==> w.workloads[r] == w0.workloads[r])
  }

  ghost predicate Complete(w0: World, w: World, done: set<string>, finalizer: string) {
    && w.workloads.Keys == w0.workloads.Keys && w.snaps.Keys <= w0.snaps.Keys
    && (forall r :: r in w0.workloads ==> WorkloadDone(w0, w, done, r))
    && (forall n :: n in w0.snaps ==> SnapDone(w0, w, done, n, finalizer))
  }

  /** A failure-free run over all snapshots. */
  ghost predicate RollsBack(w0: World, w: World, finalizer: string) { Complete(w0, w, w0.snaps.Keys, finalizer) }

  // ----- one snapshot -----

  ghost predicate ElsewhereSame(w: World, w': World, s: Snapshot) {
    && w'.workloads.Keys == w.workloads.Keys && w'.snaps.Keys <= w.snaps.Keys
    && (forall r :: r in w.workloads && r != RefOf(s) ==> w'.workloads[r] == w.workloads[r])
    && (forall n :: n in w.snaps && n != s.name ==> n in w'.snaps && w'.snaps[n] == w.snaps[n])
  }

  /** What one pass of the loop may do to its snapshot and to the target. */
  ghost predicate PassStep(w: World, w': World, s: Snapshot, finalizer: string) {
    && ElsewhereSame(w, w', s)
    && (!Pending(s) ==> w' == w)
    && (RefOf(s) in w.workloads ==>
          || w'.workloads[RefOf(s)] == w.workloads[RefOf(s)]
          || (Pending(s) && Hits(w.workloads, s) && w'.workloads[RefOf(s)] == Restore(w.workloads[RefOf(s)], s)))
    && if s.name in w'.snaps then
         var now := w'.snaps[s.name];
         && now.name == s.name && now.spec == s.spec && now.deleting == s.deleting
         && (now.finalizers == s.finalizers || now.finalizers == Without(s.finalizers, finalizer))
         && (Pending(s) && !Pending(now) ==> Settled(w, w', s))
       else Pending(s) && Settled(w, w', s) && s.deleting && Without(s.finalizers, finalizer) == []
  }

  /** What it does when no call fails. */
  ghost predicate FullStep(w: World, w': World, s: Snapshot, finalizer: string) {
    && ElsewhereSame(w, w', s)
    && (RefOf(s) in w.workloads ==>
          w'.workloads[RefOf(s)] ==
          if Pending(s) && Hits(w.workloads, s) then Restore(w.workloads[RefOf(s)], s) else w.workloads[RefOf(s)])
    && (if Pending(s) && Supported(s) then Finished(s, w'.snaps, ReasonFor(w, s), finalizer)
        else s.name in w'.snaps && w'.snaps[s.name] == s)
  }

  lemma ProgressStarts(w0: World, finalizer: string)
    ensures Progress(w0, w0, {}, finalizer)
  {
    hide Pending, Settled;
  }

  lemma CompleteStarts(w0: World, finalizer: string)
    ensures Complete(w0, w0, {}, finalizer)
  {}

  /** While a pending snapshot has not been gone through, its target is as it was. */
  lemma TargetUntouched(w0: World, w: World, done: set<string>, n: string, finalizer: string)
    requires OnePerWorkload(w0) && Progress(w0, w, done, finalizer) && n !in done && n in w0.snaps && Pending(w0.snaps[n])
    ensures Hits(w.workloads, w0.snaps[n]) <==> Hits(w0.workloads, w0.snaps[n])
    ensures Hits(w0.workloads, w0.snaps[n]) ==> w.workloads[RefOf(w0.snaps[n])] == w0.workloads[RefOf(w0.snaps[n])]
  {
    var s := w0.snaps[n];
    var r := RefOf(s);
    hide Pending, Merge, InverseBody, SnapKept;
    if r in w0.workloads {
      assert WorkloadKept(w0, w, done, r);
      if Hits(w0.workloads, s) {
        assert Due(w0, n, r);
      }
    }
  }

  lemma ProgressStep(w0: World, w: World, w': World, done: set<string>, n: string, finalizer: string)
    requires OnePerWorkload(w0) && Progress(w0, w, done, finalizer) && n !in done && n in w0.snaps && w0.snaps[n].name == n
    requires n in w.snaps && PassStep(w, w', w0.snaps[n], finalizer)
    ensures Progress(w0, w', done + {n}, finalizer)
  {
    var s := w0.snaps[n];
    forall q | q in w0.workloads ensures WorkloadKept(w0, w', done + {n}, q) {
      WorkloadStep(w0, w, w', done, n, q, finalizer);
    }
    forall m | m in w0.snaps ensures SnapKept(w0, w', done + {n}, m, finalizer) {
      SnapStep(w0, w, w', done, n, m, finalizer);
    }
    hide Pending, Restore, Settled, Hits, SnapKept, WorkloadKept, OnePerWorkload;
  }

  lemma WorkloadStep(w0: World, w: World, w': World, done: set<string>, n: string, q: Ref, finalizer: string)
    requires OnePerWorkload(w0) && Progress(w0, w, done, finalizer) && n !in done && n in w0.snaps && w0.snaps[n].name == n
    requires n in w.snaps && PassStep(w, w', w0.snaps[n], finalizer) && q in w0.workloads
    ensures WorkloadKept(w0, w', done + {n}, q)
  {
    var s := w0.snaps[n];
    hide Pending, Restore, Settled, SnapKept, OnePerWorkload;
    assert WorkloadKept(w0, w, done, q);
    if w'.workloads[q] != w.workloads[q] {
      TargetUntouched(w0, w, done, n, finalizer);
      assert Due(w0, n, q);
    }
  }

  lemma SnapStep(w0: World, w: World, w': World, done: set<string>, n: string, m: string, finalizer: string)
    requires OnePerWorkload(w0) && Progress(w0, w, done, finalizer) && n !in done && n in w0.snaps && w0.snaps[n].name == n
    requires n in w.snaps && PassStep(w, w', w0.snaps[n], finalizer) && m in w0.snaps
    ensures SnapKept(w0, w', done + {n}, m, finalizer)
  {
    var s, t := w0.snaps[n], w0.snaps[m];
    hide Restore, IsRolledBack, WorkloadKept, OnePerWorkload;
    assert SnapKept(w0, w, done, m, finalizer) && SnapKept(w0, w, done, n, finalizer);
    if Pending(s) {
      TargetUntouched(w0, w, done, n, finalizer);
      if m != n && Pending(t) && Settled(w0, w, t) {
        SettledStays(w0, w, w', done, n, m, finalizer);
      }
    }
    hide Settled, Hits;
    if m == n && Pending(s) && Settled(w, w', s) {
      SettledSince(w0, w, w', s);
    }
  }

  lemma SettledSince(w0: World, w: World, w': World, s: Snapshot)
    requires Settled(w, w', s)
    requires Hits(w.workloads, s) <==> Hits(w0.workloads, s)
    requires Hits(w0.workloads, s) ==> w.workloads[RefOf(s)] == w0.workloads[RefOf(s)]
    ensures Settled(w0, w', s)
  {}

  lemma SettledStays(w0: World, w: World, w': World, done: set<string>, n: string, m: string, finalizer: string)
    requires OnePerWorkload(w0) && Progress(w0, w, done, finalizer) && n !in done && n in w0.snaps && w0.snaps[n].name == n
    requires n in w.snaps && Pending(w0.snaps[n]) && PassStep(w, w', w0.snaps[n], finalizer)
    requires m in w0.snaps && m != n && Pending(w0.snaps[m]) && Settled(w0, w, w0.snaps[m])
    ensures Settled(w0, w', w0.snaps[m])
  {
    var s, t := w0.snaps[n], w0.snaps[m];
    TargetUntouched(w0, w, done, n, finalizer);
    hide Pending, Merge, InverseBody, SnapKept, WorkloadKept, Restore;
    if Hits(w0.workloads, t) && RefOf(s) == RefOf(t) {
      assert Due(w0, m, RefOf(t));
      assert !Due(w0, n, RefOf(t));
    }
  }
}
