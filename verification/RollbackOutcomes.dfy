/** What a failure-free rollback does for each snapshot, by the kind, namespace, name and UID that the snapshot records. */
module RollbackOutcomes {
  import opened Basics
  import opened Json
  import opened JsonMergePatch
  import opened Conditions
  import opened Finalizers
  import opened TscInverse
  import opened SnapshotApi
  import opened SnapshotCluster
  import opened RollbackModel
  import opened RollbackTheorems
  import RollbackRun

  /** The first condition of the kind, which is the one that counts. */
  predicate Decides(cs: seq<Condition>, kind: string, i: nat) {
    i < |cs| && cs[i].kind == kind && forall j :: 0 <= j < i ==> cs[j].kind != kind
  }

  /** No RolledBack condition that says True. */
  predicate Waiting(s: Snapshot) {
    forall i :: 0 <= i < |s.conditions| && Decides(s.conditions, "RolledBack", i) ==> s.conditions[i].status != True
  }

  predicate KnownKind(s: Snapshot) { s.spec.target.kind == "Deployment" || s.spec.target.kind == "StatefulSet" }

  /** The workload the snapshot records is stored, under the recorded UID. */
  predicate StillThere(ws: map<Ref, StoredWorkload>, s: Snapshot, r: Ref) {
    var t := s.spec.target;
    r == Ref(t.kind, t.ns, t.name) && r in ws && ws[r].uid == t.uid
  }

  /** No workload of a known kind has two waiting snapshots. */
  ghost predicate OneWaitingEach(w: World) {
    forall m, n, r :: m in w.snaps && n in w.snaps && Claims(w, m, r) && Claims(w, n, r) ==> m == n
  }

  predicate Claims(w: World, n: string, r: Ref) {
    n in w.snaps && Waiting(w.snaps[n]) && KnownKind(w.snaps[n]) && StillThere(w.workloads, w.snaps[n], r)
  }

  const FIELD := ["spec", "template", "spec", "topologySpreadConstraints"]

  predicate OffField(q: seq<string>) { !Prefix(q, FIELD) && !Prefix(FIELD, q) }

  /** The constraints of the workload are those recorded, or absent if they were absent, and every member off their path
      is as it was. */
  ghost predicate Restored(was: StoredWorkload, now: StoredWorkload, s: Snapshot) {
    && now.uid == was.uid
    && ValueAt(now.doc, FIELD)
       == (if !s.spec.present then None else Some(Arr(if s.spec.original.Nil? then [] else s.spec.original.items)))
    && forall q: seq<string> :: OffField(q) ==> ValueAt(now.doc, q) == ValueAt(was.doc, q)
  }

  /** The snapshot is rolled back for this reason, is otherwise as it was but for the finalizer, and is gone instead if
      it was being deleted and had no other finalizer. */
  ghost predicate Ended(was: Snapshot, snaps: map<string, Snapshot>, reason: string, finalizer: string) {
    if was.deleting && (forall f :: f in was.finalizers ==> f == finalizer) then was.name !in snaps
    else
      && was.name in snaps
      && var now := snaps[was.name];
         && now.spec == was.spec && finalizer !in now.finalizers && now.deleting == was.deleting
         && exists i: nat :: Decides(now.conditions, "RolledBack", i) && now.conditions[i].status == True
                             && now.conditions[i].reason == reason && now.conditions[i].message == Message(was, reason)
  }

  function Message(s: Snapshot, reason: string): string {
    var name := s.spec.target.ns + "/" + s.spec.target.name;
    if reason == "RollbackApplied" then "Rollback patch applied to " + name
    else "Target workload " + name + " is gone or UID mismatch; no rollback needed"
  }

  lemma WaitingMeans(s: Snapshot)
    ensures Waiting(s) <==> Pending(s)
  {
    var i := Index(s.conditions, ROLLED_BACK);
    if Pending(s) {
      forall k | 0 <= k < |s.conditions| && Decides(s.conditions, "RolledBack", k) ensures s.conditions[k].status != True {
        FirstIs(s.conditions, ROLLED_BACK, k);
      }
    } else {
      assert Decides(s.conditions, "RolledBack", i);
    }
    hide Index;
  }

  lemma ClaimsMeans(w: World, n: string, r: Ref)
    ensures Claims(w, n, r) <==> Due(w, n, r)
  {
    if n in w.snaps {
      WaitingMeans(w.snaps[n]);
    }
    hide Waiting, Pending;
  }

  lemma OneEachMeans(w: World)
    ensures OneWaitingEach(w) <==> OnePerWorkload(w)
  {
    forall n, r ensures Claims(w, n, r) <==> Due(w, n, r) {
      ClaimsMeans(w, n, r);
    }
    DueIsStored(w);
    hide Claims, Due;
  }

  lemma DueIsStored(w: World)
    ensures forall n, r :: Due(w, n, r) ==> n in w.snaps
  {}

  lemma {:induction false} WithoutElements(fs: seq<string>, name: string)
    ensures forall f :: f in Without(fs, name) <==> f in fs && f != name
  {
    if fs != [] {
      var front := fs[..|fs| - 1];
      WithoutElements(front, name);
      assert forall f :: f in fs <==> f in front || f == fs[|fs| - 1];
    }
  }

  lemma FinalizerGone(fs: seq<string>, finalizer: string)
    ensures finalizer !in Without(fs, finalizer)
    ensures Without(fs, finalizer) == [] <==> forall f :: f in fs ==> f == finalizer
  {
    WithoutElements(fs, finalizer);
    var left := Without(fs, finalizer);
    if left != [] {
      assert left[0] in left;
    }
    hide Without;
  }

  lemma MarkIsFound(cs: seq<Condition>, c: Condition)
    requires Find(cs, ROLLED_BACK) == Some(c)
    ensures exists i: nat :: Decides(cs, "RolledBack", i) && cs[i] == c
  {
    assert Decides(cs, "RolledBack", Index(cs, ROLLED_BACK));
    hide Index;
  }

  lemma EndsMarked(was: Snapshot, snaps: map<string, Snapshot>, reason: string, finalizer: string)
    requires Finished(was, snaps, reason, finalizer)
    ensures Ended(was, snaps, reason, finalizer)
  {
    FinalizerGone(was.finalizers, finalizer);
    hide Without, Find, Decides;
    if was.name in snaps && MarkedAs(was, snaps[was.name], reason, finalizer) {
      MarkIsFound(snaps[was.name].conditions, Find(snaps[was.name].conditions, ROLLED_BACK).value);
    }
  }

  lemma MergeRestores(was: StoredWorkload, s: Snapshot)
    ensures Restored(was, Restore(was, s), s)
  {
    RestoredValue(was, s);
    RestoreKeepsUid(was, s);
    BodyIsNested(s.spec);
    hide ValueAt, Prefix, Merge, Nest, InverseBody;
    forall q: seq<string> | OffField(q) ensures ValueAt(Restore(was, s).doc, q) == ValueAt(was.doc, q) {
      NestedPatchMisses(was.doc, TSC_PATH, InverseValue(s.spec), q);
    }
  }

  /** A failure-free run with one waiting snapshot per workload, snapshot by snapshot. A Deployment or StatefulSet that is
      still there under the recorded UID is restored and its snapshot marked as applied; one that is not has its
      snapshot marked as gone; a snapshot of any other kind, or one that was rolled back before, stays as it is. */
  lemma SnapshotOutcome(w0: World, w: World, finalizer: string, n: string)
    requires OneWaitingEach(w0) && NamesMatch(w0) && RollsBack(w0, w, finalizer) && n in w0.snaps
    ensures
      var s := w0.snaps[n];
      var r := Ref(s.spec.target.kind, s.spec.target.ns, s.spec.target.name);
      if !Waiting(s) || !(s.spec.target.kind == "Deployment" || s.spec.target.kind == "StatefulSet") then
        n in w.snaps && w.snaps[n] == s
      else if r in w0.workloads && w0.workloads[r].uid == s.spec.target.uid then
        r in w.workloads && Restored(w0.workloads[r], w.workloads[r], s) && Ended(s, w.snaps, "RollbackApplied", finalizer)
      else Ended(s, w.snaps, "TargetGone", finalizer)
  {
    var s := w0.snaps[n];
    var r := RefOf(s);
    WaitingMeans(s);
    OneEachMeans(w0);
    assert SnapDone(w0, w, w0.snaps.Keys, n, finalizer);
    hide Waiting, Pending, Finished, Restored, Ended, Restore;
    if Pending(s) && Supported(s) {
      EndsMarked(s, w.snaps, ReasonFor(w0, s), finalizer);
      if Hits(w0.workloads, s) {
        assert Due(w0, n, r);
        assert r in w.workloads && WorkloadDone(w0, w, w0.snaps.Keys, r);
        MergeRestores(w0.workloads[r], s);
      }
    }
    hide OneWaitingEach, NamesMatch, OnePerWorkload, RollsBack;
  }

  /** Every other workload is untouched. */
  lemma OthersUntouched(w0: World, w: World, finalizer: string, r: Ref)
    requires RollsBack(w0, w, finalizer) && r in w0.workloads && forall n :: n in w0.snaps ==> !Claims(w0, n, r)
    ensures r in w.workloads && w.workloads[r] == w0.workloads[r]
  {
    assert r in w.workloads && WorkloadDone(w0, w, w0.snaps.Keys, r);
    forall n | n in w0.snaps.Keys ensures !Due(w0, n, r) {
      ClaimsMeans(w0, n, r);
    }
    hide Due, Claims, RollsBack;
  }

  /** What the tally of a failure-free run counts. */
  lemma TallyMeans(snaps: map<string, Snapshot>, n: string)
    ensures n in RollbackRun.StoredWith(snaps, RollbackRun.Skipped) <==> n in snaps && !Waiting(snaps[n])
    ensures n in RollbackRun.StoredWith(snaps, RollbackRun.RolledBack) <==> n in snaps && Waiting(snaps[n]) && KnownKind(snaps[n])
    ensures n in RollbackRun.StoredWith(snaps, RollbackRun.Error) <==> n in snaps && Waiting(snaps[n]) && !KnownKind(snaps[n])
  {
    if n in snaps {
      WaitingMeans(snaps[n]);
    }
    hide Waiting, IsRolledBack;
  }
}
