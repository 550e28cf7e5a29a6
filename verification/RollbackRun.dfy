/** The rollback loop, call by call. */
module RollbackRun {
  import opened JsonMergePatch
  import opened Conditions
  import opened Finalizers
  import opened TscInverse
  import opened SnapshotApi
  import opened SnapshotCluster
  import opened SnapshotStatus
  import opened RollbackModel
  import opened RollbackTheorems

  function WorldOf(cl: Cluster): World
    reads cl
  {
    World(cl.workloads, cl.api.objs)
  }

  // ----- what the log must show -----

  function Inverse(s: Snapshot): Event { Patched(RefOf(s), s.spec.target.uid, InverseBody(s.spec)) }

  predicate MarksApplied(obj: Snapshot) {
    IsRolledBack(obj.conditions) && Find(obj.conditions, ROLLED_BACK).value.reason == APPLIED
  }

  ghost predicate MarkedBefore(ev: seq<Event>, i: nat, name: string) {
    exists j: nat :: j < i < |ev| && ev[j].Wrote? && ev[j].op.UpdateStatus? && ev[j].op.obj.name == name
                     && IsRolledBack(ev[j].op.obj.conditions)
  }

  ghost predicate InvertedBefore(ev: seq<Event>, i: nat, s: Snapshot) {
    exists j: nat :: j < i < |ev| && ev[j] == Inverse(s)
  }

  /** Only snapshots that were pending are written; one is marked as applied only after its inverse went through on
      a workload with the recorded UID, and loses its finalizer only after it was marked. Only inverses of pending
      snapshots are applied. */
  ghost predicate JustifiedAt(ev: seq<Event>, i: nat, snaps: map<string, Snapshot>)
    requires i < |ev|
  {
    match ev[i]
    case Wrote(UpdateStatus(obj), _) =>
      obj.name in snaps && Pending(snaps[obj.name]) && (MarksApplied(obj) ==> InvertedBefore(ev, i, snaps[obj.name]))
    case Wrote(PatchFinalizers(name, _), _) => name in snaps && Pending(snaps[name]) && MarkedBefore(ev, i, name)
    case Wrote(_, _) => false
    case Patched(_, _, _) => exists n :: n in snaps && Pending(snaps[n]) && ev[i] == Inverse(snaps[n])
    case Read(_, _) => true
    case Built => false
  }

  ghost predicate Justified(ev: seq<Event>, snaps: map<string, Snapshot>) {
    forall i: nat :: i < |ev| ==> JustifiedAt(ev, i, snaps)
  }

  lemma JustifiedPrefix(a: seq<Event>, b: seq<Event>, i: nat, snaps: map<string, Snapshot>)
    requires i < |a| && JustifiedAt(a, i, snaps)
    ensures JustifiedAt(a + b, i, snaps)
  {
    hide InverseBody, IsRolledBack;
    var ev := a + b;
    assert ev[i] == a[i];
    forall name | MarkedBefore(a, i, name) ensures MarkedBefore(ev, i, name) {
      var j: nat :| j < i && a[j].Wrote? && a[j].op.UpdateStatus? && a[j].op.obj.name == name
                    && IsRolledBack(a[j].op.obj.conditions);
      assert ev[j] == a[j];
    }
    forall s | InvertedBefore(a, i, s) ensures InvertedBefore(ev, i, s) {
      var j: nat :| j < i && a[j] == Inverse(s);
      assert ev[j] == a[j];
    }
  }

  lemma JustifiedSuffix(a: seq<Event>, b: seq<Event>, i: nat, snaps: map<string, Snapshot>)
    requires i < |b| && JustifiedAt(b, i, snaps)
    ensures JustifiedAt(a + b, |a| + i, snaps)
  {
    hide InverseBody, IsRolledBack;
    var ev := a + b;
    assert ev[|a| + i] == b[i];
    forall name | MarkedBefore(b, i, name) ensures MarkedBefore(ev, |a| + i, name) {
      var j: nat :| j < i && b[j].Wrote? && b[j].op.UpdateStatus? && b[j].op.obj.name == name
                    && IsRolledBack(b[j].op.obj.conditions);
      assert ev[|a| + j] == b[j];
    }
    forall s | InvertedBefore(b, i, s) ensures InvertedBefore(ev, |a| + i, s) {
      var j: nat :| j < i && b[j] == Inverse(s);
      assert ev[|a| + j] == b[j];
    }
  }

  lemma JustifiedConcat(a: seq<Event>, b: seq<Event>, snaps: map<string, Snapshot>)
    requires Justified(a, snaps) && Justified(b, snaps)
    ensures Justified(a + b, snaps)
  {
    hide JustifiedAt;
    forall i: nat | i < |a + b| ensures JustifiedAt(a + b, i, snaps) {
      if i < |a| {
        JustifiedPrefix(a, b, i, snaps);
      } else {
        JustifiedSuffix(a, b, i - |a|, snaps);
      }
    }
  }

  // ----- the target -----

  datatype LookupError = NoError | TargetGone | Other

  method LookupTarget(cl: Cluster, snap: Snapshot) returns (uid: string, found: bool, err: LookupError)
    ensures err.NoError? ==> Hits(cl.workloads, snap) && found && uid == snap.spec.target.uid
    ensures err.TargetGone? ==> Supported(snap) && !Hits(cl.workloads, snap) && !found
    ensures err.Other? && cl.reliable ==> !Supported(snap)
  {
    if !Supported(snap) {
      return "", false, Other;
    }
    var live := cl.GetWorkload(RefOf(snap));
    match live
    case Unavailable => return "", false, Other;
    case Missing => return "", false, TargetGone;
    case Found(w) =>
      if w.uid != snap.spec.target.uid {
        return w.uid, false, TargetGone;
      }
      return w.uid, true, NoError;
  }

  /** Checks the target again and applies the inverse patch. */
  method ApplyInversePatch(cl: Cluster, snap: Snapshot) returns (ok: bool, ghost ev: seq<Event>)
    modifies cl`workloads, cl`log
    ensures cl.log == old(cl.log) + ev
    ensures (ev == [] && cl.workloads == old(cl.workloads) && !ok)
            || (ev == [Inverse(snap)] && Hits(old(cl.workloads), snap)
                && cl.workloads == old(cl.workloads)[RefOf(snap) := Restore(old(cl.workloads)[RefOf(snap)], snap)])
    ensures cl.reliable && Hits(old(cl.workloads), snap) ==> ok
  {
    ok, ev := false, [];
    var uid, found, err := LookupTarget(cl, snap);
    if !err.NoError? {
      return;
    }
    hide InverseBody, Merge;
    ghost var logged := cl.log;
    var e := cl.PatchWorkload(RefOf(snap), InverseBody(snap.spec));
    ok := e == Ok;
    if cl.log != logged {
      ev := [Inverse(snap)];
    }
  }

  // ----- the snapshot -----

  /** Writes a status read with the snapshot; the snapshot must still be the stored one. */
  method WriteStatus(cl: Cluster, snap: Snapshot, c: Condition)
    returns (e: Err, obj: Snapshot, ghost ev: seq<Event>)
    requires Valid(cl.api) && snap.name in cl.api.objs && cl.api.objs[snap.name] == snap
    modifies cl`api, cl`log
    ensures Valid(cl.api) && StatusSet(snap, obj, c, snap.generation) && cl.log == old(cl.log) + ev
    ensures snap.name in cl.api.objs && OthersSame(old(cl.api), cl.api, snap.name) && obj.name == snap.name
    ensures (ev == [] && cl.api == old(cl.api) && e != Ok)
            || (ev == [Wrote(UpdateStatus(obj), old(cl.api))]
                && cl.api.objs[snap.name] == obj.(rv := cl.api.objs[snap.name].rv))
    ensures cl.reliable ==> e == Ok
  {
    obj := WithCondition(cl, snap, c, snap.generation);
    ev := [];
    hide StatusSet, Set;
    ghost var logged := cl.log;
    e := cl.Write(UpdateStatus(obj));
    if cl.log != logged {
      ev := [Wrote(UpdateStatus(obj), old(cl.api))];
    }
  }

  /** The copy of the finalizer list, compacted. */
  method KeepOthers(fs: seq<string>, finalizer: string) returns (left: seq<string>, found: bool)
    ensures left == Without(fs, finalizer) && (found <==> finalizer in fs)
    ensures !found ==> left == fs
    ensures forall f :: f in left ==> f in fs
  {
    var finalizers := new string[|fs|](i requires 0 <= i < |fs| => fs[i]);
    assert finalizers[..] == fs;
    var kept;
    kept, found := RemoveInPlace(finalizers, finalizer);
    left := finalizers[..kept];
    WithoutMembers(fs, finalizer);
    WithoutSubset(fs, finalizer);
  }

  /** The finalizer is gone from the named snapshot, or the snapshot with it. */
  predicate Released(was: ApiState, now: ApiState, name: string, finalizer: string)
    requires name in was.objs
  {
    var s := was.objs[name];
    var left := Without(s.finalizers, finalizer);
    if s.deleting && left == [] then name !in now.objs
    else name in now.objs && now.objs[name] == s.(finalizers := left, rv := now.objs[name].rv)
  }

  ghost predicate OthersSame(was: ApiState, now: ApiState, name: string) {
    && now.objs.Keys <= was.objs.Keys
    && forall n :: n in was.objs && n != name ==> n in now.objs && now.objs[n] == was.objs[n]
  }

  lemma PatchReleases(st: ApiState, name: string, finalizer: string)
    requires Valid(st) && name in st.objs
    ensures
      var op := PatchFinalizers(name, Without(st.objs[name].finalizers, finalizer));
      && Outcome(st, op) == Ok && Released(st, Apply(st, op), name, finalizer) && OthersSame(st, Apply(st, op), name)
    ensures finalizer !in st.objs[name].finalizers ==> Released(st, st, name, finalizer)
  {
    var fs := st.objs[name].finalizers;
    var left := Without(fs, finalizer);
    WithoutSubset(fs, finalizer);
    WithoutMembers(fs, finalizer);
    assert Outcome(st, PatchFinalizers(name, left)) == Ok;
    assert st.objs[name].name == name && (st.objs[name].deleting ==> fs != []);
    hide Without, Valid, Outcome;
    PatchEffect(st, name, left);
    hide Apply;
  }

  lemma PatchEffect(st: ApiState, name: string, fs: seq<string>)
    requires name in st.objs && st.objs[name].name == name && Outcome(st, PatchFinalizers(name, fs)) == Ok
    ensures
      var s, after := st.objs[name], Apply(st, PatchFinalizers(name, fs));
      && OthersSame(st, after, name)
      && if s.deleting && fs == [] then name !in after.objs
         else name in after.objs && after.objs[name] == s.(finalizers := fs, rv := after.objs[name].rv)
  {
    hide Outcome;
  }

  /** Reads the snapshot and patches its finalizers to the list without one, if it is there. */
  method RemoveFinalizer(cl: Cluster, name: string, finalizer: string) returns (ok: bool, ghost ev: seq<Event>)
    requires Valid(cl.api) && name in cl.api.objs
    modifies cl`api, cl`log
    ensures Valid(cl.api) && cl.log == old(cl.log) + ev && OthersSame(old(cl.api), cl.api, name)
    ensures (!ok && cl.api == old(cl.api)) || Released(old(cl.api), cl.api, name, finalizer)
    ensures forall i :: 0 <= i < |ev| ==> ev[i].Read? || (ev[i].Wrote? && ev[i].op.PatchFinalizers? && ev[i].op.name == name)
    ensures cl.reliable ==> ok
  {
    PatchReleases(cl.api, name, finalizer);
    hide Released, Valid;
    var current := cl.Get(name);
    ev := [Read(name, current)];
    if !current.Found? {
      return false, ev;
    }
    var left, found := KeepOthers(current.value.finalizers, finalizer);
    if !found {
      return true, ev;
    }
    ghost var logged := cl.log;
    hide Without, Outcome, Apply, OthersSame;
    var e := cl.Write(PatchFinalizers(name, left));
    if cl.log != logged {
      ev := ev + [Wrote(PatchFinalizers(name, left), old(cl.api))];
    }
    ok := e == Ok;
    NothingElse(old(cl.api), name);
  }

  lemma NothingElse(st: ApiState, name: string)
    ensures OthersSame(st, st, name)
  {}

  lemma {:induction false} WithoutSubset(fs: seq<string>, name: string)
    ensures forall f :: f in Without(fs, name) ==> f in fs
  {
    if fs != [] {
      var n := |fs| - 1;
      WithoutSubset(fs[..n], name);
      assert fs == fs[..n] + [fs[n]];
    }
  }

  // ----- one snapshot -----

  datatype Verdict = RolledBack | Skipped | Error

  function RolledBackCondition(status: Status, reason: string, message: string): Condition {
    Condition(ROLLED_BACK, status, reason, message, 0, 0)
  }

  /** Setting RolledBack on a snapshot that is pending. */
  lemma StatusMarks(snap: Snapshot, obj: Snapshot, reason: string, message: string, finalizer: string)
    requires StatusSet(snap, obj, RolledBackCondition(True, reason, message), snap.generation) && Pending(snap)
    requires message == MarkMessage(snap, reason)
    ensures IsRolledBack(obj.conditions) && Find(obj.conditions, ROLLED_BACK).value.reason == reason
    ensures forall now: Snapshot ::
      now == obj.(finalizers := Without(snap.finalizers, finalizer), rv := now.rv) ==> MarkedAs(snap, now, reason, finalizer)
  {
    var c := RolledBackCondition(True, reason, message);
    var t: int :| obj == snap.(conditions := Set(snap.conditions, c, t), observedGeneration := snap.generation);
    forall kind ensures SameOtherwise(snap.conditions, obj.conditions, kind) {
      SetIsLocal(snap.conditions, c, t, kind);
    }
    SetIsLocal(snap.conditions, c, t, ROLLED_BACK);
    hide Set, Find, Without;
  }

  lemma StatusUnmarks(snap: Snapshot, obj: Snapshot, reason: string, message: string)
    requires StatusSet(snap, obj, RolledBackCondition(False, reason, message), snap.generation)
    ensures !IsRolledBack(obj.conditions)
    ensures Find(obj.conditions, ROLLED_BACK).Some? && Find(obj.conditions, ROLLED_BACK).value.reason == reason
    ensures Find(obj.conditions, ROLLED_BACK).value.message == message
  {
    var c := RolledBackCondition(False, reason, message);
    var t: int :| obj == snap.(conditions := Set(snap.conditions, c, t), observedGeneration := snap.generation);
    SetIsLocal(snap.conditions, c, t, ROLLED_BACK);
    hide Set;
  }

  /** The status is written, the finalizer may still be there. */
  ghost predicate HalfMarked(was: Snapshot, snaps: map<string, Snapshot>, reason: string, finalizer: string) {
    && was.name in snaps && snaps[was.name].finalizers == was.finalizers
    && MarkedAs(was, snaps[was.name].(finalizers := Without(was.finalizers, finalizer)), reason, finalizer)
  }

  /** A status write that marks the snapshot, then reads and patches of its finalizers. */
  ghost predicate MarkEvents(ev: seq<Event>, snap: Snapshot, reason: string) {
    ev == [] ||
    (&& ev[0].Wrote? && ev[0].op.UpdateStatus? && ev[0].op.obj.name == snap.name && IsRolledBack(ev[0].op.obj.conditions)
     && Find(ev[0].op.obj.conditions, ROLLED_BACK).value.reason == reason
     && forall i :: 1 <= i < |ev| ==>
          ev[i].Read? || (ev[i].Wrote? && ev[i].op.PatchFinalizers? && ev[i].op.name == snap.name))
  }

  /** Marks the snapshot and releases its finalizer. */
  method MarkRolledBack(cl: Cluster, snap: Snapshot, reason: string, message: string, finalizer: string)
    returns (ok: bool, ghost ev: seq<Event>)
    requires message == MarkMessage(snap, reason)
    requires Valid(cl.api) && snap.name in cl.api.objs && cl.api.objs[snap.name] == snap && Pending(snap)
    modifies cl`api, cl`log
    ensures Valid(cl.api) && cl.log == old(cl.log) + ev && OthersSame(old(cl.api), cl.api, snap.name)
    ensures (cl.api == old(cl.api) && !ok)
            || (HalfMarked(snap, cl.api.objs, reason, finalizer) && !ok) || Finished(snap, cl.api.objs, reason, finalizer)
    ensures MarkEvents(ev, snap, reason)
    ensures cl.reliable ==> ok
  {
    var e, obj, wrote := WriteStatus(cl, snap, RolledBackCondition(True, reason, message));
    StatusMarks(snap, obj, reason, message, finalizer);
    ev := wrote;
    if ev != [] {
      StatusIsHalf(snap, obj, cl.api.objs, reason, finalizer);
    }
    assert MarkEvents(ev, snap, reason);
    hide Valid, StatusSet, Find, StatusOf, Pending, HalfMarked, OthersSame, Finished, Released, MarkEvents, Set, MarkedAs, MarkMessage;
    if e != Ok {
      return false, ev;
    }
    ghost var mid, removed := cl.api, [];
    ok, removed := RemoveFinalizer(cl, snap.name, finalizer);
    MoreMarkEvents(ev, removed, snap, reason);
    assert cl.log == old(cl.log) + (ev + removed);
    ev := ev + removed;
    OthersTwice(old(cl.api), mid, cl.api, snap.name);
    if Released(mid, cl.api, snap.name, finalizer) {
      ReleasedIsFinished(snap, mid, cl.api, reason, finalizer);
    }
  }

  lemma MoreMarkEvents(ev: seq<Event>, more: seq<Event>, snap: Snapshot, reason: string)
    requires ev != [] && MarkEvents(ev, snap, reason)
    requires forall i :: 0 <= i < |more| ==>
      more[i].Read? || (more[i].Wrote? && more[i].op.PatchFinalizers? && more[i].op.name == snap.name)
    ensures MarkEvents(ev + more, snap, reason)
  {
    hide Find, StatusOf;
    var all := ev + more;
    assert all[0] == ev[0];
    forall i | 1 <= i < |all|
      ensures all[i].Read? || (all[i].Wrote? && all[i].op.PatchFinalizers? && all[i].op.name == snap.name)
    {
      assert all[i] == if i < |ev| then ev[i] else more[i - |ev|];
    }
  }

  lemma StatusIsHalf(snap: Snapshot, obj: Snapshot, snaps: map<string, Snapshot>, reason: string, finalizer: string)
    requires snap.name in snaps && snaps[snap.name] == obj.(rv := snaps[snap.name].rv) && obj.finalizers == snap.finalizers
    requires forall now: Snapshot ::
      now == obj.(finalizers := Without(snap.finalizers, finalizer), rv := now.rv) ==> MarkedAs(snap, now, reason, finalizer)
    ensures HalfMarked(snap, snaps, reason, finalizer)
  {
    hide MarkedAs, Without;
  }

  lemma ReleasedIsFinished(snap: Snapshot, mid: ApiState, now: ApiState, reason: string, finalizer: string)
    requires HalfMarked(snap, mid.objs, reason, finalizer) && Released(mid, now, snap.name, finalizer)
    ensures Finished(snap, now.objs, reason, finalizer)
  {
    hide Find, StatusOf, Without;
  }

  lemma OthersTwice(a: ApiState, b: ApiState, c: ApiState, name: string)
    requires OthersSame(a, b, name) && OthersSame(b, c, name)
    ensures OthersSame(a, c, name)
  {}

  lemma MarkIsJustified(pre: seq<Event>, ev: seq<Event>, snap: Snapshot, reason: string, snaps: map<string, Snapshot>)
    requires MarkEvents(ev, snap, reason) && snap.name in snaps && snaps[snap.name] == snap && Pending(snap)
    requires if reason == APPLIED then pre == [Inverse(snap)] else pre == []
    ensures Justified(pre + ev, snaps)
  {
    hide InverseBody, Find, StatusOf;
    var all := pre + ev;
    forall i: nat | i < |all| ensures JustifiedAt(all, i, snaps) {
      if i < |pre| {
        assert all[i] == Inverse(snap);
      } else {
        assert all[i] == ev[i - |pre|];
        if i == |pre| {
          assert reason == APPLIED ==> all[0] == Inverse(snap) && InvertedBefore(all, i, snap);
        } else {
          assert all[|pre|] == ev[0];
          assert MarkedBefore(all, i, snap.name);
        }
      }
    }
  }

  /** Records that the inverse failed; the text of the error is left out. */
  method MarkFailed(cl: Cluster, snap: Snapshot, ghost pre: seq<Event>, ghost snaps: map<string, Snapshot>)
    returns (ghost ev: seq<Event>)
    requires Valid(cl.api) && snap.name in cl.api.objs && cl.api.objs[snap.name] == snap && Pending(snap)
    requires snap.name in snaps && snaps[snap.name] == snap && (pre == [] || pre == [Inverse(snap)])
    modifies cl`api, cl`log
    ensures Valid(cl.api) && cl.log == old(cl.log) + ev && OthersSame(old(cl.api), cl.api, snap.name)
    ensures snap.name in cl.api.objs
    ensures var now := cl.api.objs[snap.name];
            now == snap.(conditions := now.conditions, observedGeneration := now.observedGeneration, rv := now.rv) && Pending(now)
    ensures var now := cl.api.objs[snap.name];
            now == snap || (Find(now.conditions, ROLLED_BACK).Some?
                            && Find(now.conditions, ROLLED_BACK).value.reason == "RollbackFailed"
                            && Find(now.conditions, ROLLED_BACK).value.message == "Inverse patch failed for " + TargetName(snap))
    ensures Justified(pre + ev, snaps)
  {
    var message := "Inverse patch failed for " + TargetName(snap);
    var e, obj, wrote := WriteStatus(cl, snap, RolledBackCondition(False, FAILED, message));
    StatusUnmarks(snap, obj, FAILED, message);
    ev := wrote;
    hide Valid, StatusSet, Find, StatusOf, InverseBody;
    assert StatusSet(snap, obj, RolledBackCondition(False, FAILED, message), snap.generation);
    forall i: nat | i < |pre + ev| ensures JustifiedAt(pre + ev, i, snaps) {
      if i < |pre| {
        assert (pre + ev)[i] == Inverse(snap);
      } else {
        assert (pre + ev)[i] == ev[0];
      }
    }
  }

  // ----- the loop -----

  /** A snapshot marked or gone, and its target restored if it was there: a step of the run. */
  lemma StepFits(w: World, w': World, snap: Snapshot, reason: string, finalizer: string)
    requires snap.name in w.snaps && w.snaps[snap.name] == snap && Pending(snap) && Supported(snap)
    requires ElsewhereSame(w, w', snap)
    requires if Hits(w.workloads, snap) then w'.workloads[RefOf(snap)] == Restore(w.workloads[RefOf(snap)], snap)
             else w'.workloads == w.workloads
    requires w'.snaps == w.snaps || HalfMarked(snap, w'.snaps, reason, finalizer) || Finished(snap, w'.snaps, reason, finalizer)
    ensures PassStep(w, w', snap, finalizer)
    ensures reason == ReasonFor(w, snap) && Finished(snap, w'.snaps, reason, finalizer) ==> FullStep(w, w', snap, finalizer)
  {
    hide Restore, Find, StatusOf, Without, IsRolledBack;
  }

  lemma FailedStepFits(w: World, w': World, snap: Snapshot, finalizer: string)
    requires snap.name in w.snaps && w.snaps[snap.name] == snap && Pending(snap) && ElsewhereSame(w, w', snap)
    requires w'.workloads == w.workloads ||
             (Hits(w.workloads, snap) && w'.workloads == w.workloads[RefOf(snap) := Restore(w.workloads[RefOf(snap)], snap)])
    requires snap.name in w'.snaps
    requires var now := w'.snaps[snap.name];
             now == snap.(conditions := now.conditions, observedGeneration := now.observedGeneration, rv := now.rv) && Pending(now)
    ensures PassStep(w, w', snap, finalizer)
  {
    hide Restore, Find, StatusOf, Without, IsRolledBack, Hits;
  }

  lemma SameIsStep(w: World, snap: Snapshot, finalizer: string)
    requires snap.name in w.snaps && w.snaps[snap.name] == snap
    ensures PassStep(w, w, snap, finalizer)
    ensures !Pending(snap) || !Supported(snap) ==> FullStep(w, w, snap, finalizer)
  {
    hide Restore, Without, IsRolledBack;
  }

  lemma Elsewhere(w: World, w': World, a: ApiState, b: ApiState, snap: Snapshot)
    requires w.snaps == a.objs && w'.snaps == b.objs && OthersSame(a, b, snap.name)
    requires w'.workloads == w.workloads ||
             (RefOf(snap) in w.workloads && RefOf(snap) in w'.workloads
              && w'.workloads == w.workloads[RefOf(snap) := w'.workloads[RefOf(snap)]])
    ensures ElsewhereSame(w, w', snap)
  {}

  /** The body of the loop below for a snapshot whose target is gone. */
  method SettleGone(cl: Cluster, snap: Snapshot, finalizer: string, ghost snaps: map<string, Snapshot>)
    returns (verdict: Verdict, ghost ev: seq<Event>)
    requires Valid(cl.api) && snap.name in cl.api.objs && cl.api.objs[snap.name] == snap && Pending(snap)
    requires snap.name in snaps && snaps[snap.name] == snap && Supported(snap) && !Hits(cl.workloads, snap)
    modifies cl`api, cl`log
    ensures Valid(cl.api) && cl.log == old(cl.log) + ev && Justified(ev, snaps)
    ensures PassStep(old(WorldOf(cl)), WorldOf(cl), snap, finalizer)
    ensures verdict == RolledBack || (verdict == Error && !cl.reliable)
    ensures verdict == RolledBack ==> Finished(snap, cl.api.objs, TARGET_GONE, finalizer)
    ensures cl.reliable ==> FullStep(old(WorldOf(cl)), WorldOf(cl), snap, finalizer)
  {
    ghost var w := WorldOf(cl);
    hide Valid, Pending, Hits, Supported, HalfMarked, Finished, OthersSame, Justified, MarkEvents, ElsewhereSame,
         PassStep, FullStep, Inverse;
    var ok;
    var message := "Target workload " + TargetName(snap) + " is gone or UID mismatch; no rollback needed";
    ok, ev := MarkRolledBack(cl, snap, TARGET_GONE, message, finalizer);
    verdict := if ok then RolledBack else Error;
    Elsewhere(w, WorldOf(cl), old(cl.api), cl.api, snap);
    StepFits(w, WorldOf(cl), snap, TARGET_GONE, finalizer);
    MarkIsJustified([], ev, snap, TARGET_GONE, snaps);
    assert [] + ev == ev;
  }

  /** ... and for one whose target is there. */
  method RestoreAndMark(cl: Cluster, snap: Snapshot, finalizer: string, ghost snaps: map<string, Snapshot>)
    returns (verdict: Verdict, ghost ev: seq<Event>)
    requires Valid(cl.api) && snap.name in cl.api.objs && cl.api.objs[snap.name] == snap && Pending(snap)
    requires snap.name in snaps && snaps[snap.name] == snap && Hits(cl.workloads, snap)
    modifies cl
    ensures Valid(cl.api) && cl.log == old(cl.log) + ev && Justified(ev, snaps)
    ensures PassStep(old(WorldOf(cl)), WorldOf(cl), snap, finalizer)
    ensures verdict == RolledBack || (verdict == Error && !cl.reliable)
    ensures verdict == RolledBack ==> Finished(snap, cl.api.objs, APPLIED, finalizer)
    ensures cl.reliable ==> FullStep(old(WorldOf(cl)), WorldOf(cl), snap, finalizer)
  {
    ghost var w := WorldOf(cl);
    HitsMeans(cl.workloads, snap);
    hide Valid, Pending, Hits, Supported, Finished, Justified, PassStep, FullStep, Inverse, Restore, InverseBody;
    var ok;
    ghost var pre;
    ok, pre := ApplyInversePatch(cl, snap);
    if ok {
      verdict, ev := MarkRestored(cl, snap, finalizer, snaps, w);
      ev := pre + ev;
    } else {
      verdict, ev := MarkUnrestored(cl, snap, finalizer, snaps, w, pre);
      ev := pre + ev;
    }
  }

  /** The inverse went through: `w` is the state before it. */
  method MarkRestored(cl: Cluster, snap: Snapshot, finalizer: string, ghost snaps: map<string, Snapshot>, ghost w: World)
    returns (verdict: Verdict, ghost ev: seq<Event>)
    requires Valid(cl.api) && snap.name in cl.api.objs && cl.api.objs[snap.name] == snap && Pending(snap)
    requires snap.name in snaps && snaps[snap.name] == snap && Supported(snap)
    requires w.snaps == cl.api.objs && Hits(w.workloads, snap)
    requires RefOf(snap) in w.workloads
             && cl.workloads == w.workloads[RefOf(snap) := Restore(w.workloads[RefOf(snap)], snap)]
    modifies cl`api, cl`log
    ensures Valid(cl.api) && cl.log == old(cl.log) + ev && Justified([Inverse(snap)] + ev, snaps)
    ensures PassStep(w, WorldOf(cl), snap, finalizer)
    ensures verdict == RolledBack || (verdict == Error && !cl.reliable)
    ensures verdict == RolledBack ==> Finished(snap, cl.api.objs, APPLIED, finalizer)
    ensures cl.reliable ==> FullStep(w, WorldOf(cl), snap, finalizer)
  {
    ghost var api0 := cl.api;
    assert ReasonFor(w, snap) == APPLIED;
    hide Valid, Pending, Hits, Supported, HalfMarked, Finished, OthersSame, Justified, MarkEvents, ElsewhereSame,
         PassStep, FullStep, Inverse, Restore, ReasonFor;
    var ok;
    ok, ev := MarkRolledBack(cl, snap, APPLIED, "Rollback patch applied to " + TargetName(snap), finalizer);
    verdict := if ok then RolledBack else Error;
    MarkIsJustified([Inverse(snap)], ev, snap, APPLIED, snaps);
    Elsewhere(w, WorldOf(cl), api0, cl.api, snap);
    StepFits(w, WorldOf(cl), snap, APPLIED, finalizer);
  }

  /** The inverse failed, or its success was not reported. */
  method MarkUnrestored(cl: Cluster, snap: Snapshot, finalizer: string, ghost snaps: map<string, Snapshot>, ghost w: World,
                        ghost pre: seq<Event>)
    returns (verdict: Verdict, ghost ev: seq<Event>)
    requires Valid(cl.api) && snap.name in cl.api.objs && cl.api.objs[snap.name] == snap && Pending(snap)
    requires snap.name in snaps && snaps[snap.name] == snap && (pre == [] || pre == [Inverse(snap)])
    requires w.snaps == cl.api.objs && Hits(w.workloads, snap) && RefOf(snap) in w.workloads
    requires cl.workloads == w.workloads
             || cl.workloads == w.workloads[RefOf(snap) := Restore(w.workloads[RefOf(snap)], snap)]
    modifies cl`api, cl`log
    ensures Valid(cl.api) && cl.log == old(cl.log) + ev && Justified(pre + ev, snaps)
    ensures PassStep(w, WorldOf(cl), snap, finalizer) && verdict == Error
  {
    ghost var api0 := cl.api;
    hide Valid, Pending, Hits, Supported, OthersSame, Justified, ElsewhereSame, PassStep, Inverse, Restore;
    verdict := Error;
    ev := MarkFailed(cl, snap, pre, snaps);
    Elsewhere(w, WorldOf(cl), api0, cl.api, snap);
    FailedStepFits(w, WorldOf(cl), snap, finalizer);
  }

  lemma HitsMeans(ws: map<Ref, StoredWorkload>, s: Snapshot)
    requires Hits(ws, s)
    ensures Supported(s) && RefOf(s) in ws
  {}

  /** What becomes of a snapshot when no call fails: any kind but these two is an error. */
  function CleanVerdict(s: Snapshot): Verdict {
    if IsRolledBack(s.conditions) then Skipped
    else if s.spec.target.kind == "Deployment" || s.spec.target.kind == "StatefulSet" then RolledBack
    else Error
  }

  lemma KindsMean(ws: map<Ref, StoredWorkload>, s: Snapshot)
    ensures Pending(s) && Supported(s) ==> CleanVerdict(s) == RolledBack
    ensures Pending(s) && !Supported(s) ==> CleanVerdict(s) == Error
    ensures !Pending(s) <==> CleanVerdict(s) == Skipped
    ensures Hits(ws, s) ==> Supported(s)
  {}

  /** One pass of the loop. */
  method RollbackOne(cl: Cluster, snap: Snapshot, finalizer: string, ghost snaps: map<string, Snapshot>)
    returns (verdict: Verdict, ghost ev: seq<Event>)
    requires Valid(cl.api) && snap.name in cl.api.objs && cl.api.objs[snap.name] == snap
    requires snap.name in snaps && snaps[snap.name] == snap
    modifies cl
    ensures Valid(cl.api) && cl.log == old(cl.log) + ev && Justified(ev, snaps)
    ensures PassStep(old(WorldOf(cl)), WorldOf(cl), snap, finalizer)
    ensures verdict == Skipped <==> !Pending(snap)
    ensures verdict == RolledBack ==> Finished(snap, cl.api.objs, ReasonFor(old(WorldOf(cl)), snap), finalizer)
    ensures cl.reliable ==> verdict == CleanVerdict(snap)
    ensures cl.reliable ==> FullStep(old(WorldOf(cl)), WorldOf(cl), snap, finalizer)
  {
    ev := [];
    SameIsStep(WorldOf(cl), snap, finalizer);
    KindsMean(cl.workloads, snap);
    hide Valid, Hits, Supported, CleanVerdict, HalfMarked, Finished, IsRolledBack, ElsewhereSame, PassStep, FullStep;
    if IsRolledBack(snap.conditions) {
      return Skipped, ev;
    }
    var uid, found, err := LookupTarget(cl, snap);
    if err.Other? {
      return Error, ev;
    }
    if !found || err.TargetGone? || uid != snap.spec.target.uid {
      verdict, ev := SettleGone(cl, snap, finalizer, snaps);
    } else {
      verdict, ev := RestoreAndMark(cl, snap, finalizer, snaps);
    }
  }

  function Names(items: seq<Snapshot>): set<string> { set s | s in items :: s.name }

  lemma {:induction false} CountNames(items: seq<Snapshot>)
    requires Distinct(items)
    ensures |Names(items)| == |items|
  {
    if items != [] {
      var n := |items| - 1;
      CountNames(items[..n]);
      assert items == items[..n] + [items[n]];
      assert Names(items) == Names(items[..n]) + {items[n].name};
      assert items[n].name !in Names(items[..n]);
    }
  }

  lemma NextName(items: seq<Snapshot>, i: nat)
    requires Distinct(items) && i < |items|
    ensures Names(items[..i + 1]) == Names(items[..i]) + {items[i].name} && items[i].name !in Names(items[..i])
  {
    assert items[..i + 1] == items[..i] + [items[i]];
  }

  datatype Tally = Tally(rolledBack: nat, skipped: nat, errors: nat)

  function Total(t: Tally): nat { t.rolledBack + t.skipped + t.errors }

  function Counted(t: Tally, verdict: Verdict): Tally {
    match verdict
    case RolledBack => t.(rolledBack := t.rolledBack + 1)
    case Skipped => t.(skipped := t.skipped + 1)
    case Error => t.(errors := t.errors + 1)
  }

  lemma CountOne(t: Tally, verdict: Verdict)
    ensures Total(Counted(t, verdict)) == Total(t) + 1
    ensures Counted(t, verdict).errors == 0 <==> t.errors == 0 && verdict != Error
  {}

  /** The tally of a run in which no call fails. */
  function CleanTally(items: seq<Snapshot>): Tally {
    if items == [] then Tally(0, 0, 0)
    else Counted(CleanTally(items[..|items| - 1]), CleanVerdict(items[|items| - 1]))
  }

  function Part(t: Tally, v: Verdict): nat {
    match v case RolledBack => t.rolledBack case Skipped => t.skipped case Error => t.errors
  }

  function NamesWith(items: seq<Snapshot>, v: Verdict): set<string> { set s | s in items && CleanVerdict(s) == v :: s.name }

  lemma NextWith(items: seq<Snapshot>, v: Verdict)
    requires Distinct(items) && items != []
    ensures
      var s, before := items[|items| - 1], NamesWith(items[..|items| - 1], v);
      NamesWith(items, v) == (if CleanVerdict(s) == v then before + {s.name} else before) && s.name !in before
  {
    hide CleanVerdict;
    var n := |items| - 1;
    assert items == items[..n] + [items[n]];
    assert forall s :: s in items <==> s in items[..n] || s == items[n];
  }

  lemma {:induction false} TallyCounts(items: seq<Snapshot>, v: Verdict)
    requires Distinct(items)
    ensures Part(CleanTally(items), v) == |NamesWith(items, v)|
  {
    if items != [] {
      TallyCounts(items[..|items| - 1], v);
      NextWith(items, v);
      hide CleanVerdict, NamesWith;
    }
  }

  /** The tally after i of the items. */
  ghost predicate Adds(t: Tally, items: seq<Snapshot>, i: nat, reliable: bool)
    requires i <= |items|
  {
    Total(t) == i && (reliable ==> t == CleanTally(items[..i]))
  }

  lemma AddsOne(t: Tally, items: seq<Snapshot>, i: nat, reliable: bool, verdict: Verdict)
    requires i < |items| && Adds(t, items, i, reliable) && (reliable ==> verdict == CleanVerdict(items[i]))
    ensures Adds(Counted(t, verdict), items, i + 1, reliable)
    ensures Counted(t, verdict).errors == 0 <==> t.errors == 0 && verdict != Error
  {
    assert items[..i + 1][..i] == items[..i];
    CountOne(t, verdict);
    hide CleanVerdict, Counted, Total;
  }

  lemma AddsNothing(items: seq<Snapshot>, reliable: bool)
    ensures Adds(Tally(0, 0, 0), items, 0, reliable)
  {
    assert items[..0] == [];
    hide CleanVerdict, Counted;
  }

  lemma AddsUp(t: Tally, items: seq<Snapshot>, reliable: bool)
    requires Adds(t, items, |items|, reliable)
    ensures Total(t) == |items| && (reliable ==> t == CleanTally(items))
  {
    hide CleanTally, Total;
    assert items[..|items|] == items;
  }

  /** The stored snapshots with a verdict. */
  function StoredWith(snaps: map<string, Snapshot>, v: Verdict): set<string> {
    set n | n in snaps && CleanVerdict(snaps[n]) == v
  }

  lemma StoredAreListed(snaps: map<string, Snapshot>, items: seq<Snapshot>)
    requires forall s :: s in items <==> s.name in snaps && snaps[s.name] == s
    requires forall n :: n in snaps ==> snaps[n].name == n
    ensures forall v :: NamesWith(items, v) == StoredWith(snaps, v)
  {
    hide CleanVerdict;
    forall v ensures NamesWith(items, v) == StoredWith(snaps, v) {
      forall n | n in StoredWith(snaps, v) ensures n in NamesWith(items, v) {
        assert snaps[n] in items;
      }
    }
  }

  lemma NamesDiffer(items: seq<Snapshot>, i: nat)
    requires Distinct(items) && i < |items|
    ensures forall t :: t in items[i + 1..] ==> t.name != items[i].name
  {}

  /** What the loop has come to after the snapshots in `done`, with `left` still to go. */
  ghost predicate SoFar(w0: World, w: World, done: set<string>, left: seq<Snapshot>, finalizer: string, reliable: bool,
                        clean: bool)
  {
    && (OnePerWorkload(w0) ==> Progress(w0, w, done, finalizer))
    && (OnePerWorkload(w0) && reliable ==> Complete(w0, w, done, finalizer))
    && w.snaps.Keys <= w0.snaps.Keys
    && (forall s :: s in left ==> s.name in w.snaps && w.snaps[s.name] == s)
    && (clean ==> forall n :: n in done && n in w.snaps ==> !Pending(w.snaps[n]))
  }

  lemma SoFarStarts(w0: World, items: seq<Snapshot>, finalizer: string, reliable: bool)
    requires forall s :: s in items ==> s.name in w0.snaps && w0.snaps[s.name] == s
    ensures SoFar(w0, w0, {}, items, finalizer, reliable, true)
  {
    ProgressStarts(w0, finalizer);
    CompleteStarts(w0, finalizer);
    hide Progress, Complete, OnePerWorkload, Pending;
  }

  lemma SoFarStep(w0: World, w: World, w': World, done: set<string>, s: Snapshot, left: seq<Snapshot>, finalizer: string,
                  reliable: bool, clean: bool, clean': bool)
    requires SoFar(w0, w, done, [s] + left, finalizer, reliable, clean) && forall t :: t in left ==> t.name != s.name
    requires NamesMatch(w0) && s.name in w0.snaps && w0.snaps[s.name] == s && s.name !in done
    requires PassStep(w, w', s, finalizer) && (reliable ==> FullStep(w, w', s, finalizer))
    requires clean' ==> clean && (s.name in w'.snaps ==> !Pending(w'.snaps[s.name]))
    ensures SoFar(w0, w', done + {s.name}, left, finalizer, reliable, clean')
  {
    hide Progress, Complete, OnePerWorkload, Pending, PassStep, FullStep, NamesMatch;
    StillThere(w0, w, done, s, left, finalizer, reliable, clean);
    SoFarRuns(w0, w, w', done, s, [s] + left, finalizer, reliable, clean);
    StepElsewhere(w, w', s, finalizer);
    assert forall t :: t in left ==> t in [s] + left;
  }

  lemma SoFarRuns(w0: World, w: World, w': World, done: set<string>, s: Snapshot, left: seq<Snapshot>, finalizer: string,
                  reliable: bool, clean: bool)
    requires SoFar(w0, w, done, left, finalizer, reliable, clean) && s.name in w.snaps
    requires NamesMatch(w0) && s.name in w0.snaps && w0.snaps[s.name] == s && s.name !in done
    requires PassStep(w, w', s, finalizer) && (reliable ==> FullStep(w, w', s, finalizer))
    ensures OnePerWorkload(w0) ==> Progress(w0, w', done + {s.name}, finalizer)
    ensures OnePerWorkload(w0) && reliable ==> Complete(w0, w', done + {s.name}, finalizer)
  {
    hide OnePerWorkload, Progress, Complete, PassStep, FullStep, NamesMatch, Pending;
    if OnePerWorkload(w0) {
      ProgressNext(w0, w, w', done, s, finalizer);
      if reliable {
        CompleteNext(w0, w, w', done, s, finalizer);
      }
    }
  }

  lemma ProgressNext(w0: World, w: World, w': World, done: set<string>, s: Snapshot, finalizer: string)
    requires OnePerWorkload(w0) && Progress(w0, w, done, finalizer) && NamesMatch(w0) && s.name !in done
    requires s.name in w0.snaps && w0.snaps[s.name] == s && s.name in w.snaps && PassStep(w, w', s, finalizer)
    ensures Progress(w0, w', done + {s.name}, finalizer)
  {
    hide OnePerWorkload, Progress, PassStep;
    ProgressStep(w0, w, w', done, s.name, finalizer);
  }

  lemma CompleteNext(w0: World, w: World, w': World, done: set<string>, s: Snapshot, finalizer: string)
    requires OnePerWorkload(w0) && Complete(w0, w, done, finalizer) && NamesMatch(w0) && s.name !in done
    requires s.name in w0.snaps && w0.snaps[s.name] == s && FullStep(w, w', s, finalizer)
    ensures Complete(w0, w', done + {s.name}, finalizer)
  {
    hide OnePerWorkload, Complete, FullStep;
    CompleteStep(w0, w, w', done, s.name, finalizer);
  }

  lemma StepElsewhere(w: World, w': World, s: Snapshot, finalizer: string)
    requires PassStep(w, w', s, finalizer)
    ensures ElsewhereSame(w, w', s)
  {}

  lemma VerdictIsClean(w: World, w': World, s: Snapshot, finalizer: string, verdict: Verdict)
    requires PassStep(w, w', s, finalizer) && s.name in w.snaps && w.snaps[s.name] == s
    requires verdict == Skipped ==> !Pending(s)
    requires verdict == RolledBack ==> Finished(s, w'.snaps, ReasonFor(w, s), finalizer)
    ensures verdict != Error ==> s.name in w'.snaps ==> !Pending(w'.snaps[s.name])
  {
    hide ElsewhereSame, Settled, Without, ReasonFor;
  }

  lemma SoFarEnds(w0: World, w: World, finalizer: string, reliable: bool, clean: bool)
    requires SoFar(w0, w, w0.snaps.Keys, [], finalizer, reliable, clean)
    ensures OnePerWorkload(w0) ==> Progress(w0, w, w0.snaps.Keys, finalizer)
    ensures OnePerWorkload(w0) && reliable ==> RollsBack(w0, w, finalizer)
    ensures clean ==> forall n :: n in w.snaps ==> !Pending(w.snaps[n])
  {
    hide Progress, Complete, OnePerWorkload, Pending;
  }

  lemma StillThere(w0: World, w: World, done: set<string>, s: Snapshot, left: seq<Snapshot>, finalizer: string,
                   reliable: bool, clean: bool)
    requires SoFar(w0, w, done, [s] + left, finalizer, reliable, clean)
    ensures s.name in w.snaps && w.snaps[s.name] == s
  {
    assert s in [s] + left;
  }

  lemma ItemNames(w0: World, items: seq<Snapshot>)
    requires NamesMatch(w0)
    requires forall s :: s in items <==> s.name in w0.snaps && w0.snaps[s.name] == s
    ensures Names(items) == w0.snaps.Keys
  {
    forall n | n in w0.snaps.Keys ensures n in Names(items) {
      assert w0.snaps[n] in items;
    }
  }

  /** Doing nothing is a run. */
  lemma ProgressWhole(w0: World, finalizer: string)
    ensures Progress(w0, w0, w0.snaps.Keys, finalizer)
  {
    hide Pending, Settled;
  }

  /** The run after i of the items: what the log shows of it so far, and the state it has come to. */
  ghost predicate Running(cl: Cluster, base: seq<Event>, ev: seq<Event>, w0: World, items: seq<Snapshot>, i: nat,
                          finalizer: string, clean: bool)
    requires i <= |items|
    reads cl
  {
    && Valid(cl.api) && cl.log == base + ev && Justified(ev, w0.snaps)
    && SoFar(w0, WorldOf(cl), Names(items[..i]), items[i..], finalizer, cl.reliable, clean)
  }

  /** One pass, and what it adds to the run. */
  method RollbackPass(cl: Cluster, items: seq<Snapshot>, i: nat, finalizer: string, ghost w0: World, ghost clean: bool,
                      ghost base: seq<Event>, ghost ev0: seq<Event>)
    returns (verdict: Verdict, ghost ev: seq<Event>)
    requires i < |items| && Distinct(items) && NamesMatch(w0)
    requires forall s :: s in items ==> s.name in w0.snaps && w0.snaps[s.name] == s
    requires Running(cl, base, ev0, w0, items, i, finalizer, clean)
    modifies cl
    ensures Running(cl, base, ev, w0, items, i + 1, finalizer, clean && verdict != Error)
    ensures cl.reliable ==> verdict == CleanVerdict(items[i])
  {
    hide CleanVerdict, Valid, SoFar, PassStep, FullStep, Finished, Justified, Pending, NamesMatch, Names, Distinct, Supported, ReasonFor;
    var snap := items[i];
    ghost var w, done, left := WorldOf(cl), Names(items[..i]), items[i + 1..];
    assert items[i..] == [snap] + left;
    NextName(items, i);
    StillThere(w0, w, done, snap, left, finalizer, cl.reliable, clean);
    NamesDiffer(items, i);
    verdict, ev := RollbackOne(cl, snap, finalizer, w0.snaps);
    JustifiedConcat(ev0, ev, w0.snaps);
    ev := ev0 + ev;
    VerdictIsClean(w, WorldOf(cl), snap, finalizer, verdict);
    SoFarStep(w0, w, WorldOf(cl), done, snap, left, finalizer, cl.reliable, clean, clean && verdict != Error);
  }

  /** The whole run. Every listed snapshot is rolled back, skipped or an error; whatever fails, the run is one whose
      repetition is harmless, and its writes are justified; without failing calls it does all there is to do. */
  method Rollback(cl: Cluster, finalizer: string)
    returns (listed: bool, tally: Tally, ghost ev: seq<Event>)
    requires Valid(cl.api)
    modifies cl
    ensures Valid(cl.api) && cl.log == old(cl.log) + ev && Justified(ev, old(cl.api).objs)
    ensures !listed ==> WorldOf(cl) == old(WorldOf(cl)) && Total(tally) == 0 && !cl.reliable
    ensures listed ==> tally.rolledBack + tally.skipped + tally.errors == |old(cl.api).objs|
    ensures cl.reliable ==> forall v :: Part(tally, v) == |StoredWith(old(cl.api).objs, v)|
    ensures OnePerWorkload(old(WorldOf(cl))) ==>
              Progress(old(WorldOf(cl)), WorldOf(cl), old(cl.api).objs.Keys, finalizer)
    ensures OnePerWorkload(old(WorldOf(cl))) && cl.reliable ==> RollsBack(old(WorldOf(cl)), WorldOf(cl), finalizer)
    ensures listed && tally.errors == 0 ==> forall n :: n in cl.api.objs ==> !Pending(cl.api.objs[n])
  {
    tally, ev := Tally(0, 0, 0), [];
    ghost var w0 := WorldOf(cl);
    var items, ok := cl.List();
    listed := ok;
    if !ok {
      ProgressWhole(w0, finalizer);
      return;
    }
    StoredAreListed(cl.api.objs, items);
    forall v ensures Part(CleanTally(items), v) == |NamesWith(items, v)| { TallyCounts(items, v); }
    hide Distinct, Progress, Complete, OnePerWorkload, Justified, Pending, CleanTally, CleanVerdict, NamesWith, StoredWith, Part;
    assert NamesMatch(w0);
    ItemNames(w0, items);
    CountNames(items);
    tally, ev := RollbackItems(cl, items, finalizer, w0);
  }

  /** The loop. */
  method RollbackItems(cl: Cluster, items: seq<Snapshot>, finalizer: string, ghost w0: World)
    returns (tally: Tally, ghost ev: seq<Event>)
    requires Valid(cl.api) && Distinct(items) && NamesMatch(w0) && w0 == WorldOf(cl) && Names(items) == w0.snaps.Keys
    requires forall s :: s in items ==> s.name in w0.snaps && w0.snaps[s.name] == s
    modifies cl
    ensures Valid(cl.api) && cl.log == old(cl.log) + ev && Justified(ev, w0.snaps)
    ensures Total(tally) == |items|
    ensures cl.reliable ==> tally == CleanTally(items)
    ensures OnePerWorkload(w0) ==> Progress(w0, WorldOf(cl), w0.snaps.Keys, finalizer)
    ensures OnePerWorkload(w0) && cl.reliable ==> RollsBack(w0, WorldOf(cl), finalizer)
    ensures tally.errors == 0 ==> forall n :: n in cl.api.objs ==> !Pending(cl.api.objs[n])
  {
    tally, ev := Tally(0, 0, 0), [];
    ghost var base := cl.log;
    RunStarts(cl, w0, items, finalizer);
    AddsNothing(items, cl.reliable);
    hide Adds, CleanTally, CleanVerdict, Total, Counted, Running, Names, Distinct, NamesMatch, Valid, Justified, Progress, RollsBack, OnePerWorkload, Pending;
    for i := 0 to |items|
      invariant Running(cl, base, ev, w0, items, i, finalizer, tally.errors == 0)
      invariant Adds(tally, items, i, cl.reliable)
    {
      var verdict;
      verdict, ev := RollbackPass(cl, items, i, finalizer, w0, tally.errors == 0, base, ev);
      AddsOne(tally, items, i, cl.reliable, verdict);
      tally := Counted(tally, verdict);
    }
    AddsUp(tally, items, cl.reliable);
    RunEnds(cl, base, ev, w0, items, finalizer, tally.errors == 0);
  }

  lemma RunStarts(cl: Cluster, w0: World, items: seq<Snapshot>, finalizer: string)
    requires Valid(cl.api) && w0 == WorldOf(cl)
    requires forall s :: s in items ==> s.name in w0.snaps && w0.snaps[s.name] == s
    ensures Running(cl, cl.log, [], w0, items, 0, finalizer, true)
  {
    SoFarStarts(w0, items, finalizer, cl.reliable);
    assert items[..0] == [] && items[0..] == items && Names(items[..0]) == {};
    assert Justified([], w0.snaps);
    hide Valid, SoFar, Justified;
  }

  lemma RunEnds(cl: Cluster, base: seq<Event>, ev: seq<Event>, w0: World, items: seq<Snapshot>, finalizer: string,
                clean: bool)
    requires Running(cl, base, ev, w0, items, |items|, finalizer, clean) && Names(items) == w0.snaps.Keys
    ensures Valid(cl.api) && cl.log == base + ev && Justified(ev, w0.snaps)
    ensures OnePerWorkload(w0) ==> Progress(w0, WorldOf(cl), w0.snaps.Keys, finalizer)
    ensures OnePerWorkload(w0) && cl.reliable ==> RollsBack(w0, WorldOf(cl), finalizer)
    ensures clean ==> forall n :: n in cl.api.objs ==> !Pending(cl.api.objs[n])
  {
    assert items[..|items|] == items && items[|items|..] == [];
    hide Valid, SoFar, Justified, Progress, RollsBack, OnePerWorkload, Pending, Names;
    SoFarEnds(w0, WorldOf(cl), finalizer, cl.reliable, clean);
  }
}
