/** Repeating a rollback. */
module RollbackTheorems {
  import opened Basics
  import opened JsonMergePatch
  import opened Conditions
  import opened Finalizers
  import opened TscInverse
  import opened SnapshotApi
  import opened SnapshotCluster
  import opened RollbackModel

  ghost predicate NamesMatch(w: World) { forall n :: n in w.snaps ==> w.snaps[n].name == n }

  lemma MarkedIsNotPending(was: Snapshot, now: Snapshot, reason: string, finalizer: string)
    requires MarkedAs(was, now, reason, finalizer)
    ensures !Pending(now)
  {}

  lemma WithoutTwice(fs: seq<string>, name: string)
    ensures Without(Without(fs, name), name) == Without(fs, name)
  {
    WithoutMembers(fs, name);
    assert name !in multiset(Without(fs, name));
    WithoutMembers(Without(fs, name), name);
  }

  /** A failure-free run is one of the runs that may happen. */
  lemma CompleteIsProgress(w0: World, w: World, done: set<string>, finalizer: string)
    requires Complete(w0, w, done, finalizer)
    requires NamesMatch(w0)
    ensures Progress(w0, w, done, finalizer)
  {
    hide Restore, Hits, IsRolledBack;
    forall r | r in w0.workloads ensures WorkloadKept(w0, w, done, r) {
      assert WorkloadDone(w0, w, done, r);
    }
    forall n | n in w0.snaps ensures SnapKept(w0, w, done, n, finalizer) {
      assert SnapDone(w0, w, done, n, finalizer);
      DoneIsKept(w0, w, done, n, finalizer);
    }
  }

  lemma DoneIsKept(w0: World, w: World, done: set<string>, n: string, finalizer: string)
    requires Complete(w0, w, done, finalizer) && n in w0.snaps && w0.snaps[n].name == n
    ensures SnapKept(w0, w, done, n, finalizer)
  {
    assert SnapDone(w0, w, done, n, finalizer);
    hide Restore, IsRolledBack;
    var was := w0.snaps[n];
    if n in done && Pending(was) && Supported(was) {
      if Hits(w0.workloads, was) {
        assert Due(w0, n, RefOf(was)) && WorkloadDone(w0, w, done, RefOf(was));
      }
      if n in w.snaps {
        MarkedIsNotPending(was, w.snaps[n], ReasonFor(w0, was), finalizer);
      }
    }
  }

  lemma CompleteStep(w0: World, w: World, w': World, done: set<string>, n: string, finalizer: string)
    requires OnePerWorkload(w0) && Complete(w0, w, done, finalizer) && n !in done && n in w0.snaps
    requires NamesMatch(w0)
    requires FullStep(w, w', w0.snaps[n], finalizer)
    ensures Complete(w0, w', done + {n}, finalizer)
  {
    forall r | r in w0.workloads ensures WorkloadDone(w0, w', done + {n}, r) {
      CompleteTarget(w0, w, w', done, n, r, finalizer);
    }
    forall m | m in w0.snaps ensures SnapDone(w0, w', done + {n}, m, finalizer) {
      ReasonStands(w0, w, done, n, finalizer);
      CompleteSnap(w0, w, w', done, n, m, finalizer);
    }
    hide WorkloadDone, SnapDone, NamesMatch, OnePerWorkload, Pending, Hits, Restore, Supported, Finished;
  }

  lemma ReasonStands(w0: World, w: World, done: set<string>, n: string, finalizer: string)
    requires OnePerWorkload(w0) && Complete(w0, w, done, finalizer) && n !in done && n in w0.snaps && NamesMatch(w0)
    ensures Pending(w0.snaps[n]) ==> ReasonFor(w, w0.snaps[n]) == ReasonFor(w0, w0.snaps[n])
    ensures Pending(w0.snaps[n]) ==> (Hits(w.workloads, w0.snaps[n]) <==> Hits(w0.workloads, w0.snaps[n]))
  {
    CompleteIsProgress(w0, w, done, finalizer);
    if Pending(w0.snaps[n]) {
      TargetUntouched(w0, w, done, n, finalizer);
    }
    hide Hits, Progress, Complete, Pending, OnePerWorkload, NamesMatch;
  }

  lemma CompleteTarget(w0: World, w: World, w': World, done: set<string>, n: string, r: Ref, finalizer: string)
    requires OnePerWorkload(w0) && Complete(w0, w, done, finalizer) && n !in done && n in w0.snaps && r in w0.workloads
    requires NamesMatch(w0) && FullStep(w, w', w0.snaps[n], finalizer)
    ensures r in w'.workloads && WorkloadDone(w0, w', done + {n}, r)
  {
    ReasonStands(w0, w, done, n, finalizer);
    assert r in w.workloads && WorkloadDone(w0, w, done, r);
    hide WorkloadDone, OnePerWorkload, Hits, Restore, Pending, NamesMatch, Finished;
    CompleteWorkload(w0, w, w', done, n, r, finalizer);
  }

  lemma CompleteSnap(w0: World, w: World, w': World, done: set<string>, n: string, m: string, finalizer: string)
    requires Complete(w0, w, done, finalizer) && n !in done && n in w0.snaps && m in w0.snaps
    requires NamesMatch(w0)
    requires Pending(w0.snaps[n]) ==> ReasonFor(w, w0.snaps[n]) == ReasonFor(w0, w0.snaps[n])
    requires FullStep(w, w', w0.snaps[n], finalizer)
    ensures SnapDone(w0, w', done + {n}, m, finalizer)
  {
    assert SnapDone(w0, w, done, m, finalizer) && SnapDone(w0, w, done, n, finalizer);
    hide Restore, IsRolledBack, MarkedAs, WorkloadDone, ReasonFor, Hits;
  }

  lemma CompleteWorkload(w0: World, w: World, w': World, done: set<string>, n: string, r: Ref, finalizer: string)
    requires OnePerWorkload(w0) && r in w0.workloads && r in w.workloads && WorkloadDone(w0, w, done, r) && n in w0.snaps
    requires w'.workloads.Keys == w.workloads.Keys && n !in done
    requires r != RefOf(w0.snaps[n]) ==> w'.workloads[r] == w.workloads[r]
    requires Pending(w0.snaps[n]) ==> (Hits(w.workloads, w0.snaps[n]) <==> Hits(w0.workloads, w0.snaps[n]))
    requires r == RefOf(w0.snaps[n]) ==>
      w'.workloads[r] ==
      if Pending(w0.snaps[n]) && Hits(w.workloads, w0.snaps[n]) then Restore(w.workloads[r], w0.snaps[n]) else w.workloads[r]
    ensures WorkloadDone(w0, w', done + {n}, r)
  {
    hide Restore, IsRolledBack, Hits;
    if Due(w0, n, r) {
      assert forall m :: m in done ==> !Due(w0, m, r);
    } else {
      assert w'.workloads[r] == w.workloads[r];
    }
    hide Pending, OnePerWorkload;
  }

  // ----- repeating -----

  lemma RestoreTwice(w: StoredWorkload, s: Snapshot, t: Snapshot)
    requires s.spec == t.spec
    ensures Restore(Restore(w, s), t) == Restore(w, s)
  {
    MergeTwice(w.doc, InverseBody(s.spec));
  }

  /** What is still due after a run was due before it. */
  lemma StillDue(w0: World, w1: World, done: set<string>, n: string, r: Ref, finalizer: string)
    requires Progress(w0, w1, done, finalizer) && Due(w1, n, r)
    ensures Due(w0, n, r) && w1.snaps[n].spec == w0.snaps[n].spec
  {
    assert SnapKept(w0, w1, done, n, finalizer);
    hide IsRolledBack, Settled;
    assert WorkloadKept(w0, w1, done, r);
  }

  /** Where a workload ends that had something due at the start. */
  lemma DueIsRestored(w0: World, w1: World, w2: World, done: set<string>, finalizer: string, n: string, r: Ref)
    requires OnePerWorkload(w0) && Progress(w0, w1, done, finalizer) && RollsBack(w1, w2, finalizer) && Due(w0, n, r)
    ensures r in w2.workloads && w2.workloads[r] == Restore(w0.workloads[r], w0.snaps[n])
  {
    var s := w0.snaps[n];
    assert r in w1.workloads && WorkloadKept(w0, w1, done, r);
    assert WorkloadDone(w1, w2, w1.snaps.Keys, r);
    assert SnapKept(w0, w1, done, n, finalizer);
    if Due(w1, n, r) {
      StillDue(w0, w1, done, n, r, finalizer);
      RestoreTwice(w0.workloads[r], s, w1.snaps[n]);
      RestoreSame(w0.workloads[r], s, w1.snaps[n]);
    } else {
      forall m | m in w1.snaps.Keys ensures !Due(w1, m, r) {
        if Due(w1, m, r) {
          StillDue(w0, w1, done, m, r, finalizer);
        }
      }
      hide Restore, IsRolledBack, WorkloadDone, WorkloadKept;
      assert w2.workloads[r] == w1.workloads[r];
      DueOrSettled(w0, w1, n, r, done, finalizer);
    }
    hide Progress, Restore, Due, RollsBack, OnePerWorkload;
  }

  lemma RestoreSame(w: StoredWorkload, s: Snapshot, t: Snapshot)
    requires s.spec == t.spec
    ensures Restore(w, s) == Restore(w, t)
  {}

  lemma DueOrSettled(w0: World, w1: World, n: string, r: Ref, done: set<string>, finalizer: string)
    requires Progress(w0, w1, done, finalizer) && Due(w0, n, r) && !Due(w1, n, r)
    ensures r in w1.workloads && w1.workloads[r] == Restore(w0.workloads[r], w0.snaps[n])
  {
    assert SnapKept(w0, w1, done, n, finalizer) && WorkloadKept(w0, w1, done, r);
    hide IsRolledBack;
  }

  ghost predicate NoneDue(w: World, r: Ref) { forall n :: !Due(w, n, r) }

  /** Each workload with something due is restored, the others are untouched. */
  ghost predicate Delivered(w0: World, w: World) {
    && w.workloads.Keys == w0.workloads.Keys
    && (forall n, r :: Due(w0, n, r) ==> r in w0.workloads && w.workloads[r] == Restore(w0.workloads[r], w0.snaps[n]))
    && (forall r :: r in w0.workloads && NoneDue(w0, r) ==> w.workloads[r] == w0.workloads[r])
  }

  lemma NothingDueStays(w0: World, w1: World, w2: World, done: set<string>, finalizer: string, r: Ref)
    requires Progress(w0, w1, done, finalizer) && RollsBack(w1, w2, finalizer) && r in w0.workloads
    requires NoneDue(w0, r)
    ensures r in w2.workloads && w2.workloads[r] == w0.workloads[r]
  {
    assert r in w1.workloads && WorkloadKept(w0, w1, done, r);
    assert WorkloadDone(w1, w2, w1.snaps.Keys, r);
    hide Due, Progress, RollsBack;
    forall n | n in w1.snaps.Keys ensures !Due(w1, n, r) {
      if Due(w1, n, r) {
        StillDue(w0, w1, done, n, r, finalizer);
      }
    }
  }

  lemma FlagAtEnd(w0: World, w1: World, w2: World, done: set<string>, finalizer: string, n: string)
    requires Progress(w0, w1, done, finalizer) && RollsBack(w1, w2, finalizer) && n in w0.snaps && w0.snaps[n].name == n
    ensures
      var s := w0.snaps[n];
      if Pending(s) && Supported(s) && s.deleting && Without(s.finalizers, finalizer) == [] then
        n in w2.snaps ==> !Pending(w2.snaps[n])
      else n in w2.snaps && (Pending(w2.snaps[n]) <==> Pending(s) && !Supported(s))
  {
    var s := w0.snaps[n];
    assert SnapKept(w0, w1, done, n, finalizer);
    hide Settled, IsRolledBack, MarkedAs, Progress;
    WithoutTwice(s.finalizers, finalizer);
    if n in w1.snaps {
      var t := w1.snaps[n];
      assert SnapDone(w1, w2, w1.snaps.Keys, n, finalizer);
      if n in w2.snaps && Pending(t) && Supported(t) {
        MarkedIsNotPending(t, w2.snaps[n], ReasonFor(w1, t), finalizer);
      }
      SettledIsSupported(w0, w1, s);
      hide ReasonFor;
    } else {
      SettledIsSupported(w0, w1, s);
    }
    hide RollsBack;
  }

  lemma SettledIsSupported(w0: World, w: World, s: Snapshot)
    ensures Settled(w0, w, s) ==> Supported(s)
  {}

  /** A run that fails or stops anywhere, then a failure-free one, leaves the workloads and the flags that one
      failure-free run leaves: whatever had a restoration due carries it, every other workload is untouched, and what
      is still stored is rolled back unless its target cannot even be looked up. */
  lemma RollbackSurvivesFailure(w0: World, w1: World, w2: World, direct: World, done: set<string>, finalizer: string)
    requires OnePerWorkload(w0) && NamesMatch(w0)
    requires Progress(w0, w1, done, finalizer) && RollsBack(w1, w2, finalizer) && RollsBack(w0, direct, finalizer)
    ensures w2.workloads == direct.workloads && Delivered(w0, w2)
    ensures direct.snaps.Keys <= w2.snaps.Keys <= w0.snaps.Keys
    ensures forall n :: n in direct.snaps ==> (Pending(w2.snaps[n]) <==> Pending(direct.snaps[n]))
    ensures forall n :: n in w2.snaps ==> (Pending(w2.snaps[n]) <==> Pending(w0.snaps[n]) && !Supported(w0.snaps[n]))
  {
    ProgressStarts(w0, finalizer);
    RunKeys(w0, w1, w2, done, finalizer);
    RunKeys(w0, w0, direct, {}, finalizer);
    RunDelivers(w0, w1, w2, done, finalizer);
    RunDelivers(w0, w0, direct, {}, finalizer);
    DeliveredOnce(w0, w2, direct);
    forall n | n in w0.snaps ensures FlagsAgree(w0, w2, direct, n) {
      FlagsAtEnd(w0, w1, w2, direct, done, finalizer, n);
    }
    hide RollsBack, Progress, Delivered, Pending, Supported, OnePerWorkload;
    forall n | n in direct.snaps ensures n in w2.snaps && (Pending(w2.snaps[n]) <==> Pending(direct.snaps[n])) {
      assert FlagsAgree(w0, w2, direct, n);
    }
    forall n | n in w2.snaps ensures Pending(w2.snaps[n]) <==> Pending(w0.snaps[n]) && !Supported(w0.snaps[n]) {
      assert FlagsAgree(w0, w2, direct, n);
    }
  }

  lemma FlagsAtEnd(w0: World, w1: World, w2: World, direct: World, done: set<string>, finalizer: string, n: string)
    requires NamesMatch(w0) && n in w0.snaps
    requires Progress(w0, w1, done, finalizer) && RollsBack(w1, w2, finalizer) && RollsBack(w0, direct, finalizer)
    ensures FlagsAgree(w0, w2, direct, n)
  {
    var s := w0.snaps[n];
    ProgressStarts(w0, finalizer);
    FlagAtEnd(w0, w1, w2, done, finalizer, n);
    FlagAtEnd(w0, w0, direct, {}, finalizer, n);
    hide Progress, Pending, Supported, Without, NamesMatch;
    if Pending(s) && Supported(s) && s.deleting && Without(s.finalizers, finalizer) == [] {
      GoneDirectly(w0, direct, finalizer, n);
    }
    hide RollsBack;
  }

  predicate FlagsAgree(w0: World, w2: World, direct: World, n: string)
    requires n in w0.snaps
  {
    && (n in direct.snaps ==> n in w2.snaps && (Pending(w2.snaps[n]) <==> Pending(direct.snaps[n])))
    && (n in w2.snaps ==> (Pending(w2.snaps[n]) <==> Pending(w0.snaps[n]) && !Supported(w0.snaps[n])))
  }

  lemma RunDelivers(w0: World, w1: World, w2: World, done: set<string>, finalizer: string)
    requires OnePerWorkload(w0) && Progress(w0, w1, done, finalizer) && RollsBack(w1, w2, finalizer)
    ensures Delivered(w0, w2)
  {
    RunKeys(w0, w1, w2, done, finalizer);
    forall n, r | Due(w0, n, r) ensures r in w0.workloads && w2.workloads[r] == Restore(w0.workloads[r], w0.snaps[n]) {
      DueIsRestored(w0, w1, w2, done, finalizer, n, r);
    }
    hide Due;
    forall r | r in w0.workloads && NoneDue(w0, r) ensures w2.workloads[r] == w0.workloads[r] {
      NothingDueStays(w0, w1, w2, done, finalizer, r);
    }
    hide Progress, RollsBack, Restore, NoneDue, OnePerWorkload;
  }

  lemma DeliveredOnce(w0: World, a: World, b: World)
    requires Delivered(w0, a) && Delivered(w0, b)
    ensures a.workloads == b.workloads
  {
    hide Due, Restore;
    forall r | r in w0.workloads ensures a.workloads[r] == b.workloads[r] {
      if NoneDue(w0, r) {
      } else {
        var n :| Due(w0, n, r);
      }
    }
  }

  lemma GoneDirectly(w0: World, direct: World, finalizer: string, n: string)
    requires RollsBack(w0, direct, finalizer) && n in w0.snaps && w0.snaps[n].name == n
    requires Pending(w0.snaps[n]) && Supported(w0.snaps[n]) && w0.snaps[n].deleting
    requires Without(w0.snaps[n].finalizers, finalizer) == []
    ensures n !in direct.snaps
  {
    assert SnapDone(w0, direct, w0.snaps.Keys, n, finalizer);
  }

  lemma RunKeys(w0: World, w1: World, w2: World, done: set<string>, finalizer: string)
    requires Progress(w0, w1, done, finalizer) && RollsBack(w1, w2, finalizer)
    ensures w2.workloads.Keys == w0.workloads.Keys && w2.snaps.Keys <= w0.snaps.Keys
  {}

  // ----- any number of failing runs -----

  /** Runs add up: one after another is a run from the first state. */
  lemma ProgressTwice(w0: World, w1: World, w2: World, finalizer: string)
    requires OnePerWorkload(w0)
    requires Progress(w0, w1, w0.snaps.Keys, finalizer) && Progress(w1, w2, w1.snaps.Keys, finalizer)
    ensures Progress(w0, w2, w0.snaps.Keys, finalizer)
  {
    var all, all1 := w0.snaps.Keys, w1.snaps.Keys;
    forall r | r in w0.workloads ensures WorkloadKept(w0, w2, all, r) {
      WorkloadTwice(w0, w1, w2, finalizer, r);
    }
    forall n | n in w0.snaps ensures SnapKept(w0, w2, all, n, finalizer) {
      SnapTwice(w0, w1, w2, finalizer, n);
    }
    hide WorkloadKept, SnapKept, OnePerWorkload;
  }

  lemma WorkloadTwice(w0: World, w1: World, w2: World, finalizer: string, r: Ref)
    requires OnePerWorkload(w0) && r in w0.workloads
    requires Progress(w0, w1, w0.snaps.Keys, finalizer) && Progress(w1, w2, w1.snaps.Keys, finalizer)
    ensures r in w2.workloads && WorkloadKept(w0, w2, w0.snaps.Keys, r)
  {
    assert WorkloadKept(w0, w1, w0.snaps.Keys, r) && r in w1.workloads && WorkloadKept(w1, w2, w1.snaps.Keys, r);
    if w2.workloads[r] != w1.workloads[r] {
      var n :| n in w1.snaps.Keys && Due(w1, n, r) && w2.workloads[r] == Restore(w1.workloads[r], w1.snaps[n]);
      StillDue(w0, w1, w0.snaps.Keys, n, r, finalizer);
      RestoreTwice(w0.workloads[r], w0.snaps[n], w1.snaps[n]);
      RestoreSame(w0.workloads[r], w0.snaps[n], w1.snaps[n]);
      hide Progress, Restore, Due;
    }
  }

  lemma SnapTwice(w0: World, w1: World, w2: World, finalizer: string, n: string)
    requires OnePerWorkload(w0) && n in w0.snaps
    requires Progress(w0, w1, w0.snaps.Keys, finalizer) && Progress(w1, w2, w1.snaps.Keys, finalizer)
    ensures SnapKept(w0, w2, w0.snaps.Keys, n, finalizer)
  {
    var s := w0.snaps[n];
    assert SnapKept(w0, w1, w0.snaps.Keys, n, finalizer);
    WithoutTwice(s.finalizers, finalizer);
    if Pending(s) && Settled(w0, w1, s) {
      SettledForGood(w0, w1, w2, finalizer, n);
    }
    if n in w1.snaps {
      var t := w1.snaps[n];
      assert SnapKept(w1, w2, w1.snaps.Keys, n, finalizer);
      if Pending(s) && Pending(t) && Settled(w1, w2, t) {
        SettledLater(w0, w1, w2, finalizer, n);
      }
    }
    hide Settled, Progress, OnePerWorkload, IsRolledBack, Without;
  }

  lemma SettledLater(w0: World, w1: World, w2: World, finalizer: string, n: string)
    requires Progress(w0, w1, w0.snaps.Keys, finalizer) && n in w0.snaps && n in w1.snaps && OnePerWorkload(w0)
    requires Pending(w0.snaps[n]) && Pending(w1.snaps[n]) && Settled(w1, w2, w1.snaps[n])
    ensures Settled(w0, w2, w0.snaps[n])
  {
    var s, t, r := w0.snaps[n], w1.snaps[n], RefOf(w0.snaps[n]);
    assert SnapKept(w0, w1, w0.snaps.Keys, n, finalizer);
    if Hits(w0.workloads, s) {
      assert Due(w0, n, r);
      assert r in w1.workloads && WorkloadKept(w0, w1, w0.snaps.Keys, r);
      RestoreTwice(w0.workloads[r], s, t);
      RestoreSame(w0.workloads[r], s, t);
    }
    hide Progress, Merge, IsRolledBack, InverseBody;
  }

  lemma SettledForGood(w0: World, w1: World, w2: World, finalizer: string, n: string)
    requires OnePerWorkload(w0) && n in w0.snaps
    requires Progress(w0, w1, w0.snaps.Keys, finalizer) && Progress(w1, w2, w1.snaps.Keys, finalizer)
    requires Pending(w0.snaps[n]) && Settled(w0, w1, w0.snaps[n])
    ensures Settled(w0, w2, w0.snaps[n])
  {
    var s, r := w0.snaps[n], RefOf(w0.snaps[n]);
    if Hits(w0.workloads, s) {
      assert Due(w0, n, r);
      assert r in w1.workloads && WorkloadKept(w1, w2, w1.snaps.Keys, r);
      if w2.workloads[r] != w1.workloads[r] {
        var m :| m in w1.snaps.Keys && Due(w1, m, r) && w2.workloads[r] == Restore(w1.workloads[r], w1.snaps[m]);
        StillDue(w0, w1, w0.snaps.Keys, m, r, finalizer);
        assert m == n;
        RestoreTwice(w0.workloads[r], s, w1.snaps[n]);
      }
    }
    hide Progress, Restore, IsRolledBack, OnePerWorkload;
  }

  /** One pending snapshot per workload is needed. With two that hold different values, a run that restores the first
      but fails to mark it, followed by a failure-free run, ends with the first value; one failure-free run ends with
      the second. */
  lemma TwoSnapshotsDisagree(a: Snapshot, b: Snapshot, finalizer: string, w0: World, d1: World, d2: World,
                             f1: World, f2: World, f3: World)
    requires Pending(a) && Pending(b) && a.spec.target == b.spec.target && Hits(w0.workloads, a)
    requires InverseValue(a.spec) != InverseValue(b.spec)
    requires FullStep(w0, d1, a, finalizer) && FullStep(d1, d2, b, finalizer)
    requires PassStep(w0, f1, a, finalizer) && f1.workloads[RefOf(a)] == Restore(w0.workloads[RefOf(a)], a)
    requires FullStep(f1, f2, b, finalizer) && FullStep(f2, f3, a, finalizer)
    ensures f3.workloads[RefOf(a)] != d2.workloads[RefOf(a)]
    ensures ValueAt(f3.workloads[RefOf(a)].doc, TSC_PATH) != ValueAt(d2.workloads[RefOf(a)].doc, TSC_PATH)
  {
    var r := RefOf(a);
    hide Finished, Settled, ValueAt, Pending, InverseValue;
    RestoredValue(d1.workloads[r], b);
    RestoredValue(f2.workloads[r], a);
    RestoreKeepsUid(w0.workloads[r], a);
    RestoreKeepsUid(f1.workloads[r], b);
    hide Restore;
    assert d2.workloads[r] == Restore(d1.workloads[r], b);
    assert f3.workloads[r] == Restore(f2.workloads[r], a);
  }

  lemma RestoredValue(w: StoredWorkload, s: Snapshot)
    ensures ValueAt(Restore(w, s).doc, TSC_PATH) == if InverseValue(s.spec).Null? then None else Some(InverseValue(s.spec))
  {
    BodyIsNested(s.spec);
    NestedPatchHits(w.doc, TSC_PATH, InverseValue(s.spec));
    hide ValueAt, Nest, InverseBody;
  }

  lemma RestoreKeepsUid(w: StoredWorkload, s: Snapshot)
    ensures Restore(w, s).uid == w.uid
  {}

  /** A workload whose snapshot was taken by the capture path gets its captured constraints back, and keeps the rest
      of what it has become. */
  lemma CapturedComesBack(w0: World, w1: World, w2: World, done: set<string>, finalizer: string,
                          n: string, r: Ref, target: TargetRef, current: Slice, q: seq<string>)
    requires OnePerWorkload(w0) && Progress(w0, w1, done, finalizer) && RollsBack(w1, w2, finalizer) && Due(w0, n, r)
    requires w0.snaps[n].spec == DecodeSpec(EncodeSpec(Captured(target, current)))
    ensures r in w2.workloads && Constraints(w2.workloads[r].doc) == current
    ensures !Prefix(q, TSC_PATH) && !Prefix(TSC_PATH, q) ==> ValueAt(w2.workloads[r].doc, q) == ValueAt(w0.workloads[r].doc, q)
  {
    DueIsRestored(w0, w1, w2, done, finalizer, n, r);
    InverseRestores(target, current, w0.workloads[r].doc, q);
    hide Progress, RollsBack, InverseBody, Merge, DecodeSpec, EncodeSpec, Captured, Constraints, OnePerWorkload;
  }
}
