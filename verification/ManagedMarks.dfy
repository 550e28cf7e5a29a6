/** The start-up pass that takes the mark workloads.cast.ai/tsc-managed off workloads whose snapshot is missing. It opens
    the gate in front of the next capture that tests this mark. The lost-snapshot guard inside the capture call reads
    another annotation, so the pass does nothing about it. */
module ManagedMarks {
  import opened Basics
  import opened Json
  import opened JsonMergePatch
  import opened TscInverse
  import opened SnapshotApi
  import opened SnapshotCluster
  import opened Capture
  import opened TscCapture

  function AnnotationPath(key: string): seq<string> { ["metadata", "annotations", key] }

  /** The annotations of a workload, as the typed client reads them. */
  function AnnotationsOf(w: StoredWorkload): map<string, string> {
    var top := Members(w.doc);
    var metadata := if "metadata" in top then Members(top["metadata"]) else map[];
    var m := if "annotations" in metadata then Members(metadata["annotations"]) else map[];
    map k | k in m && m[k].Str? :: m[k].s
  }

  lemma AnnotationIsMember(w: StoredWorkload, key: string)
    ensures IsTrue(AnnotationsOf(w), key) <==> ValueAt(w.doc, AnnotationPath(key)) == Some(Str("true"))
  {
    var p := AnnotationPath(key);
    assert p[1..] == ["annotations", key] && p[1..][1..] == [key] && p[1..][1..][1..] == [];
    var top := Members(w.doc);
    if "metadata" in top {
      var metadata := Members(top["metadata"]);
      assert ValueAt(w.doc, p) == ValueAt(top["metadata"], ["annotations", key]);
      if "annotations" in metadata {
        var m := Members(metadata["annotations"]);
        assert ValueAt(top["metadata"], ["annotations", key]) == ValueAt(metadata["annotations"], [key]);
        assert ValueAt(metadata["annotations"], [key]) == if key in m then Some(m[key]) else None;
      }
    }
  }

  const MARK_PATH := AnnotationPath(MARK)

  /** The test in front of a capture. */
  predicate HasMark(w: StoredWorkload) { IsTrue(AnnotationsOf(w), MARK) }

  /** How a workload's snapshot is named; it depends on the UID. */
  type Naming = (Ref, string) -> string

  const STRIP_BODY := Nest(MARK_PATH, Null)

  function Stripped(w: StoredWorkload): StoredWorkload { w.(doc := Merge(w.doc, STRIP_BODY)) }

  /** The workload is marked, but its snapshot is not stored. */
  predicate Stale(st: ApiState, w: StoredWorkload, ref: Ref, naming: Naming) {
    HasMark(w) && naming(ref, w.uid) !in st.objs
  }

  /** Stripping takes off the mark, keeps the UID, and changes no other member, in particular no other annotation. */
  lemma StripIsExact(w: StoredWorkload, q: seq<string>, key: string)
    ensures !HasMark(Stripped(w)) && Stripped(w).uid == w.uid
    ensures !Prefix(q, MARK_PATH) && !Prefix(MARK_PATH, q) ==> ValueAt(Stripped(w).doc, q) == ValueAt(w.doc, q)
    ensures key != MARK ==> (IsTrue(AnnotationsOf(Stripped(w)), key) <==> IsTrue(AnnotationsOf(w), key))
  {
    NestedPatchHits(w.doc, MARK_PATH, Null);
    if !Prefix(q, MARK_PATH) && !Prefix(MARK_PATH, q) {
      NestedPatchMisses(w.doc, MARK_PATH, Null, q);
    }
    var p := AnnotationPath(key);
    AnnotationIsMember(Stripped(w), MARK);
    AnnotationIsMember(Stripped(w), key);
    AnnotationIsMember(w, key);
    if key != MARK {
      assert p[..3] == p && MARK_PATH[..3] == MARK_PATH && p[2] != MARK_PATH[2];
      NestedPatchMisses(w.doc, MARK_PATH, Null, p);
    }
    hide ValueAt, Prefix, Merge, Nest, AnnotationsOf;
  }

  /** From one state to another, only stale workloads have been stripped; those in `sure` have been, if stale. */
  predicate OnlyStale(st: ApiState, before: map<Ref, StoredWorkload>, after: map<Ref, StoredWorkload>, sure: set<Ref>, naming: Naming) {
    && after.Keys == before.Keys
    && forall r :: r in before ==>
         || (after[r] == before[r] && (r in sure ==> !Stale(st, before[r], r, naming)))
         || (after[r] == Stripped(before[r]) && Stale(st, before[r], r, naming))
  }

  /** One workload as it was listed. */
  method ReconcileOneManagedWorkload(cl: Cluster, ref: Ref, naming: Naming)
    requires ref in cl.workloads && HasMark(cl.workloads[ref])
    modifies cl`workloads, cl`log
    ensures cl.workloads == old(cl.workloads)
            || (Stale(cl.api, old(cl.workloads)[ref], ref, naming)
                && cl.workloads == old(cl.workloads)[ref := Stripped(old(cl.workloads)[ref])])
    ensures cl.reliable && Stale(cl.api, old(cl.workloads)[ref], ref, naming) ==>
              cl.workloads == old(cl.workloads)[ref := Stripped(old(cl.workloads)[ref])]
  {
    hide ValueAt, Merge;
    var found := cl.Get(naming(ref, cl.workloads[ref].uid));
    if found.Missing? {
      var e := cl.PatchWorkload(ref, STRIP_BODY);
    }
  }

  lemma StaleStep(st: ApiState, before: map<Ref, StoredWorkload>, mid: map<Ref, StoredWorkload>, after: map<Ref, StoredWorkload>,
                  sure: set<Ref>, ref: Ref, reliable: bool, naming: Naming)
    requires OnlyStale(st, before, mid, if reliable then sure else {}, naming) && ref in before && ref in mid
    requires after == mid || (Stale(st, mid[ref], ref, naming) && after == mid[ref := Stripped(mid[ref])])
    requires reliable && Stale(st, mid[ref], ref, naming) ==> after == mid[ref := Stripped(mid[ref])]
    ensures OnlyStale(st, before, after, if reliable then sure + {ref} else {}, naming)
  {
    StripIsExact(before[ref], [], MARK);
    hide HasMark, Stripped;
  }

  function OfKind(ws: map<Ref, StoredWorkload>, kind: string): set<Ref> { set r | r in ws && r.kind == kind }

  function Elements(items: seq<Ref>): set<Ref> { set r | r in items }

  lemma NextElement(items: seq<Ref>, i: nat)
    requires i < |items|
    ensures Elements(items[..i + 1]) == Elements(items[..i]) + {items[i]}
  {
    assert items[..i + 1] == items[..i] + [items[i]];
  }

  /** The workloads of one kind. A failing call affects one workload only. */
  method ReconcileKind(cl: Cluster, kind: string, naming: Naming, ghost start: map<Ref, StoredWorkload>, ghost sure: set<Ref>)
    returns (ok: bool)
    requires OnlyStale(cl.api, start, cl.workloads, if cl.reliable then sure else {}, naming)
    modifies cl`workloads, cl`log
    ensures cl.reliable ==> ok
    ensures OnlyStale(cl.api, start, cl.workloads,
                      if cl.reliable then sure + OfKind(start, kind) else {}, naming)
  {
    var items;
    items, ok := cl.ListWorkloads(kind);
    if !ok {
      return;
    }
    assert Elements(items) == OfKind(start, kind);
    assert sure + Elements(items[..0]) == sure;
    hide HasMark, Stale, Stripped, Elements, OfKind, OnlyStale;
    for i := 0 to |items|
      invariant OnlyStale(cl.api, start, cl.workloads, if cl.reliable then sure + Elements(items[..i]) else {}, naming)
    {
      var ref := items[i];
      SameKeys(cl.api, start, cl.workloads, if cl.reliable then sure + Elements(items[..i]) else {}, naming);
      assert ref in items;
      NextElement(items, i);
      assert sure + Elements(items[..i + 1]) == (sure + Elements(items[..i])) + {ref};
      ghost var mid := cl.workloads;
      if HasMark(cl.workloads[ref]) {
        ReconcileOneManagedWorkload(cl, ref, naming);
      } else {
        UnmarkedIsFresh(cl.api, cl.workloads[ref], ref, naming);
      }
      StaleStep(cl.api, start, mid, cl.workloads, sure + Elements(items[..i]), ref, cl.reliable, naming);
    }
    assert items[..|items|] == items;
  }

  lemma SameKeys(st: ApiState, before: map<Ref, StoredWorkload>, after: map<Ref, StoredWorkload>, sure: set<Ref>, naming: Naming)
    requires OnlyStale(st, before, after, sure, naming)
    ensures after.Keys == before.Keys
  {}

  lemma UnmarkedIsFresh(st: ApiState, w: StoredWorkload, ref: Ref, naming: Naming)
    requires !HasMark(w)
    ensures !Stale(st, w, ref, naming)
  {}

  predicate Listed(r: Ref) { r.kind == "Deployment" || r.kind == "StatefulSet" }

  /** What a pass without failing calls does: exactly the stale workloads of both kinds are stripped. */
  predicate Swept(st: ApiState, before: map<Ref, StoredWorkload>, after: map<Ref, StoredWorkload>, naming: Naming) {
    && after.Keys == before.Keys
    && forall r :: r in before && Listed(r) ==>
         after[r] == if Stale(st, before[r], r, naming) then Stripped(before[r]) else before[r]
  }

  /** The pass. It only ever strips workloads whose snapshot is missing, and without failing calls all of them. */
  method ReconcileManagedAnnotations(cl: Cluster, naming: Naming) returns (ok: bool)
    modifies cl`workloads, cl`log
    ensures OnlyStale(cl.api, old(cl.workloads), cl.workloads, {}, naming)
    ensures cl.reliable ==> ok && Swept(cl.api, old(cl.workloads), cl.workloads, naming)
  {
    ghost var start := cl.workloads;
    hide HasMark, Stripped, Stale;
    ok := ReconcileKind(cl, "Deployment", naming, start, {});
    ghost var deployments := OfKind(start, "Deployment");
    assert {} + deployments == deployments;
    if ok {
      ok := ReconcileKind(cl, "StatefulSet", naming, start, deployments);
    }
  }

  // ----- what the pass is good for -----

  /** No Deployment or StatefulSet without a snapshot is stopped by the test in front of the capture. */
  predicate GateIsOpen(st: ApiState, ws: map<Ref, StoredWorkload>, naming: Naming) {
    forall r :: r in ws && Listed(r) ==> !Stale(st, ws[r], r, naming)
  }

  /** No capture of a Deployment or StatefulSet finds the snapshot missing and the workload managed by `controller`. */
  predicate NoneLost(st: ApiState, ws: map<Ref, StoredWorkload>, naming: Naming, controller: string) {
    forall r :: r in ws && Listed(r) && IsManaged(AnnotationsOf(ws[r]), controller) ==> naming(r, ws[r].uid) in st.objs
  }

  lemma SweptOpensGate(st: ApiState, before: map<Ref, StoredWorkload>, after: map<Ref, StoredWorkload>, naming: Naming)
    requires Swept(st, before, after, naming)
    ensures GateIsOpen(st, after, naming)
  {
    forall r | r in after && Listed(r) ensures !Stale(st, after[r], r, naming) {
      StripIsExact(before[r], [], MARK);
    }
    hide HasMark, Stripped;
  }

  function GuardKey(controller: string): string { "workloads.cast.ai/" + controller + "-managed" }

  /** The two annotations are the same for one controller name only, and it is not the one the code uses. */
  lemma KeysAgreeIff(controller: string)
    ensures GuardKey(controller) == MARK <==> controller == "tsc"
    ensures CONTROLLER != "tsc"
    ensures forall a: map<string, string> :: IsManaged(a, controller) <==> IsTrue(a, GuardKey(controller))
  {
    var k := GuardKey(controller);
    assert k == "workloads.cast.ai/" + (controller + "-managed");
    assert k[18..] == controller + "-managed";
    assert MARK[18..] == "tsc" + "-managed";
    if k == MARK {
      assert controller + "-managed" == "tsc" + "-managed";
      assert |controller| == 3;
      assert controller == (controller + "-managed")[..3] == ("tsc" + "-managed")[..3] == "tsc";
    }
    assert |CONTROLLER| != |"tsc"|;
  }

  /** After a pass without failing calls no capture is lost if and only if the guard reads the very annotation that
      the pass strips, or none would have been lost without the pass. */
  lemma NoneLostIff(st: ApiState, before: map<Ref, StoredWorkload>, after: map<Ref, StoredWorkload>, naming: Naming, controller: string)
    requires Swept(st, before, after, naming)
    ensures NoneLost(st, after, naming, controller) <==> controller == "tsc" || NoneLost(st, before, naming, controller)
  {
    KeysAgreeIff(controller);
    var key := GuardKey(controller);
    hide AnnotationsOf, IsManaged, Stripped, GuardKey;
    forall r | r in before && Listed(r)
      ensures after[r].uid == before[r].uid
      ensures controller != "tsc" ==> (IsManaged(AnnotationsOf(after[r]), controller) <==> IsManaged(AnnotationsOf(before[r]), controller))
      ensures controller == "tsc" && IsManaged(AnnotationsOf(after[r]), controller) ==> naming(r, after[r].uid) in st.objs
    {
      StripIsExact(before[r], [], key);
    }
  }

  /** The real case: a workload that an earlier installation of the controller marked for the guard. The pass leaves
      it alone, the gate is open, and the capture is lost. */
  lemma GuardStaysClosed(ref: Ref, uid: string, name: string, current: Slice, id: Identity)
    requires Listed(ref) && id.annotations == map[GuardKey(CONTROLLER) := "true"]
    ensures
      var w := StoredWorkload(uid, Obj(map["metadata" := Obj(map["annotations" := Obj(map[GuardKey(CONTROLLER) := Str("true")])])]));
      var ws, st, naming := map[ref := w], ApiState(map[], 0), (r: Ref, u: string) => name;
      && Valid(st) && AnnotationsOf(w) == id.annotations
      && Swept(st, ws, ws, naming) && GateIsOpen(st, ws, naming) && !NoneLost(st, ws, naming, CONTROLLER)
      && forall b, r ::
           Expected(st, b, r, name, IsManaged(id.annotations, CONTROLLER), NewTscSnapshot(name, current)(id), id, FINALIZER)
           ==> r == Lost && b == st
  {
    var w := StoredWorkload(uid, Obj(map["metadata" := Obj(map["annotations" := Obj(map[GuardKey(CONTROLLER) := Str("true")])])]));
    KeysAgreeIff(CONTROLLER);
    assert AnnotationsOf(w) == map[GuardKey(CONTROLLER) := "true"];
    hide AnnotationsOf, Stripped, GuardKey, FreshlyCaptured;
    assert !HasMark(w) && IsManaged(AnnotationsOf(w), CONTROLLER);
  }
}
