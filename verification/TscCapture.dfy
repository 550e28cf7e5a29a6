/** The tsc-controller's own way into a capture. */
module TscCapture {
  import opened Basics
  import opened TscInverse
  import opened SnapshotApi
  import opened SnapshotCluster
  import opened Capture

  const CONTROLLER := "castai-tsc-controller"
  const FINALIZER := "workloads.cast.ai/castai-tsc-controller-finalizer"
  const MARK := "workloads.cast.ai/tsc-managed"
  const BYPASS := "workloads.cast.ai/tsc-bypass"

  predicate IsTrue(annotations: map<string, string>, key: string) {
    key in annotations && annotations[key] == "true"
  }

  /** The controller's build function. */
  function NewTscSnapshot(name: string, current: Slice): NewSnapshot {
    (id: Identity) => Some(Snapshot(name, Captured(id.target, current), [], 0, [], 0, false, 0))
  }

  /** Nothing is captured when snapshots are off, or the workload is marked or bypassed; everything else is handed to
      the capture call, whose guard looks at another annotation than the mark tested here. */
  method CaptureTscOriginal(cl: Cluster, enabled: bool, name: string, id: Identity, current: Slice)
    returns (r: Option<Result>)
    requires Valid(cl.api)
    modifies cl`api, cl`log
    ensures Valid(cl.api)
    ensures r.None? <==> !enabled || IsTrue(id.annotations, "workloads.cast.ai/tsc-managed")
                         || IsTrue(id.annotations, "workloads.cast.ai/tsc-bypass")
    ensures r.None? ==> cl.api == old(cl.api) && cl.log == old(cl.log)
    ensures r.Some? && cl.reliable && cl.quiet ==>
              Expected(old(cl.api), cl.api, r.value, name, IsManaged(id.annotations, CONTROLLER),
                       NewTscSnapshot(name, current)(id), id, FINALIZER)
  {
    if !enabled || IsTrue(id.annotations, MARK) || IsTrue(id.annotations, BYPASS) {
      return None;
    }
    hide Expected, Safe, Valid, IsManaged;
    var result;
    ghost var ctx, ev;
    result, ctx, ev := CaptureIfAbsent(cl, FINALIZER, CONTROLLER, name, id, NewTscSnapshot(name, current));
    r := Some(result);
  }
}
