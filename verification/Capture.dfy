/** Capturing a workload's original state while other replicas and status writers are at work. */
module Capture {
  import opened Basics
  import opened Conditions
  import opened Finalizers
  import opened TscInverse
  import opened SnapshotApi
  import opened SnapshotCluster
  import opened SnapshotStatus

  datatype Identity = Identity(target: TargetRef, generation: int, annotations: map<string, string>)

  predicate IsManaged(annotations: map<string, string>, controller: string) {
    var key := "workloads.cast.ai/" + controller + "-managed";
    key in annotations && annotations[key] == "true"
  }

  /** The controller's function that builds a snapshot for a workload. */
  type NewSnapshot = Identity -> Option<Snapshot>

  const CAPTURED_REASON := "Captured"

  function ReadyCondition(id: Identity): Condition {
    Condition(READY, True, CAPTURED_REASON,
              "Original state captured for " + id.target.kind + " " + id.target.ns + "/" + id.target.name, id.generation, 0)
  }

  predicate Protected(s: Snapshot) { IsReady(s.conditions) && !IsRolledBack(s.conditions) }

  // ----- what every write must look like -----

  /** One call: the log when it started, its arguments, and what its first read returned. */
  datatype Context = Context(base: seq<Event>, name: string, id: Identity, finalizer: string, first: Lookup<Snapshot>,
                             managed: bool)

  /** The build function runs unless the read snapshot is to be kept, or a managed workload has lost its snapshot. */
  predicate MayBuild(first: Lookup<Snapshot>, managed: bool) {
    match first
    case Found(s) => !Protected(s)
    case Missing => !managed
    case Unavailable => false
  }

  ghost predicate CreatedBefore(ev: seq<Event>, i: nat, name: string) {
    exists j: nat :: j < i < |ev| && ev[j].Wrote? && ev[j].op.Create? && ev[j].op.obj.name == name
  }

  /** No write changes the specification of an object that was there and stays; a status write sets Ready and
      observedGeneration in the status stored at that very moment and nothing else; an existing snapshot is deleted
      only if it was created by this call or was read as rolled back, and then it is still rolled back at that moment
      unless it has a newer resource version. */
  ghost predicate SafeAt(ev: seq<Event>, i: nat, ctx: Context)
    requires i < |ev|
  {
    match ev[i]
    case Wrote(op, before) =>
      && Valid(before) && Outcome(before, op) == Ok && KeepsSpecs(before, Apply(before, op))
      && (match op
          case Create(obj) => obj.name !in before.objs
          case UpdateStatus(obj) =>
            obj.name in before.objs && StatusSet(before.objs[obj.name], obj, ReadyCondition(ctx.id), ctx.id.generation)
          case PatchFinalizers(n, fs) => ctx.finalizer in fs && CreatedBefore(ev, i, n)
          case Delete(n) => ReadRolledBack(ctx, n, before) || CreatedBefore(ev, i, n)
          case UpdateSpec(_) => false)
    case Patched(_, _, _) => false
    case Read(_, _) => true
    case Built => MayBuild(ctx.first, ctx.managed)
  }

  /** The call read the snapshot as rolled back. Only a writer that came in between can have changed that. */
  predicate ReadRolledBack(ctx: Context, name: string, now: ApiState) {
    && name == ctx.name && ctx.first.Found? && IsRolledBack(ctx.first.value.conditions)
    && (name in now.objs && now.objs[name].rv == ctx.first.value.rv ==> now.objs[name] == ctx.first.value)
  }

  lemma ReadStaysRolledBack(ctx: Context, name: string, a: ApiState, b: ApiState)
    requires Valid(a) && Interferes(a, b) && ReadRolledBack(ctx, name, a) && WasRead(ctx, a)
    ensures ReadRolledBack(ctx, name, b)
  {}

  /** What the first read returned is what is stored. */
  predicate WasRead(ctx: Context, st: ApiState) {
    ctx.first.Found? ==> ctx.name in st.objs && st.objs[ctx.name] == ctx.first.value
  }

  ghost predicate KeepsSpecs(a: ApiState, b: ApiState) {
    forall n :: n in a.objs && n in b.objs ==> b.objs[n].spec == a.objs[n].spec
  }

  ghost predicate Safe(ev: seq<Event>, ctx: Context) {
    forall i: nat :: i < |ev| ==> SafeAt(ev, i, ctx)
  }

  lemma WriteKeepsSpecs(st: ApiState, op: Op)
    requires Valid(st) && Outcome(st, op) == Ok && !op.UpdateSpec?
    ensures KeepsSpecs(st, Apply(st, op))
  {
    hide Valid, Apply, Outcome;
    forall n | n in st.objs && n in Apply(st, op).objs ensures Apply(st, op).objs[n].spec == st.objs[n].spec {
      OwnWritesKeepSpecs(st, op, n);
    }
  }

  /** One more event at the end. */
  lemma SafeAppend(ev: seq<Event>, e: Event, ctx: Context)
    requires Safe(ev, ctx)
    requires SafeAt(ev + [e], |ev|, ctx)
    ensures Safe(ev + [e], ctx)
  {
    hide StatusSet, KeepsSpecs, Valid, Outcome, Apply, MayBuild, IsRolledBack;
    var all := ev + [e];
    forall i: nat | i < |all| ensures SafeAt(all, i, ctx) {
      if i < |ev| {
        assert all[i] == ev[i] && SafeAt(ev, i, ctx);
        forall n | CreatedBefore(ev, i, n) ensures CreatedBefore(all, i, n) {
          CreatedStays(ev, [e], i, i, n);
        }
      }
    }
  }

  lemma CreatedStays(ev: seq<Event>, more: seq<Event>, i: nat, k: nat, name: string)
    requires CreatedBefore(ev, i, name) && i <= k < |ev + more|
    ensures CreatedBefore(ev + more, k, name)
  {
    var j: nat :| j < i && ev[j].Wrote? && ev[j].op.Create? && ev[j].op.obj.name == name;
    assert (ev + more)[j] == ev[j];
  }

  /** The snapshot was created by an earlier event. */
  ghost predicate Created(ev: seq<Event>, name: string) {
    exists j: nat :: j < |ev| && ev[j].Wrote? && ev[j].op.Create? && ev[j].op.obj.name == name
  }

  lemma CreatedNow(ev: seq<Event>, e: Event, name: string)
    requires Created(ev, name)
    ensures CreatedBefore(ev + [e], |ev|, name) && Created(ev + [e], name)
  {
    var j: nat :| j < |ev| && ev[j].Wrote? && ev[j].op.Create? && ev[j].op.obj.name == name;
    assert (ev + [e])[j] == ev[j];
  }

  /** The events of this call so far are safe. */
  ghost predicate Trace(cl: Cluster, ctx: Context, ev: seq<Event>)
    reads cl`log, cl`api
  {
    cl.log == ctx.base + ev && Safe(ev, ctx) && Valid(cl.api)
  }

  lemma Extend(ctx: Context, ev: seq<Event>, e: Event)
    requires Safe(ev, ctx) && SafeAt(ev + [e], |ev|, ctx)
    ensures Safe(ev + [e], ctx) && ctx.base + (ev + [e]) == (ctx.base + ev) + [e]
    ensures forall n :: Created(ev, n) ==> Created(ev + [e], n)
  {
    SafeAppend(ev, e, ctx);
    hide Safe, SafeAt;
    forall n | Created(ev, n) ensures Created(ev + [e], n) {
      CreatedNow(ev, e, n);
    }
  }

  // ----- the calls, with others at work before each -----

  method ReadSnapshot(cl: Cluster, target: string, ghost ctx: Context, ghost ev0: seq<Event>)
    returns (r: Lookup<Snapshot>, ghost ev: seq<Event>)
    requires Trace(cl, ctx, ev0)
    modifies cl`api, cl`log
    ensures Trace(cl, ctx, ev) && ev == ev0 + [Read(target, r)] && forall n :: Created(ev0, n) ==> Created(ev, n)
    ensures r.Found? ==> target in cl.api.objs && r.value == cl.api.objs[target] && r.value.name == target
    ensures r.Missing? ==> target !in cl.api.objs
    ensures cl.reliable ==> !r.Unavailable?
    ensures cl.quiet ==> cl.api == old(cl.api)
  {
    hide Safe;
    cl.Interfere();
    r := cl.Get(target);
    ev := ev0 + [Read(target, r)];
    assert ev[|ev0|] == Read(target, r);
    Extend(ctx, ev0, Read(target, r));
  }

  /** Deletes a snapshot that was read as rolled back or was created by this call. */
  method DeleteSnapshot(cl: Cluster, target: string, ghost ctx: Context, ghost ev0: seq<Event>)
    returns (e: Err, ghost ev: seq<Event>)
    requires Trace(cl, ctx, ev0)
    requires (ReadRolledBack(ctx, target, cl.api) && WasRead(ctx, cl.api)) || Created(ev0, target)
    modifies cl`api, cl`log
    ensures Trace(cl, ctx, ev) && ev0 <= ev && |ev| <= |ev0| + 1
    ensures cl.reliable && cl.quiet ==>
              && e == Outcome(old(cl.api), Delete(target))
              && cl.api == if e == Ok then Apply(old(cl.api), Delete(target)) else old(cl.api)
  {
    hide Safe, Apply, IsRolledBack, Valid, ReadRolledBack, WasRead, Interferes;
    ghost var read := cl.api;
    cl.Interfere();
    ghost var st, logged := cl.api, cl.log;
    if !Created(ev0, target) {
      ReadStaysRolledBack(ctx, target, read, st);
    }
    e := cl.Write(Delete(target));
    ev := ev0;
    if cl.log != logged {
      ev := ev0 + [Wrote(Delete(target), st)];
      assert ev[|ev0|] == Wrote(Delete(target), st);
      WriteKeepsSpecs(st, Delete(target));
      if Created(ev0, target) {
        CreatedNow(ev0, Wrote(Delete(target), st), target);
      }
      Extend(ctx, ev0, Wrote(Delete(target), st));
    }
  }

  /** Creates the snapshot. */
  method CreateSnapshot(cl: Cluster, obj: Snapshot, ghost ctx: Context, ghost ev0: seq<Event>)
    returns (e: Err, ghost ev: seq<Event>)
    requires Trace(cl, ctx, ev0)
    modifies cl`api, cl`log
    ensures Trace(cl, ctx, ev) && ev0 <= ev
    ensures e == Ok ==> Created(ev, obj.name)
    ensures e != Failed && e != Ok ==> e == AlreadyExists && ev == ev0
    ensures cl.reliable && cl.quiet ==>
              && e == Outcome(old(cl.api), Create(obj))
              && cl.api == if e == Ok then Apply(old(cl.api), Create(obj)) else old(cl.api)
  {
    hide Safe, Apply, IsRolledBack, Valid;
    cl.Interfere();
    ghost var st, logged := cl.api, cl.log;
    e := cl.Write(Create(obj));
    ev := ev0;
    if cl.log != logged {
      ev := ev0 + [Wrote(Create(obj), st)];
      assert ev[|ev0|] == Wrote(Create(obj), st);
      WriteKeepsSpecs(st, Create(obj));
      Extend(ctx, ev0, Wrote(Create(obj), st));
    }
  }

  predicate FinalizerAdded(a: ApiState, b: ApiState, target: string, finalizer: string)
    requires target in a.objs
  {
    var s := a.objs[target];
    && target in b.objs && b.objs.Keys == a.objs.Keys
    && b.objs[target] == s.(finalizers := With(s.finalizers, finalizer), rv := b.objs[target].rv)
    && forall n :: n in a.objs && n != target ==> b.objs[n] == a.objs[n]
  }

  lemma PatchAdds(st: ApiState, target: string, finalizer: string)
    requires Valid(st) && target in st.objs && !st.objs[target].deleting
    ensures
      var op := PatchFinalizers(target, With(st.objs[target].finalizers, finalizer));
      Outcome(st, op) == Ok && FinalizerAdded(st, Apply(st, op), target, finalizer)
    ensures finalizer in st.objs[target].finalizers ==> FinalizerAdded(st, st, target, finalizer)
  {}

  /** Reads the snapshot and patches its finalizers, unless the finalizer is there already. */
  method AddFinalizer(cl: Cluster, target: string, finalizer: string, ghost ctx: Context, ghost ev0: seq<Event>)
    returns (ok: bool, ghost ev: seq<Event>)
    requires Trace(cl, ctx, ev0) && Created(ev0, target) && finalizer == ctx.finalizer
    modifies cl`api, cl`log
    ensures Trace(cl, ctx, ev) && Created(ev, target) && ev0 <= ev
    ensures cl.reliable && cl.quiet && target in old(cl.api).objs && !old(cl.api).objs[target].deleting ==>
              ok && FinalizerAdded(old(cl.api), cl.api, target, finalizer)
  {
    if target in cl.api.objs && !cl.api.objs[target].deleting {
      PatchAdds(cl.api, target, finalizer);
    }
    hide Safe, Apply, Outcome, IsRolledBack, Valid, FinalizerAdded, Created;
    var current;
    current, ev := ReadSnapshot(cl, target, ctx, ev0);
    if !current.Found? {
      return false, ev;
    }
    var finalizers, changed := Add(current.value.finalizers, finalizer);
    if !changed {
      return true, ev;
    }
    cl.Interfere();
    ghost var st, logged, op := cl.api, cl.log, PatchFinalizers(target, finalizers);
    var e := cl.Write(PatchFinalizers(target, finalizers));
    ok := e == Ok;
    if cl.log != logged {
      ghost var wrote := Wrote(op, st);
      AddingIsSafe(ev, st, target, finalizers, ctx);
      Extend(ctx, ev, wrote);
      ev := ev + [wrote];
    }
  }

  lemma AddingIsSafe(ev: seq<Event>, st: ApiState, target: string, finalizers: seq<string>, ctx: Context)
    requires Created(ev, target) && ctx.finalizer in finalizers && Valid(st)
    requires Outcome(st, PatchFinalizers(target, finalizers)) == Ok
    ensures SafeAt(ev + [Wrote(PatchFinalizers(target, finalizers), st)], |ev|, ctx)
  {
    var op := PatchFinalizers(target, finalizers);
    WriteKeepsSpecs(st, op);
    CreatedNow(ev, Wrote(op, st), target);
    hide Apply, Valid, Outcome, KeepsSpecs, Created, CreatedBefore;
  }

  // ----- the status -----

  ghost predicate StatusAdded(a: ApiState, b: ApiState, target: string, id: Identity)
    requires target in a.objs
  {
    && target in b.objs && b.objs.Keys == a.objs.Keys
    && (exists obj :: StatusSet(a.objs[target], obj, ReadyCondition(id), id.generation)
                      && b.objs[target] == obj.(rv := b.objs[target].rv))
    && forall n :: n in a.objs && n != target ==> b.objs[n] == a.objs[n]
  }

  lemma StatusLands(st: ApiState, target: string, obj: Snapshot, id: Identity)
    requires Valid(st) && target in st.objs && StatusSet(st.objs[target], obj, ReadyCondition(id), id.generation)
    ensures Outcome(st, UpdateStatus(obj)) == Ok && StatusAdded(st, Apply(st, UpdateStatus(obj)), target, id)
  {
    hide Set;
  }

  /** The status about to be written was made from the status that is stored, or the write conflicts. */
  lemma StatusIsSafe(ev: seq<Event>, read: ApiState, st: ApiState, target: string, obj: Snapshot, ctx: Context)
    requires Valid(read) && Interferes(read, st) && Valid(st) && target in read.objs
    requires StatusSet(read.objs[target], obj, ReadyCondition(ctx.id), ctx.id.generation)
    requires Outcome(st, UpdateStatus(obj)) == Ok
    ensures SafeAt(ev + [Wrote(UpdateStatus(obj), st)], |ev|, ctx)
  {
    WriteKeepsSpecs(st, UpdateStatus(obj));
    assert obj.name == target && obj.rv == read.objs[target].rv by { hide Set; }
    SameVersionSameObject(read, st, target);
    assert st.objs[obj.name] == read.objs[target];
    assert StatusSet(st.objs[obj.name], obj, ReadyCondition(ctx.id), ctx.id.generation);
    assert KeepsSpecs(st, Apply(st, UpdateStatus(obj)));
    assert (ev + [Wrote(UpdateStatus(obj), st)])[|ev|] == Wrote(UpdateStatus(obj), st);
    hide Apply, Valid, KeepsSpecs, StatusSet, Interferes;
  }

  /** The retried closure: fetch, set Ready, write the status. */
  method TryStatus(cl: Cluster, target: string, id: Identity, ghost ctx: Context, ghost ev0: seq<Event>)
    returns (e: Err, ghost ev: seq<Event>)
    requires Trace(cl, ctx, ev0) && Created(ev0, target) && id == ctx.id
    modifies cl`api, cl`log
    ensures Trace(cl, ctx, ev) && Created(ev, target) && ev0 <= ev
    ensures e == Ok ==> WroteStatus(ev, target)
    ensures cl.reliable && cl.quiet && target in old(cl.api).objs ==>
              e == Ok && StatusAdded(old(cl.api), cl.api, target, id)
  {
    hide Safe, Apply, IsRolledBack, Valid, Created, Outcome, StatusAdded;
    var latest;
    latest, ev := ReadSnapshot(cl, target, ctx, ev0);
    match latest
    case Missing => return NotFound, ev;
    case Unavailable => return Failed, ev;
    case Found(snap) =>
      ghost var read := cl.api;
      var obj := WithCondition(cl, snap, ReadyCondition(id), id.generation);
      NameKept(snap, obj, id);
      if cl.quiet {
        StatusLands(cl.api, target, obj, id);
      }
      hide StatusSet;
      cl.Interfere();
      ghost var st, logged := cl.api, cl.log;
      e := cl.Write(UpdateStatus(obj));
      if cl.log != logged {
        StatusIsSafe(ev, read, st, target, obj, ctx);
        Extend(ctx, ev, Wrote(UpdateStatus(obj), st));
        ev := ev + [Wrote(UpdateStatus(obj), st)];
      }
  }

  lemma NameKept(snap: Snapshot, obj: Snapshot, id: Identity)
    requires StatusSet(snap, obj, ReadyCondition(id), id.generation)
    ensures obj.name == snap.name
  {
    hide Set;
  }

  ghost predicate WroteStatus(ev: seq<Event>, target: string) {
    |ev| > 0 && var e := ev[|ev| - 1]; e.Wrote? && e.op.UpdateStatus? && e.op.obj.name == target
  }

  /** Retries on conflict, five attempts in all. */
  method RetryStatus(cl: Cluster, target: string, id: Identity, ghost ctx: Context, ghost ev0: seq<Event>)
    returns (e: Err, attempts: nat, ghost ev: seq<Event>)
    requires Trace(cl, ctx, ev0) && Created(ev0, target) && id == ctx.id
    modifies cl`api, cl`log
    ensures Trace(cl, ctx, ev) && Created(ev, target) && ev0 <= ev
    ensures 1 <= attempts <= 5 && (e == Conflict ==> attempts == 5)
    ensures e == Ok ==> WroteStatus(ev, target)
    ensures cl.reliable && cl.quiet && target in old(cl.api).objs ==>
              e == Ok && attempts == 1 && StatusAdded(old(cl.api), cl.api, target, id)
  {
    hide Trace, StatusAdded, WroteStatus;
    e, ev := TryStatus(cl, target, id, ctx, ev0);
    attempts := 1;
    while e == Conflict && attempts < 5
      invariant Trace(cl, ctx, ev) && Created(ev, target) && ev0 <= ev
      invariant 1 <= attempts <= 5
      invariant e == Ok ==> WroteStatus(ev, target)
      invariant cl.reliable && cl.quiet && target in old(cl.api).objs ==>
                  e == Ok && attempts == 1 && StatusAdded(old(cl.api), cl.api, target, id)
      decreases 5 - attempts
    {
      e, ev := TryStatus(cl, target, id, ctx, ev);
      attempts := attempts + 1;
    }
  }

  // ----- the whole call -----

  datatype Result =
    | Lost          // managed, but the snapshot is missing
    | AlreadyReady
    | Raced         // Create found the name taken
    | Stored
    | Error         // the only result that is returned as an error

  /** A fresh snapshot, complete and ready. */
  ghost predicate FreshlyCaptured(a: ApiState, b: ApiState, obj: Snapshot, id: Identity, finalizer: string) {
    && b.objs.Keys == a.objs.Keys + {obj.name}
    && (forall n :: n in a.objs && n != obj.name ==> b.objs[n] == a.objs[n])
    && var s := b.objs[obj.name];
       && s.name == obj.name && s.spec == DecodeSpec(EncodeSpec(obj.spec)) && !s.deleting
       && s.finalizers == With(obj.finalizers, finalizer) && s.observedGeneration == id.generation
       && exists t: int :: s.conditions == [ReadyCondition(id).(lastTransition := t)]
  }

  lemma CaptureAddsUp(a: ApiState, b: ApiState, c: ApiState, obj: Snapshot, id: Identity, finalizer: string)
    requires obj.name !in a.objs && FinalizerAdded(Apply(a, Create(obj)), b, obj.name, finalizer)
    requires StatusAdded(b, c, obj.name, id)
    ensures FreshlyCaptured(a, c, obj, id, finalizer)
  {
    hide DecodeSpec, EncodeSpec;
    var target := obj.name;
    var o :| StatusSet(b.objs[target], o, ReadyCondition(id), id.generation) && c.objs[target] == o.(rv := c.objs[target].rv);
    var t: int :| o == b.objs[target].(conditions := Set(b.objs[target].conditions, ReadyCondition(id), t),
                                       observedGeneration := id.generation);
    assert c.objs[target].conditions == Set([], ReadyCondition(id), t) == [ReadyCondition(id).(lastTransition := t)];
  }

  /** Create, finalizer, status; what was created is deleted again when a later step fails. */
  method Store(cl: Cluster, obj: Snapshot, finalizer: string, id: Identity, ghost ctx: Context, ghost ev0: seq<Event>)
    returns (r: Result, ghost ev: seq<Event>)
    requires Trace(cl, ctx, ev0) && finalizer == ctx.finalizer && id == ctx.id
    modifies cl`api, cl`log
    ensures Trace(cl, ctx, ev) && ev0 <= ev
    ensures r == Raced || r == Stored || r == Error
    ensures r == Raced ==> ev == ev0
    ensures r == Stored ==> Created(ev, obj.name) && WroteStatus(ev, obj.name)
    ensures cl.reliable && cl.quiet ==>
              if obj.name in old(cl.api).objs then r == Raced && cl.api == old(cl.api)
              else r == Stored && FreshlyCaptured(old(cl.api), cl.api, obj, id, finalizer)
  {
    ghost var st := cl.api;
    hide Trace, Created, WroteStatus, FinalizerAdded, StatusAdded, FreshlyCaptured;
    var e;
    e, ev := CreateSnapshot(cl, obj, ctx, ev0);
    if e == AlreadyExists {
      return Raced, ev;
    }
    if e != Ok {
      return Error, ev;
    }
    ghost var made := cl.api;
    var ok;
    ok, ev := AddFinalizer(cl, obj.name, finalizer, ctx, ev);
    if !ok {
      e, ev := DeleteSnapshot(cl, obj.name, ctx, ev);
      return Error, ev;
    }
    ghost var held := cl.api;
    var attempts;
    e, attempts, ev := RetryStatus(cl, obj.name, id, ctx, ev);
    if e != Ok {
      e, ev := DeleteSnapshot(cl, obj.name, ctx, ev);
      return Error, ev;
    }
    r := Stored;
    if cl.reliable && cl.quiet {
      CaptureAddsUp(st, held, cl.api, obj, id, finalizer);
    }
  }

  /** What a call comes to when no call fails and nobody else writes. In particular a partial snapshot stays as it
      is, and a rolled-back one that still has finalizers is only marked for deletion: Create finds the name taken. */
  ghost predicate Expected(a: ApiState, b: ApiState, r: Result, name: string, managed: bool, built: Option<Snapshot>,
                           id: Identity, finalizer: string)
  {
    if name !in a.objs then
      if managed then r == Lost && b == a
      else if built.None? then r == Error && b == a
      else r == Stored && FreshlyCaptured(a, b, built.value, id, finalizer)
    else if Protected(a.objs[name]) then r == AlreadyReady && b == a
    else if !IsRolledBack(a.objs[name].conditions) then r == (if built.None? then Error else Raced) && b == a
    else
      var after := Apply(a, Delete(name));
      if built.None? then r == Error && b == after
      else if a.objs[name].finalizers != [] then r == Raced && b == after
      else r == Stored && FreshlyCaptured(after, b, built.value, id, finalizer)
  }

  /** Reads the snapshot; keeps it, gives up, or builds a fresh one and stores it. */
  method CaptureIfAbsent(cl: Cluster, finalizer: string, controller: string, name: string, id: Identity, newFn: NewSnapshot)
    returns (r: Result, ghost ctx: Context, ghost ev: seq<Event>)
    requires Valid(cl.api)
    modifies cl`api, cl`log
    ensures Valid(cl.api) && cl.log == old(cl.log) + ev
    ensures ctx == Context(old(cl.log), name, id, finalizer, ctx.first, IsManaged(id.annotations, controller))
    ensures ev != [] && ev[0] == Read(name, ctx.first) && Safe(ev, ctx)
    ensures r == Lost ==> ctx.first.Missing? && ctx.managed && ev == [Read(name, ctx.first)]
    ensures r == AlreadyReady ==> ctx.first.Found? && Protected(ctx.first.value) && ev == [Read(name, ctx.first)]
    ensures r == Stored ==>
              newFn(id).Some? && Created(ev, newFn(id).value.name) && WroteStatus(ev, newFn(id).value.name)
    ensures cl.reliable && cl.quiet && (newFn(id).Some? ==> newFn(id).value.name == name) ==>
              Expected(old(cl.api), cl.api, r, name, ctx.managed, newFn(id), id, finalizer)
  {
    ghost var st, log0 := cl.api, cl.log;
    cl.Interfere();
    var existing := cl.Get(name);
    var managed := IsManaged(id.annotations, controller);
    ctx := Context(log0, name, id, finalizer, existing, managed);
    ev := [Read(name, existing)];
    assert Safe(ev, ctx);
    if existing.Unavailable? {
      r := Error;
    } else if existing.Missing? && managed {
      r := Lost;
    } else if existing.Found? && Protected(existing.value) {
      r := AlreadyReady;
    } else {
      hide Trace, IsManaged;
      r, ev := Recapture(cl, existing, finalizer, name, id, newFn, ctx, ev);
    }
  }

  /** The snapshot is missing, rolled back or partial. */
  method Recapture(cl: Cluster, existing: Lookup<Snapshot>, finalizer: string, name: string, id: Identity,
                   newFn: NewSnapshot, ghost ctx: Context, ghost ev0: seq<Event>)
    returns (r: Result, ghost ev: seq<Event>)
    requires Trace(cl, ctx, ev0) && MayBuild(existing, ctx.managed)
    requires ctx == Context(ctx.base, name, id, finalizer, existing, ctx.managed) && WasRead(ctx, cl.api)
    modifies cl`api, cl`log
    ensures Trace(cl, ctx, ev) && ev0 <= ev
    ensures r == Raced || r == Stored || r == Error
    ensures r == Stored ==>
              newFn(id).Some? && Created(ev, newFn(id).value.name) && WroteStatus(ev, newFn(id).value.name)
    ensures cl.reliable && cl.quiet && existing.Found?
            && (newFn(id).Some? ==> newFn(id).value.name == name) ==>
              Expected(old(cl.api), cl.api, r, name, ctx.managed, newFn(id), id, finalizer)
    ensures cl.reliable && cl.quiet && existing.Missing? && name !in old(cl.api).objs
            && (newFn(id).Some? ==> newFn(id).value.name == name) ==>
              Expected(old(cl.api), cl.api, r, name, ctx.managed, newFn(id), id, finalizer)
  {
    ev := ev0;
    if name in cl.api.objs {
      DeletionMarks(cl.api, name);
    }
    hide Trace, Created, WroteStatus, FreshlyCaptured, StatusOf, Apply;
    if existing.Found? && IsRolledBack(existing.value.conditions) {
      var e;
      e, ev := DeleteSnapshot(cl, name, ctx, ev);
      if e != Ok && e != NotFound {
        return Error, ev;
      }
    }
    ev := Build(cl, ctx, ev);
    var built := newFn(id);
    match built
    case None => r := Error;
    case Some(obj) => r, ev := Store(cl, obj, finalizer, id, ctx, ev);
  }

  /** A deleted snapshot stays until its finalizers are gone. */
  lemma DeletionMarks(st: ApiState, name: string)
    requires Valid(st) && name in st.objs
    ensures Outcome(st, Delete(name)) == Ok
    ensures name in Apply(st, Delete(name)).objs <==> st.objs[name].finalizers != []
  {}

  /** The build function is about to run. */
  method Build(cl: Cluster, ghost ctx: Context, ghost ev0: seq<Event>) returns (ghost ev: seq<Event>)
    requires Trace(cl, ctx, ev0) && MayBuild(ctx.first, ctx.managed)
    modifies cl`log
    ensures Trace(cl, ctx, ev) && ev0 <= ev
  {
    hide Safe, MayBuild;
    cl.NoteBuilt();
    ev := ev0 + [Built];
    assert ev[|ev0|] == Built;
    Extend(ctx, ev0, Built);
  }
}
