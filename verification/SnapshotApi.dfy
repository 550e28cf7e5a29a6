/** Snapshot objects and the API server's rules for writing them. */
module SnapshotApi {
  import opened Conditions
  import opened TscInverse

  datatype Snapshot = Snapshot(name: string, spec: Spec, conditions: seq<Condition>, observedGeneration: int,
                               finalizers: seq<string>, generation: int, deleting: bool, rv: nat)

  /** The stored objects by name, and the latest resource version handed out. */
  datatype ApiState = ApiState(objs: map<string, Snapshot>, clock: nat)

  datatype Err = Ok | NotFound | AlreadyExists | Conflict | Forbidden | Failed

  /** The write requests. UpdateSpec is one that only other clients send. */
  datatype Op =
    | Create(obj: Snapshot)
    | UpdateStatus(obj: Snapshot)
    | PatchFinalizers(name: string, finalizers: seq<string>)
    | Delete(name: string)
    | UpdateSpec(obj: Snapshot)

  ghost predicate Valid(st: ApiState) {
    forall n :: n in st.objs ==>
      st.objs[n].name == n && st.objs[n].rv <= st.clock && (st.objs[n].deleting ==> st.objs[n].finalizers != [])
  }

  /** Create fails when the name exists, a status or specification update checks the resource version, a merge patch
      does not, and an object that is being deleted takes no new finalizer. */
  function Outcome(st: ApiState, op: Op): Err {
    match op
    case Create(obj) => if obj.name in st.objs then AlreadyExists else Ok
    case UpdateStatus(obj) =>
      if obj.name !in st.objs then NotFound else if obj.rv != st.objs[obj.name].rv then Conflict else Ok
    case UpdateSpec(obj) =>
      if obj.name !in st.objs then NotFound else if obj.rv != st.objs[obj.name].rv then Conflict else Ok
    case PatchFinalizers(name, fs) =>
      if name !in st.objs then NotFound
      else if st.objs[name].deleting && exists f :: f in fs && f !in st.objs[name].finalizers then Forbidden
      else Ok
    case Delete(name) => if name !in st.objs then NotFound else Ok
  }

  /** Writing an object that changes nothing leaves the resource version alone. */
  function PutObject(st: ApiState, obj: Snapshot): ApiState {
    if obj.name in st.objs && st.objs[obj.name] == obj then st
    else ApiState(st.objs[obj.name := obj.(rv := st.clock + 1)], st.clock + 1)
  }

  function Drop(st: ApiState, name: string): ApiState { ApiState(st.objs - {name}, st.clock + 1) }

  /** Create ignores the status and stores what serialisation leaves of the specification; a status update writes
      the status and nothing else; Delete waits for the finalizers. */
  function Apply(st: ApiState, op: Op): ApiState
    requires Outcome(st, op) == Ok
  {
    match op
    case Create(obj) =>
      PutObject(st, obj.(spec := DecodeSpec(EncodeSpec(obj.spec)), conditions := [], observedGeneration := 0,
                     generation := 1, deleting := false))
    case UpdateStatus(obj) =>
      PutObject(st, st.objs[obj.name].(conditions := obj.conditions, observedGeneration := obj.observedGeneration))
    case UpdateSpec(obj) =>
      PutObject(st, st.objs[obj.name].(spec := obj.spec, generation := st.objs[obj.name].generation + 1))
    case PatchFinalizers(name, fs) =>
      if st.objs[name].deleting && fs == [] then Drop(st, name) else PutObject(st, st.objs[name].(finalizers := fs))
    case Delete(name) =>
      if st.objs[name].finalizers == [] then Drop(st, name) else PutObject(st, st.objs[name].(deleting := true))
  }

  /** What any sequence of writes can do to a state: every object is as it was or has a newer resource version. */
  ghost predicate Interferes(a: ApiState, b: ApiState) {
    && a.clock <= b.clock
    && forall n :: n in b.objs ==> (n in a.objs && a.objs[n] == b.objs[n]) || b.objs[n].rv > a.clock
  }

  lemma ApplyInterferes(st: ApiState, op: Op)
    requires Valid(st) && Outcome(st, op) == Ok
    ensures Valid(Apply(st, op)) && Interferes(st, Apply(st, op))
  {
    hide DecodeSpec, EncodeSpec;
  }

  function RunWrites(st: ApiState, ops: seq<Op>): ApiState {
    if ops == [] then st
    else
      var before, op := RunWrites(st, ops[..|ops| - 1]), ops[|ops| - 1];
      if Outcome(before, op) == Ok then Apply(before, op) else before
  }

  /** No sequence of writes by any number of clients gives an object new contents under an old resource version. */
  lemma {:induction false} RunInterferes(st: ApiState, ops: seq<Op>)
    requires Valid(st)
    ensures Valid(RunWrites(st, ops)) && Interferes(st, RunWrites(st, ops))
  {
    if ops != [] {
      var before, op := RunWrites(st, ops[..|ops| - 1]), ops[|ops| - 1];
      RunInterferes(st, ops[..|ops| - 1]);
      if Outcome(before, op) == Ok {
        ApplyInterferes(before, op);
      }
      hide Apply, Outcome;
    }
  }

  /** An object read earlier whose resource version is still the stored one is the stored object. */
  lemma SameVersionSameObject(a: ApiState, b: ApiState, name: string)
    requires Valid(a) && Interferes(a, b) && name in a.objs && name in b.objs && a.objs[name].rv == b.objs[name].rv
    ensures a.objs[name] == b.objs[name]
  {}

  /** The writes of this repository's code never change the specification of an object that stays, and a status
      write changes only conditions and observedGeneration. */
  lemma OwnWritesKeepSpecs(st: ApiState, op: Op, name: string)
    requires Valid(st) && Outcome(st, op) == Ok && !op.UpdateSpec?
    ensures name in st.objs && name in Apply(st, op).objs ==> Apply(st, op).objs[name].spec == st.objs[name].spec
    ensures op.UpdateStatus? ==>
      var was, now := st.objs[op.obj.name], Apply(st, op).objs;
      && op.obj.name in now
      && now[op.obj.name] == was.(conditions := op.obj.conditions, observedGeneration := op.obj.observedGeneration,
                                  rv := now[op.obj.name].rv)
  {
    hide DecodeSpec, EncodeSpec;
  }
}

/** The API server as the controllers call it: snapshots, and the workloads they belong to. Any call may fail unless
    the cluster is reliable, and a failed write may or may not have been applied; a process that stops is one whose
    remaining calls all fail unapplied. Unless the cluster is quiet, others write snapshots between the calls. */
module SnapshotCluster {
  import opened Json
  import opened JsonMergePatch
  import opened SnapshotApi

  datatype Ref = Ref(kind: string, ns: string, name: string)

  datatype StoredWorkload = StoredWorkload(uid: string, doc: Json)

  datatype Lookup<T> = Found(value: T) | Missing | Unavailable

  /** The log records the writes that were applied, the reads of single snapshots, and calls of the function that
      builds a snapshot. */
  datatype Event =
    | Wrote(op: Op, before: ApiState)
    | Patched(ref: Ref, uid: string, body: Json)
    | Read(name: string, result: Lookup<Snapshot>)
    | Built

  predicate Distinct(items: seq<Snapshot>) {
    forall i, j :: 0 <= i < j < |items| ==> items[i].name != items[j].name
  }

  class Cluster {
    var api: ApiState
    var workloads: map<Ref, StoredWorkload>
    var log: seq<Event>
    const reliable: bool
    const quiet: bool

    constructor (api: ApiState, workloads: map<Ref, StoredWorkload>, reliable: bool, quiet: bool)
      ensures this.api == api && this.workloads == workloads && log == []
      ensures this.reliable == reliable && this.quiet == quiet
    {
      this.api, this.workloads, log, this.reliable, this.quiet := api, workloads, [], reliable, quiet;
    }

    method Write(op: Op) returns (e: Err)
      requires Valid(api)
      modifies this`api, this`log
      ensures Valid(api)
      ensures (api == old(api) && log == old(log) && e != Ok)
              || (Outcome(old(api), op) == Ok && api == Apply(old(api), op) && log == old(log) + [Wrote(op, old(api))]
                  && (e == Ok || e == Failed))
      ensures e != Failed ==> e == Outcome(old(api), op)
      ensures e == Failed ==> !reliable
    {
      hide Valid, Apply;
      e := Outcome(api, op);
      var lost := e != Ok;
      if * {
        if !reliable {
          e := Failed;
          if * { lost := true; }
        }
      }
      if !lost {
        ApplyInterferes(api, op);
        log := log + [Wrote(op, api)];
        api := Apply(api, op);
      }
    }

    method Get(name: string) returns (r: Lookup<Snapshot>)
      modifies this`log
      ensures r.Found? ==> name in api.objs && r.value == api.objs[name]
      ensures r.Missing? ==> name !in api.objs
      ensures reliable ==> !r.Unavailable?
      ensures log == old(log) + [Read(name, r)]
    {
      r := if name in api.objs then Found(api.objs[name]) else Missing;
      if * {
        if !reliable { r := Unavailable; }
      }
      log := log + [Read(name, r)];
    }

    /** Every stored snapshot once, in no particular order. */
    method List() returns (items: seq<Snapshot>, ok: bool)
      requires Valid(api)
      ensures forall s :: s in items <==> s.name in api.objs && api.objs[s.name] == s
      ensures Distinct(items)
      ensures reliable ==> ok
    {
      ok := true;
      if * { ok := reliable; }
      items := [];
      var left := api.objs.Keys;
      while left != {}
        invariant left <= api.objs.Keys
        invariant forall s :: s in items <==> s.name in api.objs && s.name !in left && api.objs[s.name] == s
        invariant Distinct(items)
        decreases left
      {
        var n :| n in left;
        assert forall i :: 0 <= i < |items| ==> items[i] in items;
        items := items + [api.objs[n]];
        left := left - {n};
      }
    }

    /** The workloads of a kind in all namespaces, each once. */
    method ListWorkloads(kind: string) returns (items: seq<Ref>, ok: bool)
      ensures forall r :: r in items <==> r in workloads && r.kind == kind
      ensures forall i, j :: 0 <= i < j < |items| ==> items[i] != items[j]
      ensures reliable ==> ok
    {
      ok := true;
      if * { ok := reliable; }
      items := [];
      var left := workloads.Keys;
      while left != {}
        invariant left <= workloads.Keys
        invariant forall r :: r in items <==> r in workloads && r !in left && r.kind == kind
        invariant forall i, j :: 0 <= i < j < |items| ==> items[i] != items[j]
        decreases left
      {
        var r :| r in left;
        if r.kind == kind {
          assert forall i :: 0 <= i < |items| ==> items[i] in items;
          items := items + [r];
        }
        left := left - {r};
      }
    }

    method GetWorkload(ref: Ref) returns (r: Lookup<StoredWorkload>)
      ensures r.Found? ==> ref in workloads && r.value == workloads[ref]
      ensures r.Missing? ==> ref !in workloads
      ensures reliable ==> !r.Unavailable?
    {
      r := if ref in workloads then Found(workloads[ref]) else Missing;
      if * {
        if !reliable { r := Unavailable; }
      }
    }

    method PatchWorkload(ref: Ref, body: Json) returns (e: Err)
      modifies this`workloads, this`log
      ensures (workloads == old(workloads) && log == old(log) && e != Ok)
              || (ref in old(workloads) && (e == Ok || e == Failed)
                  && workloads == old(workloads)[ref := old(workloads)[ref].(doc := Merge(old(workloads)[ref].doc, body))]
                  && log == old(log) + [Patched(ref, old(workloads)[ref].uid, body)])
      ensures e == NotFound ==> ref !in old(workloads)
      ensures e == Ok || e == NotFound || (e == Failed && !reliable)
    {
      if ref !in workloads {
        e := NotFound;
      } else {
        e := Ok;
        var lost := false;
        if * {
          if !reliable {
            e := Failed;
            if * { lost := true; }
          }
        }
        if !lost {
          log := log + [Patched(ref, workloads[ref].uid, body)];
          workloads := workloads[ref := workloads[ref].(doc := Merge(workloads[ref].doc, body))];
        }
      }
    }

    /** The caller is about to build a fresh snapshot. */
    method NoteBuilt()
      modifies this`log
      ensures log == old(log) + [Built]
    {
      log := log + [Built];
    }

    method Now() returns (t: int)
    {
      t := *;
    }

    /** Other replicas, status writers and anyone else, between two calls. */
    method Interfere()
      requires Valid(api)
      modifies this`api
      ensures Valid(api) && Interferes(old(api), api)
      ensures quiet ==> api == old(api)
    {
      hide RunWrites;
      if !quiet {
        var ops: seq<Op> := *;
        RunInterferes(api, ops);
        api := RunWrites(api, ops);
      }
    }
  }
}

/** Preparing a status write. */
module SnapshotStatus {
  import opened Conditions
  import opened SnapshotApi
  import opened SnapshotCluster

  /** The object with one condition set at some time, and with observedGeneration brought up to date. */
  ghost predicate StatusSet(snap: Snapshot, obj: Snapshot, c: Condition, generation: int) {
    exists t: int :: obj == snap.(conditions := Set(snap.conditions, c, t), observedGeneration := generation)
  }

  method WithCondition(cl: Cluster, snap: Snapshot, c: Condition, generation: int) returns (obj: Snapshot)
    ensures StatusSet(snap, obj, c, generation)
  {
    var conds := snap.conditions;
    var a := new Condition[|conds|](i requires 0 <= i < |conds| => conds[i]);
    assert a[..] == conds;
    var t := cl.Now();
    var result := SetCondition(a, c, t);
    obj := snap.(conditions := result[..], observedGeneration := generation);
  }
}
