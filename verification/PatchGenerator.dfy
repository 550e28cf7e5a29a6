/** The patch generator as the webhook runs it: probes are shared heap objects, operations hold references to
    them, and the whole list is serialised only at the end. Each method is proved against the function of
    PodMutation it implements, and none changes an object that existed before the call, except the probe that
    TuneStartupProbe is given. */
module PatchGenerator {
  import opened Basics
  import Float64
  import opened Json
  import opened JsonPatch
  import JsonPointer
  import opened ProbeModel
  import opened ProbeBuilder
  import opened PodMutation

  class ProbeObj {
    var handler: Handler
    var initialDelaySeconds: int32
    var timeoutSeconds: int32
    var periodSeconds: int32
    var successThreshold: int32
    var failureThreshold: int32

    function Value(): Probe
      reads this
    {
      Probe(handler, initialDelaySeconds, timeoutSeconds, periodSeconds, successThreshold, failureThreshold)
    }

    constructor (p: Probe)
      ensures Value() == p
    {
      handler, initialDelaySeconds, timeoutSeconds := p.handler, p.initialDelaySeconds, p.timeoutSeconds;
      periodSeconds, successThreshold, failureThreshold := p.periodSeconds, p.successThreshold, p.failureThreshold;
    }

    method DeepCopy() returns (copy: ProbeObj)
      ensures fresh(copy) && copy.Value() == Value()
    {
      copy := new ProbeObj(Value());
    }
  }

  function ValueOf(p: ProbeObj?): Option<Probe>
    reads p
  {
    if p == null then None else Some(p.Value())
  }

  class ContainerObj {
    var livenessProbe: ProbeObj?
    var readinessProbe: ProbeObj?
    var startupProbe: ProbeObj?
    const ports: seq<Json>
    const rest: ContainerRest

    function Value(): Container
      reads this, livenessProbe, readinessProbe, startupProbe
    {
      Container(ValueOf(livenessProbe), ValueOf(readinessProbe), ValueOf(startupProbe), ports, rest)
    }

    constructor (l: ProbeObj?, r: ProbeObj?, s: ProbeObj?, ports: seq<Json>, rest: ContainerRest)
      ensures livenessProbe == l && readinessProbe == r && startupProbe == s
      ensures this.ports == ports && this.rest == rest
    {
      livenessProbe, readinessProbe, startupProbe := l, r, s;
      this.ports, this.rest := ports, rest;
    }
  }

  datatype OpName = AddOp | ReplaceOp | RemoveOp

  /** The interface{} value of an operation. */
  datatype OpValue = Nothing | ProbeRef(probe: ProbeObj) | Number(n: int32) | Text(s: string) | Dict(m: map<string, string>)

  datatype GoOp = GoOp(op: OpName, path: string, value: OpValue)

  function Refs(ops: seq<GoOp>): set<ProbeObj> {
    set o | o in ops && o.value.ProbeRef? :: o.value.probe
  }

  function ValueJson(v: OpValue): Json
    reads if v.ProbeRef? then {v.probe} else {}
  {
    match v
    case Nothing => Null
    case ProbeRef(p) => EncodeProbe(p.Value(), false)
    case Number(n) => Num(n)
    case Text(s) => Str(s)
    case Dict(m) => EncodeStrings(m)
  }

  /** json.Marshal of one operation, in the heap at the time of the call. */
  function Marshal(o: GoOp): PatchOp
    reads if o.value.ProbeRef? then {o.value.probe} else {}
  {
    PatchOp(o.path, match o.op
                    case AddOp => Add(ValueJson(o.value))
                    case ReplaceOp => Replace(ValueJson(o.value))
                    case RemoveOp => Remove)
  }

  function MarshalAll(ops: seq<GoOp>): (r: seq<PatchOp>)
    reads Refs(ops)
    ensures |r| == |ops|
  {
    if ops == [] then []
    else
      assert ops[0] in ops;
      assert Refs(ops[1..]) <= Refs(ops);
      [Marshal(ops[0])] + MarshalAll(ops[1..])
  }

  lemma {:induction false} MarshalConcat(a: seq<GoOp>, b: seq<GoOp>)
    ensures MarshalAll(a + b) == MarshalAll(a) + MarshalAll(b)
    ensures Refs(a + b) == Refs(a) + Refs(b)
  {
    if a == [] {
      assert a + b == b;
    } else {
      assert (a + b)[1..] == a[1..] + b;
      MarshalConcat(a[1..], b);
      assert a == [a[0]] + a[1..];
    }
    forall p | p in Refs(a + b) ensures p in Refs(a) + Refs(b) {
      var o :| o in a + b && o.value.ProbeRef? && o.value.probe == p;
      assert o in a || o in b;
    }
  }

  /** Serialisation only depends on the probes the operations refer to. */
  twostate lemma {:induction false} MarshalFrame(ops: seq<GoOp>)
    requires forall p :: p in Refs(ops) ==> unchanged(p)
    ensures MarshalAll(ops) == old(MarshalAll(ops))
  {
    if ops != [] {
      assert ops[0] in ops;
      assert Refs(ops[1..]) <= Refs(ops);
      MarshalFrame(ops[1..]);
    }
  }

  lemma MarshalOne(o: GoOp)
    ensures MarshalAll([o]) == [Marshal(o)]
    ensures Refs([o]) == if o.value.ProbeRef? then {o.value.probe} else {}
  {
    assert [o][1..] == [];
    assert forall x :: x in [o] <==> x == o;
  }

  lemma {:induction false} EmitConcat(i: nat, a: seq<SlotOp>, b: seq<SlotOp>)
    ensures EmitAll(i, a + b) == EmitAll(i, a) + EmitAll(i, b)
  {
    if a == [] {
      assert a + b == b;
    } else {
      assert (a + b)[1..] == a[1..] + b;
      EmitConcat(i, a[1..], b);
    }
  }

  lemma EmitOne(i: nat, o: SlotOp)
    ensures EmitAll(i, [o]) == [Emit(i, o)]
  {
    assert [o][1..] == [];
  }

  /** Appending matching operations to matching lists. */
  lemma AppendOp(ops: seq<GoOp>, op: GoOp, i: nat, want: seq<SlotOp>, one: SlotOp)
    requires MarshalAll(ops) == EmitAll(i, want) && Marshal(op) == Emit(i, one)
    ensures MarshalAll(ops + [op]) == EmitAll(i, want + [one])
    ensures Refs(ops + [op]) == Refs(ops) + (if op.value.ProbeRef? then {op.value.probe} else {})
  {
    MarshalOne(op);
    EmitOne(i, one);
    MarshalConcat(ops, [op]);
    EmitConcat(i, want, [one]);
  }

  // ----- the pieces -----

  method EscapeJSONPatchKey(key: string) returns (out: string)
    ensures out == JsonPointer.Escape(key)
  {
    out := "";
    for i := 0 to |key|
      invariant out + JsonPointer.Escape(key[i..]) == JsonPointer.Escape(key)
    {
      ghost var before := out;
      EscapeStep(key, i, before);
      hide JsonPointer.Escape;
      match key[i]
      case '~' => out := out + ['~', '0'];
      case '/' => out := out + ['~', '1'];
      case c => out := out + [c];
      assert out == before + JsonPointer.EscapeChar(key[i]);
    }
  }

  lemma EscapeStep(key: string, i: nat, out: string)
    requires i < |key|
    ensures out + JsonPointer.Escape(key[i..]) == (out + JsonPointer.EscapeChar(key[i])) + JsonPointer.Escape(key[i + 1..])
  {
    var rest := key[i..];
    assert rest[0] == key[i] && rest[1..] == key[i + 1..];
    assert JsonPointer.Escape(rest) == JsonPointer.EscapeChar(key[i]) + JsonPointer.Escape(key[i + 1..]);
    hide JsonPointer.Escape, JsonPointer.EscapeChar;
  }

  function RemoveField(path: string): GoOp { GoOp(RemoveOp, path, Nothing) }

  function BuildProbePatch(path: string, present: bool, probe: ProbeObj?): seq<GoOp> {
    if probe == null then [] else [GoOp(if present then ReplaceOp else AddOp, path, ProbeRef(probe))]
  }

  method TuneStartupProbe(p: ProbeObj?, period: int32, failure: int32) returns (tuned: ProbeObj)
    modifies p
    ensures if p == null then fresh(tuned) else tuned == p
    ensures p != null ==> tuned.Value() == old(p.Value()).(initialDelaySeconds := 0, periodSeconds := period,
                                                            failureThreshold := failure, successThreshold := 1)
    ensures p == null ==> tuned.Value() == Probe(map[], 0, 0, period, 1, failure)
  {
    if p == null {
      tuned := new ProbeObj(Probe(map[], 0, 0, 0, 0, 0));
    } else {
      tuned := p;
    }
    tuned.initialDelaySeconds := 0;
    tuned.periodSeconds := period;
    tuned.failureThreshold := failure;
    tuned.successThreshold := 1;
  }

  method CloneProbeOrEmpty(p: ProbeObj?) returns (copy: ProbeObj)
    ensures fresh(copy)
    ensures copy.Value() == if p == null then Probe(map[], 0, 0, 0, 0, 0) else p.Value()
  {
    if p == null {
      copy := new ProbeObj(Probe(map[], 0, 0, 0, 0, 0));
    } else {
      copy := p.DeepCopy();
    }
  }

  method AlignProbe(path: string, probe: ProbeObj?, minWindow: int32, maxFailure: int32, ghost i: nat, ghost slot: string)
    returns (ops: seq<GoOp>)
    requires path == BasePath(i) + "/" + slot
    ensures MarshalAll(ops) == EmitAll(i, if probe == null then [] else AlignOps(slot, probe.Value(), minWindow, maxFailure))
    ensures Refs(ops) == {}
  {
    ops := [];
    if probe == null {
      return;
    }
    ghost var want: seq<SlotOp> := [];
    if probe.initialDelaySeconds > 0 {
      ghost var one := SlotOp(slot, Some(DELAY), Remove);
      AppendOp(ops, RemoveField(path + "/" + DELAY), i, want, one);
      ops, want := ops + [RemoveField(path + "/" + DELAY)], want + [one];
    }
    if probe.periodSeconds > 0 && Wrap32(probe.periodSeconds * probe.failureThreshold) < minWindow {
      var needed := Wrap32(Float64.Ceil(Float64.Quotient(minWindow, probe.periodSeconds)));
      var newFailure := probe.failureThreshold;
      if needed > newFailure {
        newFailure := needed;
      }
      if newFailure > maxFailure {
        newFailure := maxFailure;
      }
      assert newFailure == AlignedThreshold(probe.Value(), minWindow, maxFailure);
      hide AlignedThreshold;
      if newFailure != probe.failureThreshold {
        var op := GoOp(ReplaceOp, path + "/" + FAILURE, Number(newFailure));
        ghost var one := SlotOp(slot, Some(FAILURE), Replace(Num(newFailure)));
        AppendOp(ops, op, i, want, one);
        ops, want := ops + [op], want + [one];
      }
    }
    assert want == AlignOps(slot, probe.Value(), minWindow, maxFailure);
  }

  method NewProbe(p: Option<Probe>) returns (r: ProbeObj?)
    ensures r == null <==> p.None?
    ensures r != null ==> fresh(r) && r.Value() == p.value
  {
    if p.None? {
      r := null;
    } else {
      r := new ProbeObj(p.value);
    }
  }

  // ----- one container -----

  /** Step 2 for one of liveness and readiness: add or replace it, or clear its delay. */
  method MainPatches(i: nat, slot: string, existing: ProbeObj?, built: ProbeObj?, overwrite: bool, clear: bool)
    returns (ops: seq<GoOp>)
    ensures MarshalAll(ops) == EmitAll(i, MainOps(slot, ValueOf(existing), ValueOf(built), overwrite, clear))
    ensures Refs(ops) <= if built == null then {} else {built}
  {
    var path := BasePath(i) + "/" + slot;
    ops := [];
    ghost var one: SlotOp;
    if overwrite || existing == null {
      if built != null {
        ops := BuildProbePatch(path, existing != null, built);
        one := PutProbe(slot, existing != null, built.Value());
        assert path == path + "";
        AppendOp([], ops[0], i, [], one);
      }
    } else if clear && existing.initialDelaySeconds != 0 {
      ops := [RemoveField(path + "/" + DELAY)];
      one := SlotOp(slot, Some(DELAY), Remove);
      AppendOp([], ops[0], i, [], one);
    }
    assert |ops| == 1 ==> [] + [ops[0]] == ops && [] + [one] == [one];
  }

  /** Step 4 for one of liveness and readiness, on a deep copy of the probe. */
  method AlignPatches(i: nat, slot: string, existing: ProbeObj?, working: ProbeObj?, s: Settings) returns (ops: seq<GoOp>)
    ensures MarshalAll(ops) == EmitAll(i, AlignStep(slot, ValueOf(existing), ValueOf(working), s))
    ensures Refs(ops) == {}
  {
    ops := [];
    if working != null {
      var copy := working.DeepCopy();
      if s.clearDelays && existing != null {
        copy.initialDelaySeconds := 0;
      }
      ops := AlignProbe(BasePath(i) + "/" + slot, copy, s.minWindow, s.maxFailure, i, slot);
    }
  }

  /** Step 3: a tuned deep copy of the source, so that the source itself stays as it is. */
  method StartupPatches(i: nat, existing: ProbeObj?, source: ProbeObj, s: Settings) returns (ops: seq<GoOp>)
    ensures MarshalAll(ops) == EmitAll(i, [PutProbe(STARTUP, existing != null, Tuned(source.Value(), s))])
    ensures forall p :: p in Refs(ops) ==> fresh(p)
  {
    var copy := CloneProbeOrEmpty(source);
    var startup := TuneStartupProbe(copy, s.startupPeriod, s.startupFailure);
    var path := BasePath(i) + "/" + STARTUP;
    ops := BuildProbePatch(path, existing != null, startup);
    assert path == path + "";
    MarshalOne(ops[0]);
    EmitOne(i, PutProbe(STARTUP, existing != null, Tuned(source.Value(), s)));
  }

  /** What buildContainerPatches emits: nothing for a generic runtime without ports. */
  function WantedOps(env: Env, framework: string, a: Annotations, cfg: JVMConfig, c: Container): seq<SlotOp> {
    if framework == GENERIC && c.ports == [] then []
    else ContainerOps(c, BuiltFor(env, a, cfg, framework, c), SettingsOf(env, a, cfg))
  }

  function StartupOps(c: Container, b: Built, s: Settings): seq<SlotOp> {
    if InjectsStartup(c, b, s) then [PutProbe(STARTUP, c.startup.Some?, Tuned(StartupSource(c, b, s).value, s))] else []
  }

  function AlignmentOps(c: Container, b: Built, s: Settings): seq<SlotOp> {
    if InjectsStartup(c, b, s) && s.align then
      AlignStep(LIVENESS, c.liveness, Working(c.liveness, b.liveness, s.overwriteLiveness), s)
      + AlignStep(READINESS, c.readiness, Working(c.readiness, b.readiness, s.overwriteReadiness), s)
    else []
  }

  function BothMainOps(c: Container, b: Built, s: Settings): seq<SlotOp> {
    MainOps(LIVENESS, c.liveness, b.liveness, s.overwriteLiveness, s.clearDelays)
    + MainOps(READINESS, c.readiness, b.readiness, s.overwriteReadiness, s.clearDelays)
  }

  lemma Assemble(i: nat, c: Container, b: Built, s: Settings, main: seq<GoOp>, third: seq<GoOp>, fourth: seq<GoOp>)
    requires MarshalAll(main) == EmitAll(i, BothMainOps(c, b, s))
    requires MarshalAll(third) == EmitAll(i, StartupOps(c, b, s))
    requires MarshalAll(fourth) == EmitAll(i, AlignmentOps(c, b, s))
    ensures MarshalAll(main + third + fourth) == EmitAll(i, ContainerOps(c, b, s))
    ensures Refs(main + third + fourth) == Refs(main) + Refs(third) + Refs(fourth)
  {
    hide MainOps, AlignStep, Tuned, PutProbe, StartupSource;
    MarshalConcat(main, third);
    MarshalConcat(main + third, fourth);
    EmitConcat(i, BothMainOps(c, b, s), StartupOps(c, b, s));
    EmitConcat(i, BothMainOps(c, b, s) + StartupOps(c, b, s), AlignmentOps(c, b, s));
  }

  /** Step 2 for liveness, then for readiness. */
  method MainBoth(i: nat, container: ContainerObj, liveness: ProbeObj?, readiness: ProbeObj?, s: Settings)
    returns (ops: seq<GoOp>)
    ensures MarshalAll(ops) ==
      EmitAll(i, MainOps(LIVENESS, ValueOf(container.livenessProbe), ValueOf(liveness), s.overwriteLiveness, s.clearDelays)
                 + MainOps(READINESS, ValueOf(container.readinessProbe), ValueOf(readiness), s.overwriteReadiness, s.clearDelays))
    ensures forall p :: p in Refs(ops) ==> p == liveness || p == readiness
  {
    hide MainOps, EmitAll, MarshalAll;
    var l := MainPatches(i, LIVENESS, container.livenessProbe, liveness, s.overwriteLiveness, s.clearDelays);
    var r := MainPatches(i, READINESS, container.readinessProbe, readiness, s.overwriteReadiness, s.clearDelays);
    MarshalConcat(l, r);
    EmitConcat(i, MainOps(LIVENESS, ValueOf(container.livenessProbe), ValueOf(liveness), s.overwriteLiveness, s.clearDelays),
      MainOps(READINESS, ValueOf(container.readinessProbe), ValueOf(readiness), s.overwriteReadiness, s.clearDelays));
    ops := l + r;
  }

  /** Step 1: the framework's liveness and readiness probes, with injection forced by the overwrite flags. */
  method BuildWanted(env: Env, framework: string, info: ContainerInfo, a: Annotations, cfg: JVMConfig, s: Settings,
                     ghost c: Container)
    returns (liveness: ProbeObj?, readiness: ProbeObj?)
    requires s == SettingsOf(env, a, cfg) && info == env.detect(c.rest, c.ports)
    ensures ValueOf(liveness) == BuiltFor(env, a, cfg, framework, c).liveness
    ensures ValueOf(readiness) == BuiltFor(env, a, cfg, framework, c).readiness
    ensures liveness != null ==> fresh(liveness)
    ensures readiness != null ==> fresh(readiness)
  {
    hide BuildProbesForFramework, SettingsOf;
    var effective := a;
    if s.overwriteLiveness { effective := effective[Name(InjectLiveness) := "true"]; }
    if s.overwriteReadiness { effective := effective[Name(InjectReadiness) := "true"]; }
    if s.overwriteStartup { effective := effective[Name(InjectStartup) := "true"]; }
    var built := BuildProbesForFramework(env, framework, info, effective, cfg);
    liveness := NewProbe(built.liveness);
    readiness := NewProbe(built.readiness);
  }

  /** Step 3, the choice of the probe to copy: liveness, else readiness, else one built for the framework. */
  method PickStartupSource(env: Env, framework: string, info: ContainerInfo, a: Annotations, cfg: JVMConfig,
                           s: Settings, workingLiveness: ProbeObj?, workingReadiness: ProbeObj?, ghost c: Container)
    returns (source: ProbeObj?)
    requires info == env.detect(c.rest, c.ports)
    requires ValueOf(workingLiveness)
          == Working(c.liveness, BuiltFor(env, a, cfg, framework, c).liveness, s.overwriteLiveness)
    requires ValueOf(workingReadiness)
          == Working(c.readiness, BuiltFor(env, a, cfg, framework, c).readiness, s.overwriteReadiness)
    ensures ValueOf(source) == StartupSource(c, BuiltFor(env, a, cfg, framework, c), s)
  {
    hide BuildProbesForFramework;
    source := null;
    if workingLiveness != null {
      source := workingLiveness;
    } else if workingReadiness != null {
      source := workingReadiness;
    } else if s.injectStartup {
      source := NewProbe(BuildProbesForFramework(env, framework, info, a, cfg).startup);
    }
  }

  method AlignBoth(i: nat, container: ContainerObj, workingLiveness: ProbeObj?, workingReadiness: ProbeObj?, s: Settings)
    returns (ops: seq<GoOp>)
    ensures MarshalAll(ops) ==
      EmitAll(i, AlignStep(LIVENESS, ValueOf(container.livenessProbe), ValueOf(workingLiveness), s)
                 + AlignStep(READINESS, ValueOf(container.readinessProbe), ValueOf(workingReadiness), s))
    ensures Refs(ops) == {}
  {
    hide AlignStep, EmitAll, MarshalAll;
    var l := AlignPatches(i, LIVENESS, container.livenessProbe, workingLiveness, s);
    var r := AlignPatches(i, READINESS, container.readinessProbe, workingReadiness, s);
    MarshalConcat(l, r);
    EmitConcat(i, AlignStep(LIVENESS, ValueOf(container.livenessProbe), ValueOf(workingLiveness), s),
               AlignStep(READINESS, ValueOf(container.readinessProbe), ValueOf(workingReadiness), s));
    ops := l + r;
  }

  /** Steps 3 and 4: the startup probe, and alignment when it was injected in this call. */
  method FinishPatches(i: nat, container: ContainerObj, startupSrc: ProbeObj?, workingLiveness: ProbeObj?,
                       workingReadiness: ProbeObj?, s: Settings, ghost c: Container, ghost b: Built)
    returns (third: seq<GoOp>, fourth: seq<GoOp>)
    requires c == container.Value() && ValueOf(startupSrc) == StartupSource(c, b, s)
    requires ValueOf(workingLiveness) == Working(c.liveness, b.liveness, s.overwriteLiveness)
    requires ValueOf(workingReadiness) == Working(c.readiness, b.readiness, s.overwriteReadiness)
    ensures MarshalAll(third) == EmitAll(i, StartupOps(c, b, s))
    ensures MarshalAll(fourth) == EmitAll(i, AlignmentOps(c, b, s))
    ensures forall p :: p in Refs(third) ==> fresh(p)
    ensures Refs(fourth) == {}
  {
    hide AlignStep, Tuned, PutProbe, Working, StartupSource;
    third, fourth := [], [];
    var haveStartup := container.startupProbe != null && !s.overwriteStartup;
    if !haveStartup && startupSrc != null {
      third := StartupPatches(i, container.startupProbe, startupSrc, s);
    } else if s.overwriteStartup && startupSrc != null {
      assert false;
    }
    if !haveStartup && startupSrc != null && s.align {
      fourth := AlignBoth(i, container, workingLiveness, workingReadiness, s);
    }
  }

  /** The probe to go on with: the built one when the existing one is missing or overwritten. */
  method PickWorking(existing: ProbeObj?, built: ProbeObj?, overwrite: bool) returns (working: ProbeObj?)
    ensures ValueOf(working) == Working(ValueOf(existing), ValueOf(built), overwrite)
  {
    var have := existing != null && !overwrite;
    working := existing;
    if !have && built != null {
      working := built;
    }
  }

  /** Steps 2 to 4, from the built probes on. */
  method EmitSteps(env: Env, container: ContainerObj, framework: string, info: ContainerInfo, i: nat, a: Annotations,
                   cfg: JVMConfig, s: Settings, liveness: ProbeObj?, readiness: ProbeObj?, ghost c: Container,
                   ghost b: Built)
    returns (ops: seq<GoOp>)
    requires info == env.detect(c.rest, c.ports) && c == container.Value()
    requires b == BuiltFor(env, a, cfg, framework, c)
    requires ValueOf(liveness) == b.liveness && ValueOf(readiness) == b.readiness
    ensures MarshalAll(ops) == EmitAll(i, ContainerOps(c, b, s))
    ensures forall p :: p in Refs(ops) ==> fresh(p) || p == liveness || p == readiness
  {
    hide MainOps, AlignStep, Tuned, PutProbe, ContainerOps, EmitAll, MarshalAll, BuiltFor, Refs, Working;
    hide StartupSource, StartupOps, AlignmentOps;
    var main := MainBoth(i, container, liveness, readiness, s);
    assert MarshalAll(main) == EmitAll(i, BothMainOps(c, b, s));
    hide BothMainOps;
    label Main:
    var workingLiveness := PickWorking(container.livenessProbe, liveness, s.overwriteLiveness);
    var workingReadiness := PickWorking(container.readinessProbe, readiness, s.overwriteReadiness);
    var startupSrc := PickStartupSource(env, framework, info, a, cfg, s, workingLiveness, workingReadiness, c);
    var third, fourth := FinishPatches(i, container, startupSrc, workingLiveness, workingReadiness, s, c, b);
    MarshalFrame@Main(main);
    Assemble(i, c, b, s, main, third, fourth);
    ops := main + third + fourth;
  }

  /** Steps 1 to 4 for a container that is not skipped. */
  method BuildAllPatches(env: Env, container: ContainerObj, framework: string, info: ContainerInfo, i: nat,
                         a: Annotations, cfg: JVMConfig, s: Settings, ghost c: Container, ghost b: Built)
    returns (ops: seq<GoOp>)
    requires s == SettingsOf(env, a, cfg) && info == env.detect(container.rest, container.ports)
    requires c == container.Value() && b == BuiltFor(env, a, cfg, framework, c)
    ensures MarshalAll(ops) == EmitAll(i, ContainerOps(c, b, s))
    ensures forall p :: p in Refs(ops) ==> fresh(p)
  {
    hide SettingsOf, ContainerOps, EmitAll, MarshalAll, BuiltFor, Refs;
    var liveness, readiness := BuildWanted(env, framework, info, a, cfg, s, c);
    ops := EmitSteps(env, container, framework, info, i, a, cfg, s, liveness, readiness, c, b);
  }

  method BuildContainerPatches(env: Env, container: ContainerObj, framework: string, info: ContainerInfo, i: nat,
                               a: Annotations, cfg: JVMConfig, s: Settings)
    returns (ops: seq<GoOp>)
    requires s == SettingsOf(env, a, cfg) && info == env.detect(container.rest, container.ports)
    ensures MarshalAll(ops) == EmitAll(i, WantedOps(env, framework, a, cfg, container.Value()))
    ensures forall p :: p in Refs(ops) ==> fresh(p)
  {
    hide SettingsOf, ContainerOps, BuiltFor;
    if framework == GENERIC && container.ports == [] {
      ops := [];
    } else {
      ghost var c := container.Value();
      ops := BuildAllPatches(env, container, framework, info, i, a, cfg, s, c, BuiltFor(env, a, cfg, framework, c));
    }
  }

  // ----- the whole Pod -----

  datatype PodObj = PodObj(annotations: Annotations, containers: seq<ContainerObj>, meta: MetaRest, spec: SpecRest, rest: PodRest)

  /** The heap Pod holds the value `pod`. */
  ghost predicate Represents(obj: PodObj, pod: Pod)
    reads obj.containers, set c | c in obj.containers && c.livenessProbe != null :: c.livenessProbe,
          set c | c in obj.containers && c.readinessProbe != null :: c.readinessProbe,
          set c | c in obj.containers && c.startupProbe != null :: c.startupProbe
  {
    && pod.annotations == obj.annotations && |pod.containers| == |obj.containers|
    && pod.meta == obj.meta && pod.spec == obj.spec && pod.rest == obj.rest
    && forall i :: 0 <= i < |obj.containers| ==> obj.containers[i].Value() == pod.containers[i]
  }

  lemma WantedIsOpsFor(env: Env, a: Annotations, cfg: JVMConfig, c: Container, framework: string)
    requires framework == var o := AnnotationText(a, Framework, "");
                          if o != "" then o else env.detect(c.rest, c.ports).framework
    requires env.detect(c.rest, c.ports).isJVM || (AnnotationText(a, Framework, "") != "" && c.ports != [])
    ensures OpsFor(env, a, cfg, c) == WantedOps(env, framework, a, cfg, c)
  {
    hide BuiltFor, SettingsOf, ContainerOps;
  }

  /** Detection, the framework override and the patches of container idx. */
  method PatchContainer(env: Env, container: ContainerObj, idx: nat, a: Annotations, cfg: JVMConfig, s: Settings,
                        ghost c: Container)
    returns (found: seq<GoOp>)
    requires s == SettingsOf(env, a, cfg) && c == container.Value()
    ensures MarshalAll(found) == EmitAll(idx, OpsFor(env, a, cfg, c))
    ensures forall p :: p in Refs(found) ==> fresh(p)
  {
    hide SettingsOf, ContainerOps, BuiltFor, WantedOps;
    var override := AnnotationText(a, Framework, "");
    var info := env.detect(container.rest, container.ports);
    var isJVM, framework := info.isJVM, info.framework;
    if !isJVM && override != "" && |container.ports| > 0 {
      isJVM := true;
      framework := override;
    }
    if !isJVM {
      found := [];
    } else {
      if override != "" {
        framework := override;
      }
      WantedIsOpsFor(env, a, cfg, c, framework);
      hide OpsFor;
      found := BuildContainerPatches(env, container, framework, info, idx, a, cfg, s);
    }
  }

  /** The operations that mark the Pod as managed. */
  method MarkManaged(a: Annotations) returns (ops: seq<GoOp>)
    ensures MarshalAll(ops) == MarkOps(a) && Refs(ops) == {}
  {
    ops := [];
    if !(MANAGED in a && a[MANAGED] == "true") {
      var mark: GoOp;
      if |a| == 0 {
        mark := GoOp(AddOp, "/" + METADATA + "/" + ANNOTATIONS, Dict(map[MANAGED := "true"]));
      } else {
        var key := EscapeJSONPatchKey(MANAGED);
        mark := GoOp(AddOp, "/" + METADATA + "/" + ANNOTATIONS + "/" + key, Text("true"));
      }
      MarshalOne(mark);
      assert Marshal(mark) == MarkOps(a)[0];
      ops := [mark];
    }
  }

  /** The loop over the containers, in slice order. */
  method PatchContainers(env: Env, obj: PodObj, cfg: JVMConfig, ghost pod: Pod) returns (patches: seq<GoOp>)
    requires Represents(obj, pod)
    ensures MarshalAll(patches) == ContainerPatches(env, pod, cfg, |pod.containers|)
    ensures forall p :: p in Refs(patches) ==> fresh(p)
  {
    patches := [];
    hide SettingsOf, OpsFor, EmitAll, Represents;
    var s := SettingsOf(env, obj.annotations, cfg);
    HoldsLength(obj, pod);
    for idx := 0 to |obj.containers|
      invariant Represents(obj, pod) && |pod.containers| == |obj.containers| && obj.annotations == pod.annotations
      invariant MarshalAll(patches) == ContainerPatches(env, pod, cfg, idx)
      invariant forall p :: p in Refs(patches) ==> fresh(p)
    {
      HoldsAt(obj, pod, idx);
      hide MarshalAll, Refs;
      patches := AppendContainer(env, obj.containers[idx], idx, obj.annotations, cfg, s, patches, pod.containers[idx]);
    }
  }

  lemma HoldsLength(obj: PodObj, pod: Pod)
    requires Represents(obj, pod)
    ensures |pod.containers| == |obj.containers| && obj.annotations == pod.annotations
  {}

  lemma HoldsAt(obj: PodObj, pod: Pod, i: nat)
    requires Represents(obj, pod) && i < |obj.containers|
    ensures i < |pod.containers| && obj.containers[i].Value() == pod.containers[i]
  {}

  /** One round of the loop: the operations so far, extended by those of container idx. */
  method AppendContainer(env: Env, container: ContainerObj, idx: nat, a: Annotations, cfg: JVMConfig, s: Settings,
                         patches: seq<GoOp>, ghost c: Container)
    returns (all: seq<GoOp>)
    requires s == SettingsOf(env, a, cfg) && c == container.Value()
    ensures MarshalAll(all) == old(MarshalAll(patches)) + EmitAll(idx, OpsFor(env, a, cfg, c))
    ensures forall p :: p in Refs(all) ==> p in Refs(patches) || fresh(p)
  {
    hide SettingsOf, OpsFor, EmitAll, MarshalAll;
    var found := PatchContainer(env, container, idx, a, cfg, s, c);
    MarshalFrame(patches);
    MarshalConcat(patches, found);
    all := patches + found;
  }

  method AppendMark(a: Annotations, patches: seq<GoOp>) returns (all: seq<GoOp>)
    ensures MarshalAll(all) == old(MarshalAll(patches)) + MarkOps(a)
    ensures Refs(all) == Refs(patches) && |all| >= |patches|
  {
    var mark := MarkManaged(a);
    MarshalFrame(patches);
    MarshalConcat(patches, mark);
    all := patches + mark;
  }

  method BuildPodProbePatches(env: Env, obj: PodObj, cfg: JVMConfig, ghost pod: Pod)
    returns (patches: seq<GoOp>, mutationApplied: bool)
    requires Represents(obj, pod)
    ensures MarshalAll(patches) == PodPatches(env, pod, cfg)
    ensures mutationApplied <==> patches != []
    ensures forall p :: p in Refs(patches) ==> fresh(p)
  {
    patches, mutationApplied := [], false;
    var a := obj.annotations;
    var bypassed := Lookup(a, Bypass).Some? && IsTrueAnyCase(Lookup(a, Bypass).value);
    if cfg.managementEnabled && !bypassed {
      hide ContainerPatches, MarkOps, MarshalAll;
      patches := PatchContainers(env, obj, cfg, pod);
      mutationApplied := |patches| != 0;
      if mutationApplied {
        patches := AppendMark(a, patches);
      }
    }
  }
}
