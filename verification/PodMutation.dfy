/** The patch generator of the JVM webhook as functions, and the direct mutation it is meant to describe. */
module PodMutation {
  import opened Basics
  import Float64
  import opened Json
  import opened JsonPatch
  import JsonPointer
  import opened ProbeModel
  import opened ProbeBuilder

  /** Everything the generator derives from annotations and configuration. */
  datatype Settings = Settings(
    overwriteLiveness: bool, overwriteReadiness: bool, overwriteStartup: bool, clearDelays: bool,
    startupPeriod: int32, startupFailure: int32, injectStartup: bool, align: bool,
    minWindow: int32, maxFailure: int32)

  predicate Overwrites(a: Annotations, k: Key) { Flag(a, k) || Flag(a, OverwriteAll) }

  predicate FlagOr(a: Annotations, k: Key, fallback: bool) {
    var v := Lookup(a, k);
    if v.Some? then Truthy(v.value) else fallback
  }

  function SettingsOf(env: Env, a: Annotations, cfg: JVMConfig): Settings {
    Settings(Overwrites(a, OverwriteLiveness), Overwrites(a, OverwriteReadiness), Overwrites(a, OverwriteStartup),
      Flag(a, ClearDelays), AnnotationInt(env, a, StartupPeriod, 15), AnnotationInt(env, a, StartupFailureThreshold, 40),
      FlagOr(a, InjectStartup, cfg.injectStartupProbe), FlagOr(a, Align, cfg.alignProbes),
      cfg.minProbeWindowSeconds, cfg.maxFailureThreshold)
  }

  function WithFlag(a: Annotations, on: bool, k: Key): Annotations {
    if on then a[Name(k) := "true"] else a
  }

  /** The annotations the builder sees: an overwrite forces the matching injection flag. */
  function EffectiveAnnotations(a: Annotations, s: Settings): Annotations {
    WithFlag(WithFlag(WithFlag(a, s.overwriteLiveness, InjectLiveness),
      s.overwriteReadiness, InjectReadiness), s.overwriteStartup, InjectStartup)
  }

  /** Framework chosen for a container, or None when the container is not touched at all. */
  function FrameworkFor(env: Env, a: Annotations, c: Container): Option<string> {
    var info := env.detect(c.rest, c.ports);
    var override := AnnotationText(a, Framework, "");
    if !info.isJVM && (override == "" || c.ports == []) then None
    else
      var framework := if override != "" then override else info.framework;
      if framework == GENERIC && c.ports == [] then None else Some(framework)
  }

  /** The liveness and readiness probes are built with the effective annotations, the startup fallback with
      the original ones. */
  function BuiltFor(env: Env, a: Annotations, cfg: JVMConfig, framework: string, c: Container): Built {
    var info := env.detect(c.rest, c.ports);
    var b := BuildProbesForFramework(env, framework, info, EffectiveAnnotations(a, SettingsOf(env, a, cfg)), cfg);
    b.(startup := BuildProbesForFramework(env, framework, info, a, cfg).startup)
  }

  // ----- alignment -----

  /** math.Ceil(float64(window) / float64(period)), with the division correctly rounded to binary64. */
  function NeededFailures(window: int32, period: int32): int
    requires period > 0
  {
    Float64.Ceil(Float64.Quotient(window, period))
  }

  predicate WindowTooShort(p: Probe, window: int32) {
    p.periodSeconds > 0 && Wrap32(p.periodSeconds * p.failureThreshold) < window
  }

  function AlignedThreshold(p: Probe, window: int32, cap: int32): int32 {
    if WindowTooShort(p, window) then
      var wanted := Wrap32(NeededFailures(window, p.periodSeconds));
      var raised := if wanted > p.failureThreshold then wanted else p.failureThreshold;
      if raised > cap then cap else raised
    else p.failureThreshold
  }

  // ----- the generator, relative to one container -----

  /** An operation inside one container: on a probe, or on one member of a probe. */
  datatype SlotOp = SlotOp(slot: string, field: Option<string>, edit: Edit)

  function PutProbe(slot: string, present: bool, p: Probe): SlotOp {
    var v := EncodeProbe(p, false);
    SlotOp(slot, None, if present then Replace(v) else Add(v))
  }

  function MainOps(slot: string, had: Option<Probe>, built: Option<Probe>, overwrite: bool, clear: bool): seq<SlotOp> {
    if overwrite || had.None? then
      if built.Some? then [PutProbe(slot, had.Some?, built.value)] else []
    else if clear && had.value.initialDelaySeconds != 0 then [SlotOp(slot, Some(DELAY), Remove)]
    else []
  }

  /** The probe the later steps start from: the built one when it is wanted, else the existing one. */
  function Working(had: Option<Probe>, built: Option<Probe>, overwrite: bool): Option<Probe> {
    if (had.None? || overwrite) && built.Some? then built else had
  }

  function StartupSource(c: Container, b: Built, s: Settings): Option<Probe> {
    var l, r := Working(c.liveness, b.liveness, s.overwriteLiveness), Working(c.readiness, b.readiness, s.overwriteReadiness);
    if l.Some? then l else if r.Some? then r else if s.injectStartup then b.startup else None
  }

  predicate InjectsStartup(c: Container, b: Built, s: Settings) {
    (c.startup.None? || s.overwriteStartup) && StartupSource(c, b, s).Some?
  }

  function Tuned(p: Probe, s: Settings): Probe {
    p.(initialDelaySeconds := 0, periodSeconds := s.startupPeriod, failureThreshold := s.startupFailure,
       successThreshold := 1)
  }

  function AlignOps(slot: string, p: Probe, window: int32, cap: int32): seq<SlotOp> {
    var t := AlignedThreshold(p, window, cap);
    (if p.initialDelaySeconds > 0 then [SlotOp(slot, Some(DELAY), Remove)] else [])
    + (if t != p.failureThreshold then [SlotOp(slot, Some(FAILURE), Replace(Num(t)))] else [])
  }

  function AlignStep(slot: string, had: Option<Probe>, working: Option<Probe>, s: Settings): seq<SlotOp> {
    if working.None? then []
    else AlignOps(slot, if s.clearDelays && had.Some? then working.value.(initialDelaySeconds := 0) else working.value,
                  s.minWindow, s.maxFailure)
  }

  function ContainerOps(c: Container, b: Built, s: Settings): seq<SlotOp> {
    var l, r := Working(c.liveness, b.liveness, s.overwriteLiveness), Working(c.readiness, b.readiness, s.overwriteReadiness);
    var injects := InjectsStartup(c, b, s);
    MainOps(LIVENESS, c.liveness, b.liveness, s.overwriteLiveness, s.clearDelays)
    + MainOps(READINESS, c.readiness, b.readiness, s.overwriteReadiness, s.clearDelays)
    + (if injects then [PutProbe(STARTUP, c.startup.Some?, Tuned(StartupSource(c, b, s).value, s))] else [])
    + (if injects && s.align then
         AlignStep(LIVENESS, c.liveness, l, s) + AlignStep(READINESS, c.readiness, r, s)
       else [])
  }

  // ----- the generator for a Pod -----

  function BasePath(i: nat): string { "/" + SPEC + "/" + CONTAINERS + "/" + Itoa(i) }

  function SlotPath(i: nat, op: SlotOp): string {
    BasePath(i) + "/" + op.slot + (match op.field case None => "" case Some(f) => "/" + f)
  }

  function Emit(i: nat, op: SlotOp): PatchOp { PatchOp(SlotPath(i, op), op.edit) }

  function EmitAll(i: nat, ops: seq<SlotOp>): (r: seq<PatchOp>)
    ensures |r| == |ops|
  {
    if ops == [] then [] else [Emit(i, ops[0])] + EmitAll(i, ops[1..])
  }

  function OpsFor(env: Env, a: Annotations, cfg: JVMConfig, c: Container): seq<SlotOp> {
    match FrameworkFor(env, a, c)
    case None => []
    case Some(f) => ContainerOps(c, BuiltFor(env, a, cfg, f, c), SettingsOf(env, a, cfg))
  }

  /** The operations of the first n containers. */
  function ContainerPatches(env: Env, pod: Pod, cfg: JVMConfig, n: nat): seq<PatchOp>
    requires n <= |pod.containers|
  {
    if n == 0 then []
    else ContainerPatches(env, pod, cfg, n - 1)
         + EmitAll(n - 1, OpsFor(env, pod.annotations, cfg, pod.containers[n - 1]))
  }

  predicate Skips(pod: Pod, cfg: JVMConfig) {
    !cfg.managementEnabled
    || (Lookup(pod.annotations, Bypass).Some? && IsTrueAnyCase(Lookup(pod.annotations, Bypass).value))
  }

  predicate Marked(a: Annotations) { MANAGED in a && a[MANAGED] == "true" }

  function MarkOps(a: Annotations): seq<PatchOp> {
    if Marked(a) then []
    else if a == map[] then [PatchOp("/" + METADATA + "/" + ANNOTATIONS, Add(EncodeStrings(map[MANAGED := "true"])))]
    else [PatchOp("/" + METADATA + "/" + ANNOTATIONS + "/" + JsonPointer.Escape(MANAGED), Add(Str("true")))]
  }

  function PodPatches(env: Env, pod: Pod, cfg: JVMConfig): seq<PatchOp> {
    if Skips(pod, cfg) then []
    else
      var ops := ContainerPatches(env, pod, cfg, |pod.containers|);
      if ops == [] then [] else ops + MarkOps(pod.annotations)
  }

  // ----- the direct mutation -----

  /** Liveness or readiness before alignment. */
  function MainProbe(had: Option<Probe>, built: Option<Probe>, overwrite: bool, clear: bool): Option<Probe> {
    if overwrite || had.None? then (if built.Some? then built else had)
    else if clear then Some(had.value.(initialDelaySeconds := 0))
    else had
  }

  /** Alignment of an existing or built probe. Clear-delays takes over the delay of a probe the container had
      before, even one that is being overwritten. */
  function Aligned(p: Option<Probe>, keepsDelay: bool, s: Settings): Option<Probe> {
    match p
    case None => None
    case Some(q) =>
      Some(q.(initialDelaySeconds := if q.initialDelaySeconds > 0 && !keepsDelay then 0 else q.initialDelaySeconds,
              failureThreshold := AlignedThreshold(q, s.minWindow, s.maxFailure)))
  }

  function MutateContainer(c: Container, b: Built, s: Settings): Container {
    var l := MainProbe(c.liveness, b.liveness, s.overwriteLiveness, s.clearDelays);
    var r := MainProbe(c.readiness, b.readiness, s.overwriteReadiness, s.clearDelays);
    if InjectsStartup(c, b, s) then
      c.(startup := Some(Tuned(StartupSource(c, b, s).value, s)),
         liveness := if s.align then Aligned(l, s.clearDelays && c.liveness.Some?, s) else l,
         readiness := if s.align then Aligned(r, s.clearDelays && c.readiness.Some?, s) else r)
    else c.(liveness := l, readiness := r)
  }

  /** Whether the mutation sets a probe, clears a delay or injects a startup probe. */
  predicate Touches(c: Container, b: Built, s: Settings) {
    || ((s.overwriteLiveness || c.liveness.None?) && b.liveness.Some?)
    || ((s.overwriteReadiness || c.readiness.None?) && b.readiness.Some?)
    || (s.clearDelays && !s.overwriteLiveness && c.liveness.Some? && c.liveness.value.initialDelaySeconds != 0)
    || (s.clearDelays && !s.overwriteReadiness && c.readiness.Some? && c.readiness.value.initialDelaySeconds != 0)
    || InjectsStartup(c, b, s)
  }

  function Mutated(env: Env, a: Annotations, cfg: JVMConfig, c: Container): Container {
    match FrameworkFor(env, a, c)
    case None => c
    case Some(f) => MutateContainer(c, BuiltFor(env, a, cfg, f, c), SettingsOf(env, a, cfg))
  }

  predicate Touched(env: Env, a: Annotations, cfg: JVMConfig, c: Container) {
    var f := FrameworkFor(env, a, c);
    f.Some? && Touches(c, BuiltFor(env, a, cfg, f.value, c), SettingsOf(env, a, cfg))
  }

  predicate AnyTouched(env: Env, pod: Pod, cfg: JVMConfig) {
    exists i :: 0 <= i < |pod.containers| && Touched(env, pod.annotations, cfg, pod.containers[i])
  }

  function MutatePod(env: Env, pod: Pod, cfg: JVMConfig): Pod {
    if Skips(pod, cfg) then pod
    else
      pod.(containers := seq(|pod.containers|, i requires 0 <= i < |pod.containers| =>
                               Mutated(env, pod.annotations, cfg, pod.containers[i])),
           annotations := if AnyTouched(env, pod, cfg) then pod.annotations[MANAGED := "true"] else pod.annotations)
  }
}
