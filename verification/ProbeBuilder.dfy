/** Annotations and configuration of the JVM webhook, and the probes it builds for a framework. */
module ProbeBuilder {
  import opened Basics
  import opened Json
  import opened ProbeModel

  const PREFIX := "workloads.cast.ai/jvm-probe-"
  const MANAGED := PREFIX + "managed"
  const GENERIC := "generic"

  /** The annotations the webhook reads. */
  datatype Key =
    | Bypass | Framework | Port | LivenessPath | ReadinessPath | StartupPath
    | InitialDelay | Period | Timeout | FailureThreshold | SuccessThreshold
    | OverwriteAll | OverwriteLiveness | OverwriteReadiness | OverwriteStartup
    | InjectLiveness | InjectReadiness | InjectStartup
    | StartupPeriod | StartupFailureThreshold | ClearDelays | Align

  function Suffix(k: Key): string {
    match k
    case Bypass => "bypass"
    case Framework => "framework"
    case Port => "port"
    case LivenessPath => "liveness-path"
    case ReadinessPath => "readiness-path"
    case StartupPath => "startup-path"
    case InitialDelay => "initial-delay"
    case Period => "period"
    case Timeout => "timeout"
    case FailureThreshold => "failure-threshold"
    case SuccessThreshold => "success-threshold"
    case OverwriteAll => "overwrite-all"
    case OverwriteLiveness => "overwrite-liveness"
    case OverwriteReadiness => "overwrite-readiness"
    case OverwriteStartup => "overwrite-startup"
    case InjectLiveness => "inject-liveness"
    case InjectReadiness => "inject-readiness"
    case InjectStartup => "inject-startup"
    case StartupPeriod => "startup-period"
    case StartupFailureThreshold => "startup-failure-threshold"
    case ClearDelays => "clear-delays"
    case Align => "align"
  }

  function Name(k: Key): string { PREFIX + Suffix(k) }

  type Annotations = map<string, string>

  function Lookup(a: Annotations, k: Key): Option<string> {
    if Name(k) in a then Some(a[Name(k)]) else None
  }

  predicate Truthy(v: string) { v == "true" || v == "yes" || v == "1" }

  predicate Flag(a: Annotations, k: Key) {
    var v := Lookup(a, k);
    v.Some? && Truthy(v.value)
  }

  /** strings.ToLower(v) == "true": no letter outside ASCII lower-cases to one of t, r, u, e. */
  predicate IsTrueAnyCase(v: string) {
    |v| == 4 && v[0] in "tT" && v[1] in "rR" && v[2] in "uU" && v[3] in "eE"
  }

  datatype FrameworkConfig = FrameworkConfig(
    livenessPath: string, readinessPath: string, startupPath: string, defaultPort: int32,
    initialDelaySeconds: int32, periodSeconds: int32, timeoutSeconds: int32,
    failureThreshold: int32, successThreshold: int32, useTCPSocket: bool)

  /** Go's zero value, which a missing map entry yields. */
  const ZERO_FRAMEWORK := FrameworkConfig("", "", "", 0, 0, 0, 0, 0, 0, false)

  datatype JVMConfig = JVMConfig(
    frameworks: map<string, FrameworkConfig>, injectLivenessProbe: bool, injectReadinessProbe: bool,
    injectStartupProbe: bool, alignProbes: bool, minProbeWindowSeconds: int32, maxFailureThreshold: int32,
    managementEnabled: bool)

  datatype ContainerInfo = ContainerInfo(isJVM: bool, framework: string, port: int32, portName: string)

  /** What the model does not spell out: image and environment detection, and strconv.Atoi. */
  datatype Env = Env(detect: (ContainerRest, seq<Json>) -> ContainerInfo, atoi: string -> Option<int>)

  /** The three probes for one container; a probe that cannot or must not be injected is None. */
  datatype Built = Built(liveness: Option<Probe>, readiness: Option<Probe>, startup: Option<Probe>)

  function AnnotationText(a: Annotations, k: Key, fallback: string): string {
    var v := Lookup(a, k);
    if v.Some? && v.value != "" then v.value else fallback
  }

  function AnnotationInt(env: Env, a: Annotations, k: Key, fallback: int32): int32 {
    var v := Lookup(a, k);
    if v.Some? && v.value != "" && env.atoi(v.value).Some? then Wrap32(env.atoi(v.value).value) else fallback
  }

  predicate AnnotationBool(a: Annotations, k: Key, fallback: bool) {
    var v := Lookup(a, k);
    if v.Some? && v.value != "" then Truthy(v.value) else fallback
  }

  function PortValue(port: int32, portName: string): Json {
    if portName != "" then Str(portName) else Num(port)
  }

  function HTTPGetProbe(port: int32, portName: string, path: string, delay: int32, period: int32, timeout: int32,
                        failure: int32, success: int32): Probe
  {
    Probe(map["httpGet" := Obj(map["path" := Str(path), "port" := PortValue(port, portName), "scheme" := Str("HTTP")])],
          delay, timeout, period, success, failure)
  }

  function TCPProbe(port: int32, portName: string, delay: int32, period: int32, timeout: int32, failure: int32): Probe
  {
    Probe(map["tcpSocket" := Obj(map["port" := PortValue(port, portName)])], delay, timeout, period, 1, failure)
  }

  function FrameworkOf(cfg: JVMConfig, framework: string): FrameworkConfig {
    if framework in cfg.frameworks then cfg.frameworks[framework]
    else if GENERIC in cfg.frameworks then cfg.frameworks[GENERIC]
    else ZERO_FRAMEWORK
  }

  /** The annotation overrides and framework defaults that determine the probes. */
  datatype Inputs = Inputs(port: int32, portName: string, delay: int32, period: int32, timeout: int32,
                           failure: int32, success: int32, livenessPath: string, readinessPath: string,
                           startupPath: string, liveness: bool, readiness: bool, startup: bool)

  function ReadInputs(env: Env, info: ContainerInfo, a: Annotations, cfg: JVMConfig, fc: FrameworkConfig): Inputs {
    Inputs(
      AnnotationInt(env, a, Key.Port, info.port),
      if Lookup(a, Key.Port).Some? then "" else info.portName,
      AnnotationInt(env, a, InitialDelay, fc.initialDelaySeconds),
      AnnotationInt(env, a, Period, fc.periodSeconds),
      AnnotationInt(env, a, Timeout, fc.timeoutSeconds),
      AnnotationInt(env, a, FailureThreshold, fc.failureThreshold),
      AnnotationInt(env, a, SuccessThreshold, fc.successThreshold),
      AnnotationText(a, LivenessPath, fc.livenessPath),
      AnnotationText(a, ReadinessPath, fc.readinessPath),
      AnnotationText(a, StartupPath, fc.startupPath),
      AnnotationBool(a, InjectLiveness, cfg.injectLivenessProbe),
      AnnotationBool(a, InjectReadiness, cfg.injectReadinessProbe),
      AnnotationBool(a, InjectStartup, cfg.injectStartupProbe))
  }

  function BuildOne(i: Inputs, wanted: bool, useTCP: bool, path: string, tcpDelay: int32, failure: int32): Option<Probe> {
    if !wanted then None
    else if useTCP then Some(TCPProbe(i.port, i.portName, tcpDelay, i.period, i.timeout, failure))
    else if path != "" then
      Some(HTTPGetProbe(i.port, i.portName, path, i.delay, i.period, i.timeout, failure, i.success))
    else None
  }

  function BuildProbesForFramework(env: Env, framework: string, info: ContainerInfo, a: Annotations,
                                   cfg: JVMConfig): Built
  {
    var fc := FrameworkOf(cfg, framework);
    var i := ReadInputs(env, info, a, cfg, fc);
    var useTCP := fc.useTCPSocket || framework == GENERIC;
    Built(BuildOne(i, i.liveness, useTCP, i.livenessPath, i.delay, i.failure),
          BuildOne(i, i.readiness, useTCP, i.readinessPath, i.delay, i.failure),
          BuildOne(i, i.startup, useTCP, i.startupPath, Wrap32(i.delay * 3), Wrap32(i.failure * 2)))
  }

  lemma ManagedIsNotRead(k: Key)
    ensures Name(k) != MANAGED
  {
    assert Name(k)[|PREFIX|..] == Suffix(k);
    assert MANAGED[|PREFIX|..] == "managed";
    var m, s := "managed", Suffix(k);
    assert |m| == 7 && m[0] == 'm';
    assert |s| != 7 || s[0] != 'm';
  }

  /** The managed marker is not among the webhook's inputs: adding it changes no later decision. */
  lemma ManagedChangesNoLookup(a: Annotations, v: string)
    ensures forall k :: Lookup(a[MANAGED := v], k) == Lookup(a, k)
  {
    forall k ensures Lookup(a[MANAGED := v], k) == Lookup(a, k) {
      ManagedIsNotRead(k);
    }
  }
}
