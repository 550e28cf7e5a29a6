/** What the probes that the webhook injects hold, read off the annotations under their full names, the configuration
    and the container. Nothing here mentions the functions that build, choose or tune probes, except to say what they
    return. */
module ProbeContents {
  import opened Basics
  import opened Json
  import opened ProbeModel
  import opened ProbeBuilder
  import opened PodMutation

  // ----- reading annotations -----

  /** true, yes or 1. */
  predicate Says(a: Annotations, key: string) { key in a && a[key] in {"true", "yes", "1"} }

  /** An annotation that is there and not empty decides, else the default. */
  predicate Wants(a: Annotations, key: string, default': bool) {
    if key in a && a[key] != "" then Says(a, key) else default'
  }

  /** An annotation that is there decides, even an empty one. */
  predicate Asks(a: Annotations, key: string, default': bool) { if key in a then Says(a, key) else default' }

  function TextOr(a: Annotations, key: string, default': string): string {
    if key in a && a[key] != "" then a[key] else default'
  }

  /** The number n is what the annotation says, cut to 32 bits, or the default where it says none. */
  predicate Numbered(env: Env, a: Annotations, key: string, default': int32, n: int32) {
    if key in a && a[key] != "" && env.atoi(a[key]).Some? then SameBits(n, env.atoi(a[key]).value) else n == default'
  }

  /** Equal as 32-bit patterns. */
  predicate SameBits(n: int32, v: int) { (v - n) % 0x1_0000_0000 == 0 }

  function Full(suffix: string): string { "workloads.cast.ai/jvm-probe-" + suffix }

  lemma NamesInFull()
    ensures Name(Bypass) == Full("bypass")
    ensures Name(Framework) == Full("framework")
    ensures Name(Key.Port) == Full("port")
    ensures Name(LivenessPath) == Full("liveness-path")
    ensures Name(ReadinessPath) == Full("readiness-path")
    ensures Name(StartupPath) == Full("startup-path")
    ensures Name(InitialDelay) == Full("initial-delay")
    ensures Name(Period) == Full("period")
    ensures Name(Timeout) == Full("timeout")
    ensures Name(FailureThreshold) == Full("failure-threshold")
    ensures Name(SuccessThreshold) == Full("success-threshold")
    ensures Name(OverwriteAll) == Full("overwrite-all")
    ensures Name(OverwriteLiveness) == Full("overwrite-liveness")
    ensures Name(OverwriteReadiness) == Full("overwrite-readiness")
    ensures Name(OverwriteStartup) == Full("overwrite-startup")
    ensures Name(InjectLiveness) == Full("inject-liveness")
    ensures Name(InjectReadiness) == Full("inject-readiness")
    ensures Name(InjectStartup) == Full("inject-startup")
    ensures Name(StartupPeriod) == Full("startup-period")
    ensures Name(StartupFailureThreshold) == Full("startup-failure-threshold")
    ensures Name(ClearDelays) == Full("clear-delays")
    ensures Name(Align) == Full("align")
  {}

  /** The ways the code reads an annotation, in terms of its name. */
  lemma ReadsByName(env: Env, a: Annotations, k: Key, n: int32, b: bool, t: string)
    ensures Numbered(env, a, Name(k), n, AnnotationInt(env, a, k, n))
    ensures AnnotationText(a, k, t) == TextOr(a, Name(k), t)
    ensures AnnotationBool(a, k, b) <==> Wants(a, Name(k), b)
    ensures FlagOr(a, k, b) <==> Asks(a, Name(k), b)
    ensures Flag(a, k) <==> Says(a, Name(k))
  {
    hide Name;
  }

  // ----- the built probes -----

  /** The framework's own entry of the configuration, else that of "generic", else Go's zero value. */
  predicate ConfigFor(cfg: JVMConfig, framework: string, fc: FrameworkConfig) {
    && (framework in cfg.frameworks ==> fc == cfg.frameworks[framework])
    && (framework !in cfg.frameworks && "generic" in cfg.frameworks ==> fc == cfg.frameworks["generic"])
    && (framework !in cfg.frameworks && "generic" !in cfg.frameworks ==>
          fc == FrameworkConfig("", "", "", 0, 0, 0, 0, 0, 0, false))
  }

  predicate UsesTCP(framework: string, fc: FrameworkConfig) { fc.useTCPSocket || framework == "generic" }

  /** Numeric when the port annotation is set or the port has no name, else the port's name. */
  ghost predicate PortIs(env: Env, a: Annotations, info: ContainerInfo, port: Json) {
    if Full("port") in a || info.portName == "" then
      exists n: int32 :: port == Num(n) && Numbered(env, a, Full("port"), info.port, n)
    else port == Str(info.portName)
  }

  /** A TCP check of the port, or an HTTP GET of the path on it. */
  ghost predicate Checks(env: Env, a: Annotations, info: ContainerInfo, p: Probe, tcp: bool, path: string) {
    if tcp then
      exists port :: p.handler == map["tcpSocket" := Obj(map["port" := port])] && PortIs(env, a, info, port)
    else
      exists port :: p.handler == map["httpGet" := Obj(map["path" := Str(path), "port" := port, "scheme" := Str("HTTP")])]
                     && PortIs(env, a, info, port)
  }

  /** Timing that all three probes take from the same annotations; a TCP probe has success threshold 1. */
  predicate Timed(env: Env, a: Annotations, fc: FrameworkConfig, p: Probe, tcp: bool) {
    && Numbered(env, a, Full("period"), fc.periodSeconds, p.periodSeconds)
    && Numbered(env, a, Full("timeout"), fc.timeoutSeconds, p.timeoutSeconds)
    && (if tcp then p.successThreshold == 1
        else Numbered(env, a, Full("success-threshold"), fc.successThreshold, p.successThreshold))
  }

  /** Liveness and readiness take delay and failure threshold as they are. */
  predicate PlainTimed(env: Env, a: Annotations, fc: FrameworkConfig, p: Probe, tcp: bool) {
    && Timed(env, a, fc, p, tcp)
    && Numbered(env, a, Full("initial-delay"), fc.initialDelaySeconds, p.initialDelaySeconds)
    && Numbered(env, a, Full("failure-threshold"), fc.failureThreshold, p.failureThreshold)
  }

  /** Startup has twice the failure threshold, and three times the delay for TCP. */
  ghost predicate StartupTimed(env: Env, a: Annotations, fc: FrameworkConfig, p: Probe, tcp: bool) {
    && Timed(env, a, fc, p, tcp)
    && (forall d: int32 :: Numbered(env, a, Full("initial-delay"), fc.initialDelaySeconds, d) ==>
          if tcp then SameBits(p.initialDelaySeconds, d * 3) else p.initialDelaySeconds == d)
    && (forall f: int32 :: Numbered(env, a, Full("failure-threshold"), fc.failureThreshold, f) ==>
          SameBits(p.failureThreshold, f * 2))
  }

  ghost predicate LivenessIs(env: Env, a: Annotations, fc: FrameworkConfig, info: ContainerInfo, tcp: bool, wanted: bool,
                       p: Option<Probe>)
  {
    var path := TextOr(a, Full("liveness-path"), fc.livenessPath);
    && (p.Some? <==> wanted && (tcp || path != ""))
    && (p.Some? ==> Checks(env, a, info, p.value, tcp, path) && PlainTimed(env, a, fc, p.value, tcp))
  }

  ghost predicate ReadinessIs(env: Env, a: Annotations, fc: FrameworkConfig, info: ContainerInfo, tcp: bool, wanted: bool,
                        p: Option<Probe>)
  {
    var path := TextOr(a, Full("readiness-path"), fc.readinessPath);
    && (p.Some? <==> wanted && (tcp || path != ""))
    && (p.Some? ==> Checks(env, a, info, p.value, tcp, path) && PlainTimed(env, a, fc, p.value, tcp))
  }

  ghost predicate StartupIs(env: Env, a: Annotations, fc: FrameworkConfig, info: ContainerInfo, tcp: bool, wanted: bool,
                      p: Option<Probe>)
  {
    var path := TextOr(a, Full("startup-path"), fc.startupPath);
    && (p.Some? <==> wanted && (tcp || path != ""))
    && (p.Some? ==> Checks(env, a, info, p.value, tcp, path) && StartupTimed(env, a, fc, p.value, tcp))
  }

  /** For every environment, annotation map and configuration: each probe is there exactly when its own flag wants it
      and there is something to check, and it checks its own path and carries its own numbers. */
  lemma BuiltProbes(env: Env, framework: string, info: ContainerInfo, a: Annotations, cfg: JVMConfig, fc: FrameworkConfig)
    requires ConfigFor(cfg, framework, fc)
    ensures
      var b, tcp := BuildProbesForFramework(env, framework, info, a, cfg), UsesTCP(framework, fc);
      && LivenessIs(env, a, fc, info, tcp, Wants(a, Full("inject-liveness"), cfg.injectLivenessProbe), b.liveness)
      && ReadinessIs(env, a, fc, info, tcp, Wants(a, Full("inject-readiness"), cfg.injectReadinessProbe), b.readiness)
      && StartupIs(env, a, fc, info, tcp, Wants(a, Full("inject-startup"), cfg.injectStartupProbe), b.startup)
  {
    assert FrameworkOf(cfg, framework) == fc;
    ReadInputsMeans(env, info, a, cfg, fc);
    var i, tcp := ReadInputs(env, info, a, cfg, fc), UsesTCP(framework, fc);
    hide ReadInputs, Numbered, TextOr, Wants, Full, FrameworkOf, ConfigFor;
    BuiltOne(env, i, info, a, fc, i.liveness, tcp, i.livenessPath, i.delay, i.failure);
    BuiltOne(env, i, info, a, fc, i.readiness, tcp, i.readinessPath, i.delay, i.failure);
    BuiltOne(env, i, info, a, fc, i.startup, tcp, i.startupPath, Wrap32(i.delay * 3), Wrap32(i.failure * 2));
    if i.startup && (tcp || i.startupPath != "") {
      StartupNumbers(env, a, fc, i, tcp, BuildOne(i, i.startup, tcp, i.startupPath, Wrap32(i.delay * 3), Wrap32(i.failure * 2)).value);
    }
    hide BuildOne, Checks, Timed, StartupTimed;
  }

  predicate InputsAre(env: Env, info: ContainerInfo, a: Annotations, cfg: JVMConfig, fc: FrameworkConfig, i: Inputs) {
    && Numbered(env, a, Full("port"), info.port, i.port)
    && i.portName == (if Full("port") in a then "" else info.portName)
    && Numbered(env, a, Full("initial-delay"), fc.initialDelaySeconds, i.delay)
    && Numbered(env, a, Full("period"), fc.periodSeconds, i.period)
    && Numbered(env, a, Full("timeout"), fc.timeoutSeconds, i.timeout)
    && Numbered(env, a, Full("failure-threshold"), fc.failureThreshold, i.failure)
    && Numbered(env, a, Full("success-threshold"), fc.successThreshold, i.success)
    && i.livenessPath == TextOr(a, Full("liveness-path"), fc.livenessPath)
    && i.readinessPath == TextOr(a, Full("readiness-path"), fc.readinessPath)
    && i.startupPath == TextOr(a, Full("startup-path"), fc.startupPath)
    && (i.liveness <==> Wants(a, Full("inject-liveness"), cfg.injectLivenessProbe))
    && (i.readiness <==> Wants(a, Full("inject-readiness"), cfg.injectReadinessProbe))
    && (i.startup <==> Wants(a, Full("inject-startup"), cfg.injectStartupProbe))
  }

  lemma ReadInputsMeans(env: Env, info: ContainerInfo, a: Annotations, cfg: JVMConfig, fc: FrameworkConfig)
    ensures InputsAre(env, info, a, cfg, fc, ReadInputs(env, info, a, cfg, fc))
  {
    NamesInFull();
    ReadsByName(env, a, Key.Port, info.port, false, "");
    ReadsByName(env, a, InitialDelay, fc.initialDelaySeconds, false, "");
    ReadsByName(env, a, Period, fc.periodSeconds, false, "");
    ReadsByName(env, a, Timeout, fc.timeoutSeconds, false, "");
    ReadsByName(env, a, FailureThreshold, fc.failureThreshold, false, "");
    ReadsByName(env, a, SuccessThreshold, fc.successThreshold, false, "");
    ReadsByName(env, a, LivenessPath, 0, false, fc.livenessPath);
    ReadsByName(env, a, ReadinessPath, 0, false, fc.readinessPath);
    ReadsByName(env, a, StartupPath, 0, false, fc.startupPath);
    ReadsByName(env, a, InjectLiveness, 0, cfg.injectLivenessProbe, "");
    ReadsByName(env, a, InjectReadiness, 0, cfg.injectReadinessProbe, "");
    ReadsByName(env, a, InjectStartup, 0, cfg.injectStartupProbe, "");
    hide Name, Full, AnnotationInt, AnnotationText, AnnotationBool, FlagOr, Flag, Numbered, TextOr, Wants, Asks, Says;
  }

  /** One probe, whatever its path, delay and threshold. */
  lemma BuiltOne(env: Env, i: Inputs, info: ContainerInfo, a: Annotations, fc: FrameworkConfig, wanted: bool, tcp: bool,
                 path: string, tcpDelay: int32, failure: int32)
    requires Numbered(env, a, Full("port"), info.port, i.port)
    requires i.portName == if Full("port") in a then "" else info.portName
    requires Numbered(env, a, Full("period"), fc.periodSeconds, i.period)
    requires Numbered(env, a, Full("timeout"), fc.timeoutSeconds, i.timeout)
    requires Numbered(env, a, Full("success-threshold"), fc.successThreshold, i.success)
    ensures
      var p := BuildOne(i, wanted, tcp, path, tcpDelay, failure);
      && (p.Some? <==> wanted && (tcp || path != ""))
      && (p.Some? ==> Checks(env, a, info, p.value, tcp, path) && Timed(env, a, fc, p.value, tcp)
                      && p.value.failureThreshold == failure && p.value.initialDelaySeconds == if tcp then tcpDelay else i.delay)
  {
    var port := PortValue(i.port, i.portName);
    hide Numbered;
    assert PortIs(env, a, info, port);
    hide PortIs, PortValue, Full;
  }

  lemma WrapsSame(v: int)
    ensures SameBits(Wrap32(v), v)
  {}

  lemma NumberIsUnique(env: Env, a: Annotations, key: string, default': int32, m: int32, n: int32)
    requires Numbered(env, a, key, default', m) && Numbered(env, a, key, default', n)
    ensures m == n
  {}

  lemma StartupNumbers(env: Env, a: Annotations, fc: FrameworkConfig, i: Inputs, tcp: bool, p: Probe)
    requires Timed(env, a, fc, p, tcp)
    requires Numbered(env, a, Full("initial-delay"), fc.initialDelaySeconds, i.delay)
    requires Numbered(env, a, Full("failure-threshold"), fc.failureThreshold, i.failure)
    requires p.initialDelaySeconds == (if tcp then Wrap32(i.delay * 3) else i.delay) && p.failureThreshold == Wrap32(i.failure * 2)
    ensures StartupTimed(env, a, fc, p, tcp)
  {
    WrapsSame(i.delay * 3);
    WrapsSame(i.failure * 2);
    hide Wrap32, SameBits, Timed;
    forall d: int32 | Numbered(env, a, Full("initial-delay"), fc.initialDelaySeconds, d) ensures d == i.delay {
      NumberIsUnique(env, a, Full("initial-delay"), fc.initialDelaySeconds, d, i.delay);
    }
    forall f: int32 | Numbered(env, a, Full("failure-threshold"), fc.failureThreshold, f) ensures f == i.failure {
      NumberIsUnique(env, a, Full("failure-threshold"), fc.failureThreshold, f, i.failure);
    }
  }
}
