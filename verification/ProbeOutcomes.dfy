/** What a Pod's containers come to at an admission, in terms of what they had, the annotations and the configuration. */
module ProbeOutcomes {
  import opened Basics
  import opened Json
  import opened JsonPatch
  import opened ProbeModel
  import opened ProbeBuilder
  import opened PodMutation
  import opened ProbeContents

  // ----- which annotation drives what -----

  predicate Overwritten(a: Annotations, suffix: string) { Says(a, Full(suffix)) || Says(a, Full("overwrite-all")) }

  lemma SettingsMean(env: Env, a: Annotations, cfg: JVMConfig)
    ensures
      var s := SettingsOf(env, a, cfg);
      && (s.overwriteLiveness <==> Overwritten(a, "overwrite-liveness"))
      && (s.overwriteReadiness <==> Overwritten(a, "overwrite-readiness"))
      && (s.overwriteStartup <==> Overwritten(a, "overwrite-startup"))
      && (s.clearDelays <==> Says(a, Full("clear-delays")))
      && Numbered(env, a, Full("startup-period"), 15, s.startupPeriod)
      && Numbered(env, a, Full("startup-failure-threshold"), 40, s.startupFailure)
      && (s.injectStartup <==> Asks(a, Full("inject-startup"), cfg.injectStartupProbe))
      && (s.align <==> Asks(a, Full("align"), cfg.alignProbes))
      && s.minWindow == cfg.minProbeWindowSeconds && s.maxFailure == cfg.maxFailureThreshold
  {
    NamesInFull();
    ReadsByName(env, a, OverwriteAll, 0, false, "");
    ReadsByName(env, a, OverwriteLiveness, 0, false, "");
    ReadsByName(env, a, OverwriteReadiness, 0, false, "");
    ReadsByName(env, a, OverwriteStartup, 0, false, "");
    ReadsByName(env, a, ClearDelays, 0, false, "");
    ReadsByName(env, a, StartupPeriod, 15, false, "");
    ReadsByName(env, a, StartupFailureThreshold, 40, false, "");
    ReadsByName(env, a, InjectStartup, 0, cfg.injectStartupProbe, "");
    ReadsByName(env, a, Align, 0, cfg.alignProbes, "");
    hide Name, Full, AnnotationInt, AnnotationText, AnnotationBool, FlagOr, Flag, Numbered, TextOr, Wants, Asks, Says;
  }

  function Lower(c: char): char { if 'A' <= c <= 'Z' then c - 'A' + 'a' else c }

  predicate SaysTrueInAnyCase(v: string) { |v| == 4 && [Lower(v[0]), Lower(v[1]), Lower(v[2]), Lower(v[3])] == "true" }

  /** The master switch, and the bypass annotation. */
  lemma SkipsMeans(env: Env, pod: Pod, cfg: JVMConfig)
    ensures
      var off := !cfg.managementEnabled
                 || (Full("bypass") in pod.annotations && SaysTrueInAnyCase(pod.annotations[Full("bypass")]));
      (Skips(pod, cfg) <==> off) && (off ==> PodPatches(env, pod, cfg) == [] && MutatePod(env, pod, cfg) == pod)
  {
    NamesInFull();
    hide Name, Full;
  }

  /** The annotation decides the framework and makes a JVM of any container with ports; a generic one without ports
      is left alone. */
  lemma FrameworkMeans(env: Env, a: Annotations, c: Container)
    ensures
      var info, named := env.detect(c.rest, c.ports), TextOr(a, Full("framework"), "");
      var f := if named != "" then named else info.framework;
      FrameworkFor(env, a, c)
      == if (info.isJVM && f != "generic") || (c.ports != [] && (info.isJVM || named != "")) then Some(f) else None
  {
    NamesInFull();
    ReadsByName(env, a, Framework, 0, false, "");
    hide Name, Full, AnnotationText, TextOr;
  }

  // ----- the probes the generator works with -----

  lemma InjectionNames(k: Key)
    ensures k != InjectLiveness ==> Name(k) != Name(InjectLiveness)
    ensures k != InjectReadiness ==> Name(k) != Name(InjectReadiness)
    ensures k != InjectStartup ==> Name(k) != Name(InjectStartup)
  {
    assert Name(k)[|PREFIX|..] == Suffix(k);
    assert Name(InjectLiveness)[|PREFIX|..] == "inject-liveness";
    assert Name(InjectReadiness)[|PREFIX|..] == "inject-readiness";
    assert Name(InjectStartup)[|PREFIX|..] == "inject-startup";
    assert |"inject-liveness"| == 15 && |"inject-readiness"| == 16 && |"inject-startup"| == 14 && |"initial-delay"| == 13;
    assert "inject-liveness"[0] == 'i' && "inject-readiness"[0] == 'i' && "inject-startup"[0] == 'i';
    assert !k.InjectLiveness? && !k.InjectReadiness? && !k.InjectStartup? && !k.InitialDelay? ==> Suffix(k)[0] != 'i';
  }

  predicate Agree(a: Annotations, b: Annotations, key: string) {
    (key in a <==> key in b) && (key in a ==> a[key] == b[key])
  }

  /** An overwrite forces the matching injection flag, for all but the startup fallback, and changes nothing else. */
  lemma ForcedFlags(a: Annotations, s: Settings, k: Key)
    ensures
      var e := EffectiveAnnotations(a, s);
      && (k !in {InjectLiveness, InjectReadiness, InjectStartup} ==> Agree(a, e, Name(k)))
      && (if s.overwriteLiveness then Name(InjectLiveness) in e && e[Name(InjectLiveness)] == "true"
          else Agree(a, e, Name(InjectLiveness)))
      && (if s.overwriteReadiness then Name(InjectReadiness) in e && e[Name(InjectReadiness)] == "true"
          else Agree(a, e, Name(InjectReadiness)))
  {
    InjectionNames(k);
    InjectionNames(InjectLiveness);
    InjectionNames(InjectReadiness);
    hide Name;
  }

  predicate AgreeOnProbes(a: Annotations, e: Annotations) {
    && Agree(a, e, Full("port")) && Agree(a, e, Full("initial-delay")) && Agree(a, e, Full("period"))
    && Agree(a, e, Full("timeout")) && Agree(a, e, Full("failure-threshold")) && Agree(a, e, Full("success-threshold"))
    && Agree(a, e, Full("liveness-path")) && Agree(a, e, Full("readiness-path"))
  }

  lemma SameProbes(env: Env, a: Annotations, e: Annotations, fc: FrameworkConfig, info: ContainerInfo, tcp: bool,
                   wanted: bool, p: Option<Probe>)
    requires AgreeOnProbes(a, e)
    ensures LivenessIs(env, e, fc, info, tcp, wanted, p) ==> LivenessIs(env, a, fc, info, tcp, wanted, p)
    ensures ReadinessIs(env, e, fc, info, tcp, wanted, p) ==> ReadinessIs(env, a, fc, info, tcp, wanted, p)
  {
    hide Full, SameBits;
  }

  lemma EffectiveAgrees(a: Annotations, s: Settings)
    ensures AgreeOnProbes(a, EffectiveAnnotations(a, s))
  {
    NamesInFull();
    ForcedFlags(a, s, Key.Port);
    ForcedFlags(a, s, InitialDelay);
    ForcedFlags(a, s, Period);
    ForcedFlags(a, s, Timeout);
    ForcedFlags(a, s, FailureThreshold);
    ForcedFlags(a, s, SuccessThreshold);
    ForcedFlags(a, s, LivenessPath);
    ForcedFlags(a, s, ReadinessPath);
    hide Name, Full, EffectiveAnnotations, Agree;
  }

  /** The probes for a container: a liveness or readiness probe is wanted by its overwrite too, startup only by its own
      flag. */
  lemma WorkingProbes(env: Env, a: Annotations, cfg: JVMConfig, framework: string, c: Container, fc: FrameworkConfig)
    requires ConfigFor(cfg, framework, fc)
    ensures
      var b, info, tcp := BuiltFor(env, a, cfg, framework, c), env.detect(c.rest, c.ports), UsesTCP(framework, fc);
      var live := Overwritten(a, "overwrite-liveness") || Wants(a, Full("inject-liveness"), cfg.injectLivenessProbe);
      var ready := Overwritten(a, "overwrite-readiness") || Wants(a, Full("inject-readiness"), cfg.injectReadinessProbe);
      && LivenessIs(env, a, fc, info, tcp, live, b.liveness)
      && ReadinessIs(env, a, fc, info, tcp, ready, b.readiness)
      && StartupIs(env, a, fc, info, tcp, Wants(a, Full("inject-startup"), cfg.injectStartupProbe), b.startup)
  {
    var s, info, tcp := SettingsOf(env, a, cfg), env.detect(c.rest, c.ports), UsesTCP(framework, fc);
    var e := EffectiveAnnotations(a, s);
    BuiltProbes(env, framework, info, a, cfg, fc);
    BuiltProbes(env, framework, info, e, cfg, fc);
    SettingsMean(env, a, cfg);
    EffectiveAgrees(a, s);
    NamesInFull();
    ForcedFlags(a, s, Bypass);
    hide EffectiveAnnotations, SettingsOf, BuildProbesForFramework, ConfigFor, UsesTCP, LivenessIs, ReadinessIs, StartupIs,
         AgreeOnProbes, Name, Full, Overwritten, Numbered;
    var b := BuiltFor(env, a, cfg, framework, c);
    assert s.overwriteLiveness || Wants(a, Full("inject-liveness"), cfg.injectLivenessProbe)
           <==> Wants(e, Full("inject-liveness"), cfg.injectLivenessProbe);
    assert s.overwriteReadiness || Wants(a, Full("inject-readiness"), cfg.injectReadinessProbe)
           <==> Wants(e, Full("inject-readiness"), cfg.injectReadinessProbe);
    hide Wants;
    SameProbes(env, a, e, fc, info, tcp, Wants(e, Full("inject-liveness"), cfg.injectLivenessProbe), b.liveness);
    SameProbes(env, a, e, fc, info, tcp, Wants(e, Full("inject-readiness"), cfg.injectReadinessProbe), b.readiness);
  }

  // ----- the startup probe -----

  /** What checks p checks, with the timing of an injected startup probe. */
  predicate StartsAs(q: Option<Probe>, p: Probe, s: Settings) {
    && q.Some? && q.value.handler == p.handler && q.value.timeoutSeconds == p.timeoutSeconds
    && q.value.initialDelaySeconds == 0 && q.value.periodSeconds == s.startupPeriod
    && q.value.failureThreshold == s.startupFailure && q.value.successThreshold == 1
  }

  /** Which probe the startup probe copies: liveness before readiness before the framework's own, an existing one that
      is not overwritten before the built one. */
  lemma StartupCopies(c: Container, b: Built, s: Settings)
    ensures
      var m := MutateContainer(c, b, s).startup;
      var noLiveness := c.liveness.None? && b.liveness.None?;
      var nothing := noLiveness && c.readiness.None? && b.readiness.None?;
      if c.startup.Some? && !s.overwriteStartup then m == c.startup
      else
        && (c.liveness.Some? && !s.overwriteLiveness ==> StartsAs(m, c.liveness.value, s))
        && ((c.liveness.None? || s.overwriteLiveness) && b.liveness.Some? ==> StartsAs(m, b.liveness.value, s))
        && (c.liveness.Some? && b.liveness.None? ==> StartsAs(m, c.liveness.value, s))
        && (noLiveness && c.readiness.Some? && !s.overwriteReadiness ==> StartsAs(m, c.readiness.value, s))
        && (noLiveness && (c.readiness.None? || s.overwriteReadiness) && b.readiness.Some? ==> StartsAs(m, b.readiness.value, s))
        && (noLiveness && c.readiness.Some? && b.readiness.None? ==> StartsAs(m, c.readiness.value, s))
        && (nothing && s.injectStartup && b.startup.Some? ==> StartsAs(m, b.startup.value, s))
        && (nothing && !(s.injectStartup && b.startup.Some?) ==> m == c.startup)
  {
    hide AlignedThreshold;
  }

  /** A startup probe is put in place. */
  predicate Puts(c: Container, b: Built, s: Settings) {
    && (c.startup.None? || s.overwriteStartup)
    && (c.liveness.Some? || b.liveness.Some? || c.readiness.Some? || b.readiness.Some? || (s.injectStartup && b.startup.Some?))
  }

  /** The operations on the startup probe: one that puts exactly that probe there, or none when it stays. */
  lemma StartupOperation(c: Container, b: Built, s: Settings, op: SlotOp)
    ensures
      var m := MutateContainer(c, b, s).startup;
      && (if Puts(c, b, s) then m.Some? else m == c.startup)
      && (op in ContainerOps(c, b, s) && op.slot == "startupProbe" <==>
          Puts(c, b, s) && op == SlotOp("startupProbe", None, PutEdit(c.startup.Some?, EncodeProbe(m.value, false))))
  {
    assert LIVENESS[0] == 'l' && READINESS[0] == 'r' && STARTUP[0] == 's';
    var l, r := Working(c.liveness, b.liveness, s.overwriteLiveness), Working(c.readiness, b.readiness, s.overwriteReadiness);
    MainSlot(LIVENESS, c.liveness, b.liveness, s.overwriteLiveness, s.clearDelays, op);
    MainSlot(READINESS, c.readiness, b.readiness, s.overwriteReadiness, s.clearDelays, op);
    AlignSlot(LIVENESS, c.liveness, l, s, op);
    AlignSlot(READINESS, c.readiness, r, s, op);
    PutsMeans(c, b, s);
    hide MainOps, AlignStep, Aligned, MainProbe, EncodeProbe, StartupSource, Working, Tuned, InjectsStartup, Puts;
  }

  function PutEdit(present: bool, v: Json): Edit { if present then Replace(v) else Add(v) }

  lemma PutsMeans(c: Container, b: Built, s: Settings)
    ensures Puts(c, b, s) <==> InjectsStartup(c, b, s)
  {}

  lemma MainSlot(slot: string, had: Option<Probe>, built: Option<Probe>, overwrite: bool, clear: bool, op: SlotOp)
    ensures op in MainOps(slot, had, built, overwrite, clear) ==> op.slot == slot
  {}

  lemma AlignSlot(slot: string, had: Option<Probe>, working: Option<Probe>, s: Settings, op: SlotOp)
    ensures op in AlignStep(slot, had, working, s) ==> op.slot == slot
  {
    hide AlignedThreshold;
  }

  /** The member has the number, or is left out when it is zero. */
  predicate Omitted(m: map<string, Json>, name: string, n: int) {
    if n == 0 then name !in m else name in m && m[name] == Num(n)
  }

  /** A probe in an operation: its handler's members and the five numbers under their names, zeros left out. */
  lemma ProbeOnTheWire(p: Probe)
    ensures
      var m := EncodeProbe(p, false).members;
      && Omitted(m, "initialDelaySeconds", p.initialDelaySeconds) && Omitted(m, "periodSeconds", p.periodSeconds)
      && Omitted(m, "timeoutSeconds", p.timeoutSeconds) && Omitted(m, "failureThreshold", p.failureThreshold)
      && Omitted(m, "successThreshold", p.successThreshold)
      && (forall k :: k in p.handler ==> k in m && m[k] == p.handler[k])
      && m.Keys <= p.handler.Keys + {"initialDelaySeconds", "periodSeconds", "timeoutSeconds", "failureThreshold", "successThreshold"}
  {
    ProbeNamesDiffer();
  }

  // ----- an admitted Pod -----

  /** The same check at the same pace; alignment and clear-delays may still change delay and failure threshold. */
  predicate SameCheck(q: Option<Probe>, p: Option<Probe>) {
    && (q.Some? <==> p.Some?)
    && (q.Some? ==> q.value.handler == p.value.handler && q.value.timeoutSeconds == p.value.timeoutSeconds
                    && q.value.periodSeconds == p.value.periodSeconds && q.value.successThreshold == p.value.successThreshold)
  }

  /** A liveness or readiness probe q of an admitted container that had p. */
  ghost predicate Serves(env: Env, a: Annotations, fc: FrameworkConfig, info: ContainerInfo, tcp: bool, overwrite: bool,
                         wanted: bool, path: string, p: Option<Probe>, q: Option<Probe>)
  {
    if (p.None? || overwrite) && (overwrite || wanted) && (tcp || path != "") then
      q.Some? && Checks(env, a, info, q.value, tcp, path) && Timed(env, a, fc, q.value, tcp)
    else SameCheck(q, p)
  }

  /** The timing of an injected startup probe. */
  ghost predicate Starts(env: Env, a: Annotations, q: Option<Probe>) {
    && q.Some? && q.value.initialDelaySeconds == 0 && q.value.successThreshold == 1
    && Numbered(env, a, Full("startup-period"), 15, q.value.periodSeconds)
    && Numbered(env, a, Full("startup-failure-threshold"), 40, q.value.failureThreshold)
  }

  /** q checks what p checks. */
  predicate CopiesCheck(q: Option<Probe>, p: Probe) {
    q.Some? && q.value.handler == p.handler && q.value.timeoutSeconds == p.timeoutSeconds
  }

  ghost predicate StartupServes(env: Env, a: Annotations, cfg: JVMConfig, fc: FrameworkConfig, info: ContainerInfo, tcp: bool,
                                c: Container, d: Container)
  {
    var path := TextOr(a, Full("startup-path"), fc.startupPath);
    var own := Asks(a, Full("inject-startup"), cfg.injectStartupProbe)
               && Wants(a, Full("inject-startup"), cfg.injectStartupProbe) && (tcp || path != "");
    if (c.startup.Some? && !Overwritten(a, "overwrite-startup")) || (d.liveness.None? && d.readiness.None? && !own) then
      d.startup == c.startup
    else
      && Starts(env, a, d.startup)
      && if d.liveness.Some? then CopiesCheck(d.startup, d.liveness.value)
         else if d.readiness.Some? then CopiesCheck(d.startup, d.readiness.value)
         else Checks(env, a, info, d.startup.value, tcp, path)
              && Numbered(env, a, Full("timeout"), fc.timeoutSeconds, d.startup.value.timeoutSeconds)
  }

  /** A container the webhook looks after, before and after an admission: its liveness and readiness probes are the ones
      it had or check what the annotations and the framework say, and its startup probe, unless it keeps the one it
      had, checks what its liveness probe does, else what its readiness probe does, else the framework's own. */
  lemma AdmittedProbes(env: Env, pod: Pod, cfg: JVMConfig, i: nat, framework: string, fc: FrameworkConfig)
    requires i < |pod.containers| && !Skips(pod, cfg)
    requires FrameworkFor(env, pod.annotations, pod.containers[i]) == Some(framework) && ConfigFor(cfg, framework, fc)
    ensures |MutatePod(env, pod, cfg).containers| == |pod.containers|
    ensures
      var a, c, d := pod.annotations, pod.containers[i], MutatePod(env, pod, cfg).containers[i];
      var info, tcp := env.detect(c.rest, c.ports), UsesTCP(framework, fc);
      && Serves(env, a, fc, info, tcp, Overwritten(a, "overwrite-liveness"),
                Wants(a, Full("inject-liveness"), cfg.injectLivenessProbe), TextOr(a, Full("liveness-path"), fc.livenessPath),
                c.liveness, d.liveness)
      && Serves(env, a, fc, info, tcp, Overwritten(a, "overwrite-readiness"),
                Wants(a, Full("inject-readiness"), cfg.injectReadinessProbe), TextOr(a, Full("readiness-path"), fc.readinessPath),
                c.readiness, d.readiness)
      && StartupServes(env, a, cfg, fc, info, tcp, c, d)
      && d.ports == c.ports && d.rest == c.rest
  {
    var a, c := pod.annotations, pod.containers[i];
    var b, s := BuiltFor(env, a, cfg, framework, c), SettingsOf(env, a, cfg);
    var info, tcp := env.detect(c.rest, c.ports), UsesTCP(framework, fc);
    assert MutatePod(env, pod, cfg).containers[i] == MutateContainer(c, b, s);
    hide MutatePod, Skips, FrameworkFor, BuiltFor, SettingsOf, MutateContainer, Numbered, Wants, Asks, TextOr, Full, Says, ConfigFor, UsesTCP;
    WorkingProbes(env, a, cfg, framework, c, fc);
    SettingsMean(env, a, cfg);
    MainServes(c, b, s);
    hide Overwritten, StartupServes, StartupIs;
    LivenessServes(env, a, fc, info, tcp, s.overwriteLiveness, Wants(a, Full("inject-liveness"), cfg.injectLivenessProbe),
                   c.liveness, b.liveness, MutateContainer(c, b, s).liveness);
    ReadinessServes(env, a, fc, info, tcp, s.overwriteReadiness, Wants(a, Full("inject-readiness"), cfg.injectReadinessProbe),
                    c.readiness, b.readiness, MutateContainer(c, b, s).readiness);
    hide Serves, LivenessIs, ReadinessIs, SameCheck;
    StartupFollows(env, a, cfg, fc, info, tcp, c, b, s);
  }

  lemma LivenessServes(env: Env, a: Annotations, fc: FrameworkConfig, info: ContainerInfo, tcp: bool, overwrite: bool,
                       wanted: bool, p: Option<Probe>, built: Option<Probe>, q: Option<Probe>)
    requires LivenessIs(env, a, fc, info, tcp, overwrite || wanted, built)
    requires SameCheck(q, if (p.None? || overwrite) && built.Some? then built else p)
    ensures Serves(env, a, fc, info, tcp, overwrite, wanted, TextOr(a, Full("liveness-path"), fc.livenessPath), p, q)
  {
    hide PortIs, Numbered, TextOr, Full;
  }

  lemma ReadinessServes(env: Env, a: Annotations, fc: FrameworkConfig, info: ContainerInfo, tcp: bool, overwrite: bool,
                        wanted: bool, p: Option<Probe>, built: Option<Probe>, q: Option<Probe>)
    requires ReadinessIs(env, a, fc, info, tcp, overwrite || wanted, built)
    requires SameCheck(q, if (p.None? || overwrite) && built.Some? then built else p)
    ensures Serves(env, a, fc, info, tcp, overwrite, wanted, TextOr(a, Full("readiness-path"), fc.readinessPath), p, q)
  {
    hide PortIs, Numbered, TextOr, Full;
  }

  lemma StartupFollows(env: Env, a: Annotations, cfg: JVMConfig, fc: FrameworkConfig, info: ContainerInfo, tcp: bool,
                       c: Container, b: Built, s: Settings)
    requires StartupIs(env, a, fc, info, tcp, Wants(a, Full("inject-startup"), cfg.injectStartupProbe), b.startup)
    requires s.overwriteStartup <==> Overwritten(a, "overwrite-startup")
    requires s.injectStartup <==> Asks(a, Full("inject-startup"), cfg.injectStartupProbe)
    requires Numbered(env, a, Full("startup-period"), 15, s.startupPeriod)
    requires Numbered(env, a, Full("startup-failure-threshold"), 40, s.startupFailure)
    ensures StartupServes(env, a, cfg, fc, info, tcp, c, MutateContainer(c, b, s))
  {
    MainServes(c, b, s);
    StartupCopies(c, b, s);
    hide MutateContainer, Overwritten, Asks, Wants, TextOr, Numbered, Full, PortIs;
  }

  lemma MainServes(c: Container, b: Built, s: Settings)
    ensures
      var d := MutateContainer(c, b, s);
      && SameCheck(d.liveness, if (c.liveness.None? || s.overwriteLiveness) && b.liveness.Some? then b.liveness else c.liveness)
      && SameCheck(d.readiness, if (c.readiness.None? || s.overwriteReadiness) && b.readiness.Some? then b.readiness else c.readiness)
      && d.ports == c.ports && d.rest == c.rest
  {
    hide AlignedThreshold, InjectsStartup, StartupSource, Tuned;
  }
}
