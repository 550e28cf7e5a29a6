/** Main results about the JVM webhook: the patch refines the mutation, and repeated admission settles. */
module PodTheorems {
  import opened Basics
  import opened Json
  import opened JsonPatch
  import opened ProbeModel
  import opened ProbeBuilder
  import opened PodMutation
  import opened PatchRefinement
  import opened PodRefinement
  import opened Alignment

  // ----- when operations are emitted -----

  lemma TouchesIffOps(c: Container, b: Built, s: Settings)
    ensures Touches(c, b, s) <==> ContainerOps(c, b, s) != []
  {}

  lemma SilentContainer(env: Env, a: Annotations, cfg: JVMConfig, c: Container, i: nat)
    ensures EmitAll(i, OpsFor(env, a, cfg, c)) == [] <==> !Touched(env, a, cfg, c)
  {
    var f := FrameworkFor(env, a, c);
    if f.Some? {
      TouchesIffOps(c, BuiltFor(env, a, cfg, f.value, c), SettingsOf(env, a, cfg));
    }
  }

  lemma {:induction false} SilentIffUntouched(env: Env, pod: Pod, cfg: JVMConfig, n: nat)
    requires n <= |pod.containers|
    ensures ContainerPatches(env, pod, cfg, n) == [] <==>
            forall i :: 0 <= i < n ==> !Touched(env, pod.annotations, cfg, pod.containers[i])
  {
    hide Touched, OpsFor, EmitAll;
    if n > 0 {
      SilentIffUntouched(env, pod, cfg, n - 1);
      SilentContainer(env, pod.annotations, cfg, pod.containers[n - 1], n - 1);
      var last := EmitAll(n - 1, OpsFor(env, pod.annotations, cfg, pod.containers[n - 1]));
      assert |ContainerPatches(env, pod, cfg, n)| == |ContainerPatches(env, pod, cfg, n - 1)| + |last|;
    }
  }

  /** The whole patch is empty exactly when admission is skipped or no container needs anything. */
  lemma SilentPod(env: Env, pod: Pod, cfg: JVMConfig)
    ensures PodPatches(env, pod, cfg) == [] <==> Skips(pod, cfg) || !AnyTouched(env, pod, cfg)
  {
    SilentIffUntouched(env, pod, cfg, |pod.containers|);
  }

  // ----- refinement -----

  lemma UntouchedContainer(c: Container, b: Built, s: Settings)
    requires !Touches(c, b, s)
    ensures MutateContainer(c, b, s) == c
    ensures ZerosAfter(c, b, s) == FRESH && !Misaligned(c, b, s)
  {}

  /** Where explicit zeros end up in the patched JSON of the Pod. */
  function ZerosOf(env: Env, pod: Pod, cfg: JVMConfig): seq<Zeros> {
    if Skips(pod, cfg) then AllFresh(|pod.containers|) else PrefixZeros(env, pod, cfg, |pod.containers|)
  }

  /** Alignment has to replace a failureThreshold that the Pod's JSON does not contain. */
  predicate Rejected(env: Env, pod: Pod, cfg: JVMConfig) {
    !Skips(pod, cfg) && AnyStuck(env, pod, cfg, |pod.containers|)
  }

  lemma WholePrefix(env: Env, pod: Pod, cfg: JVMConfig)
    requires !Skips(pod, cfg)
    ensures var p := PrefixMutated(env, pod, cfg, |pod.containers|);
            MutatePod(env, pod, cfg) ==
            if AnyTouched(env, pod, cfg) then p.(annotations := pod.annotations[MANAGED := "true"]) else p
  {
    assert MutatePod(env, pod, cfg).containers == PrefixMutated(env, pod, cfg, |pod.containers|).containers;
  }

  /** Main theorem. For every Pod, configuration and detector, the emitted list applies under the strict rules
      of RFC 6902 unless the Pod is rejected, and the patched document is the serialisation of the directly
      mutated Pod, which is also what a reader of that document sees. */
  lemma PatchRefinesMutation(env: Env, pod: Pod, cfg: JVMConfig)
    ensures
      Apply(EncodePod(pod, AllFresh(|pod.containers|)), PodPatches(env, pod, cfg)) ==
      if Rejected(env, pod, cfg) then None
      else Some(EncodePod(MutatePod(env, pod, cfg), ZerosOf(env, pod, cfg)))
    ensures DecodePod(EncodePod(MutatePod(env, pod, cfg), ZerosOf(env, pod, cfg))) == MutatePod(env, pod, cfg)
  {
    DecodeEncodePod(MutatePod(env, pod, cfg), ZerosOf(env, pod, cfg));
    if !Skips(pod, cfg) {
      var n := |pod.containers|;
      var doc, ops := EncodePod(pod, AllFresh(n)), ContainerPatches(env, pod, cfg, n);
      PrefixEffect(env, pod, cfg, n);
      SilentIffUntouched(env, pod, cfg, n);
      WholePrefix(env, pod, cfg);
      if ops != [] {
        ApplyConcat(doc, ops, MarkOps(pod.annotations));
        MarkEffect(PrefixMutated(env, pod, cfg, n), PrefixZeros(env, pod, cfg, n));
      }
    }
  }

  predicate Positive(p: Option<Probe>) { p.Some? ==> p.value.failureThreshold > 0 }

  /** Every probe that may be aligned has a positive failureThreshold. */
  predicate PositiveThresholds(env: Env, pod: Pod, cfg: JVMConfig) {
    forall i :: 0 <= i < |pod.containers| ==>
      var c := pod.containers[i];
      var f := FrameworkFor(env, pod.annotations, c);
      && Positive(c.liveness) && Positive(c.readiness)
      && (f.Some? ==> var b := BuiltFor(env, pod.annotations, cfg, f.value, c);
                      Positive(b.liveness) && Positive(b.readiness))
  }

  lemma PositiveContainer(c: Container, b: Built, s: Settings)
    requires Positive(c.liveness) && Positive(c.readiness) && Positive(b.liveness) && Positive(b.readiness)
    requires s.maxFailure > 0
    ensures !Misaligned(c, b, s) && ZerosAfter(c, b, s) == FRESH
  {}

  /** With positive thresholds and cap, the patch always applies and leaves exactly the JSON of the mutated Pod. */
  lemma PatchIsCanonical(env: Env, pod: Pod, cfg: JVMConfig)
    requires PositiveThresholds(env, pod, cfg) && cfg.maxFailureThreshold > 0
    ensures Apply(EncodePod(pod, AllFresh(|pod.containers|)), PodPatches(env, pod, cfg))
         == Some(EncodePod(MutatePod(env, pod, cfg), AllFresh(|pod.containers|)))
  {
    PatchRefinesMutation(env, pod, cfg);
    PositivePod(env, pod, cfg);
    hide Apply, EncodePod, PodPatches, MutatePod, ZerosOf, AllFresh, Stuck, PositiveThresholds;
  }

  lemma PositivePod(env: Env, pod: Pod, cfg: JVMConfig)
    requires PositiveThresholds(env, pod, cfg) && cfg.maxFailureThreshold > 0
    ensures forall i :: 0 <= i < |pod.containers| ==> !Stuck(env, pod.annotations, cfg, pod.containers[i])
    ensures ZerosOf(env, pod, cfg) == AllFresh(|pod.containers|)
  {
    hide Misaligned, ZerosAfter, BuiltFor, FrameworkFor, SettingsOf;
    forall i | 0 <= i < |pod.containers|
      ensures !Stuck(env, pod.annotations, cfg, pod.containers[i]) && ZerosFor(env, pod.annotations, cfg, pod.containers[i]) == FRESH
    {
      PositiveAt(env, pod, cfg, i);
    }
  }

  lemma PositiveAt(env: Env, pod: Pod, cfg: JVMConfig, i: nat)
    requires PositiveThresholds(env, pod, cfg) && cfg.maxFailureThreshold > 0 && i < |pod.containers|
    ensures !Stuck(env, pod.annotations, cfg, pod.containers[i]) && ZerosFor(env, pod.annotations, cfg, pod.containers[i]) == FRESH
  {
    var a, c := pod.annotations, pod.containers[i];
    var f := FrameworkFor(env, a, c);
    if f.Some? {
      PositiveContainer(c, BuiltFor(env, a, cfg, f.value, c), SettingsOf(env, a, cfg));
    }
    hide Misaligned, ZerosAfter, BuiltFor, FrameworkFor;
  }

  // ----- the rejected case is real -----

  const GENERIC_INFO := ContainerInfo(true, GENERIC, 8080, "")

  const GENERIC_PROBES := FrameworkConfig("", "", "", 8080, 30, 10, 5, 3, 1, true)

  /** The default configuration, with the generic entry of its frameworks. */
  const DEFAULT_CONFIG := JVMConfig(
    map[GENERIC := GENERIC_PROBES], false, true, true, false, 60, 10, true)

  /** A detector that takes every container for a bare JVM, and a reading of two digit strings. */
  const PLAIN_ENV := Env((r: ContainerRest, ports: seq<Json>) => GENERIC_INFO,
                         (s: string) => if s == "0" then Some(0) else None)

  /** One container without probes; alignment is asked for, and a failure threshold of zero. */
  const ZERO_POD := Pod(
    map[Name(Align) := "true", Name(FailureThreshold) := "0"],
    [Container(None, None, None, [Obj(map["containerPort" := Num(8080)])], map["name" := Str("app")])],
    map["name" := Str("pod")], map[], map["kind" := Str("Pod")])

  lemma OtherNames(k: Key)
    ensures k != Align ==> Name(k) != Name(Align)
    ensures k != FailureThreshold ==> Name(k) != Name(FailureThreshold)
  {
    assert Name(k)[|PREFIX|..] == Suffix(k);
    assert Name(Align)[|PREFIX|..] == "align" && Name(FailureThreshold)[|PREFIX|..] == "failure-threshold";
    assert "align"[0] == 'a' && "failure-threshold"[0] == 'f' && "failure-threshold"[1] == 'a';
    assert k != Align ==> Suffix(k)[0] != 'a';
    assert k != FailureThreshold ==> Suffix(k)[0] != 'f' || Suffix(k)[1] != 'a';
  }

  lemma ZeroPodReads(k: Key)
    ensures Lookup(ZERO_POD.annotations, k)
         == if k == Align then Some("true") else if k == FailureThreshold then Some("0") else None
  {
    OtherNames(k);
    OtherNames(Align);
    hide Name;
  }

  predicate ZeroReads(a: Annotations, k: Key) {
    Lookup(a, k) == if k == Align then Some("true") else if k == FailureThreshold then Some("0") else None
  }

  /** What the annotations come to, key by key. */
  lemma ZeroValues(a: Annotations, k: Key, fallback: int32, flag: bool)
    requires ZeroReads(a, k)
    ensures AnnotationInt(PLAIN_ENV, a, k, fallback) == if k == FailureThreshold then 0 else fallback
    ensures Flag(a, k) <==> k == Align
    ensures FlagOr(a, k, flag) == if k == FailureThreshold then false else k == Align || flag
    ensures k != Align ==> AnnotationBool(a, k, flag) == if k == FailureThreshold then false else flag
    ensures k != Align && k != FailureThreshold ==> AnnotationText(a, k, "") == ""
  {
    assert |"0"| == |"1"| == 1 && "0"[0] != "1"[0] && |"true"| == 4 && |"yes"| == 3;
    assert !Truthy("0") && Truthy("true");
    assert PLAIN_ENV.atoi("0") == Some(0) && PLAIN_ENV.atoi("true") == None;
    hide Name, Truthy;
  }

  lemma ZeroSettings(a: Annotations)
    requires forall k: Key :: ZeroReads(a, k)
    ensures SettingsOf(PLAIN_ENV, a, DEFAULT_CONFIG)
         == Settings(false, false, false, false, 15, 40, true, true, 60, 10)
  {
    ZeroValues(a, OverwriteAll, 0, false);
    ZeroValues(a, OverwriteLiveness, 0, false);
    ZeroValues(a, OverwriteReadiness, 0, false);
    ZeroValues(a, OverwriteStartup, 0, false);
    ZeroValues(a, ClearDelays, 0, false);
    ZeroValues(a, StartupPeriod, 15, false);
    ZeroValues(a, StartupFailureThreshold, 40, false);
    ZeroValues(a, InjectStartup, 0, true);
    ZeroValues(a, Align, 0, false);
    hide ZeroReads, AnnotationInt, Flag, FlagOr, Lookup;
  }

  lemma ZeroPodDecisions()
    ensures SettingsOf(PLAIN_ENV, ZERO_POD.annotations, DEFAULT_CONFIG)
         == Settings(false, false, false, false, 15, 40, true, true, 60, 10)
    ensures FrameworkFor(PLAIN_ENV, ZERO_POD.annotations, ZERO_POD.containers[0]) == Some(GENERIC)
    ensures !Skips(ZERO_POD, DEFAULT_CONFIG)
  {
    var a := ZERO_POD.annotations;
    forall k ensures ZeroReads(a, k) { ZeroPodReads(k); }
    ZeroSettings(a);
    ZeroValues(a, Framework, 0, false);
    assert ZeroReads(a, Bypass);
    hide SettingsOf, Name, AnnotationText, Flag;
  }

  lemma ZeroNumbers(a: Annotations)
    requires forall k: Key :: ZeroReads(a, k)
    ensures Lookup(a, Key.Port) == None && AnnotationInt(PLAIN_ENV, a, Key.Port, 8080) == 8080
    ensures AnnotationInt(PLAIN_ENV, a, InitialDelay, 30) == 30 && AnnotationInt(PLAIN_ENV, a, Period, 10) == 10
    ensures AnnotationInt(PLAIN_ENV, a, Timeout, 5) == 5 && AnnotationInt(PLAIN_ENV, a, FailureThreshold, 3) == 0
    ensures !AnnotationBool(a, InjectLiveness, false) && AnnotationBool(a, InjectReadiness, true)
  {
    assert Lookup(a, Key.Port) == None by { assert ZeroReads(a, Key.Port); }
    hide AnnotationInt, AnnotationBool, AnnotationText, Flag, FlagOr, ZeroReads, Lookup;
    ZeroValues(a, Key.Port, 8080, false);
    ZeroValues(a, InitialDelay, 30, false);
    ZeroValues(a, Period, 10, false);
    ZeroValues(a, Timeout, 5, false);
    ZeroValues(a, FailureThreshold, 3, false);
    ZeroValues(a, InjectLiveness, 0, false);
    ZeroValues(a, InjectReadiness, 0, true);
  }

  lemma ZeroInputs(a: Annotations)
    requires forall k: Key :: ZeroReads(a, k)
    ensures
      var i := ReadInputs(PLAIN_ENV, GENERIC_INFO, a, DEFAULT_CONFIG, GENERIC_PROBES);
      && i.failure == 0 && i.port == 8080 && i.portName == "" && i.delay == 30 && i.period == 10 && i.timeout == 5
      && !i.liveness && i.readiness
  {
    ZeroNumbers(a);
    hide AnnotationInt, AnnotationBool, AnnotationText, Lookup, ZeroReads;
  }

  lemma ZeroPodProbes()
    ensures
      var b := BuiltFor(PLAIN_ENV, ZERO_POD.annotations, DEFAULT_CONFIG, GENERIC, ZERO_POD.containers[0]);
      b.liveness == None && b.readiness == Some(TCPProbe(8080, "", 30, 10, 5, 0))
  {
    var a := ZERO_POD.annotations;
    forall k ensures ZeroReads(a, k) { ZeroPodReads(k); }
    ZeroSettings(a);
    ZeroInputs(a);
    hide SettingsOf, ReadInputs, TCPProbe, ZeroReads;
    assert EffectiveAnnotations(a, SettingsOf(PLAIN_ENV, a, DEFAULT_CONFIG)) == a;
    assert FrameworkOf(DEFAULT_CONFIG, GENERIC) == GENERIC_PROBES;
    hide EffectiveAnnotations, FrameworkOf;
  }

  lemma ZeroProbeIsStuck(c: Container, b: Built, s: Settings)
    requires s == Settings(false, false, false, false, 15, 40, true, true, 60, 10)
    requires c.liveness == None && c.readiness == None && c.startup == None
    requires b.liveness == None && b.readiness == Some(TCPProbe(8080, "", 30, 10, 5, 0))
    ensures Misaligned(c, b, s)
  {}

  /** A concrete Pod that the generator answers with a patch that cannot be applied: the built readiness probe has no
      failureThreshold, and alignment replaces it. */
  lemma RejectionHappens()
    ensures Apply(EncodePod(ZERO_POD, AllFresh(1)), PodPatches(PLAIN_ENV, ZERO_POD, DEFAULT_CONFIG)) == None
  {
    var a, c := ZERO_POD.annotations, ZERO_POD.containers[0];
    ZeroPodDecisions();
    ZeroPodProbes();
    hide SettingsOf, FrameworkFor, BuiltFor, Misaligned, Skips, PodPatches, EncodePod, Apply, MutatePod, TCPProbe, Name;
    ZeroProbeIsStuck(c, BuiltFor(PLAIN_ENV, a, DEFAULT_CONFIG, GENERIC, c), SettingsOf(PLAIN_ENV, a, DEFAULT_CONFIG));
    assert Stuck(PLAIN_ENV, a, DEFAULT_CONFIG, c);
    assert Rejected(PLAIN_ENV, ZERO_POD, DEFAULT_CONFIG);
    hide Rejected, Stuck;
    PatchRefinesMutation(PLAIN_ENV, ZERO_POD, DEFAULT_CONFIG);
  }

  // ----- repeated admission -----

  predicate SameLookups(a: Annotations, b: Annotations) { forall k :: Lookup(a, k) == Lookup(b, k) }

  lemma SameEffective(a: Annotations, b: Annotations, on: bool, k: Key)
    requires SameLookups(a, b)
    ensures SameLookups(WithFlag(a, on, k), WithFlag(b, on, k))
  {
    if on {
      forall j ensures Lookup(WithFlag(a, on, k), j) == Lookup(WithFlag(b, on, k), j) {
        assert Lookup(a, j) == Lookup(b, j);
      }
    }
  }

  lemma SameReads(env: Env, a: Annotations, b: Annotations, info: ContainerInfo, cfg: JVMConfig, fc: FrameworkConfig)
    requires SameLookups(a, b)
    ensures ReadInputs(env, info, a, cfg, fc) == ReadInputs(env, info, b, cfg, fc)
  {}

  lemma SameBuild(env: Env, framework: string, info: ContainerInfo, a: Annotations, b: Annotations, cfg: JVMConfig)
    requires SameLookups(a, b)
    ensures BuildProbesForFramework(env, framework, info, a, cfg) == BuildProbesForFramework(env, framework, info, b, cfg)
  {
    SameReads(env, a, b, info, cfg, FrameworkOf(cfg, framework));
  }

  lemma SameSettings(env: Env, a: Annotations, b: Annotations, cfg: JVMConfig)
    requires SameLookups(a, b)
    ensures SettingsOf(env, a, cfg) == SettingsOf(env, b, cfg)
  {
    hide Lookup;
  }

  lemma SameDecisions(env: Env, a: Annotations, b: Annotations, cfg: JVMConfig, c: Container)
    requires SameLookups(a, b)
    ensures SettingsOf(env, a, cfg) == SettingsOf(env, b, cfg)
    ensures FrameworkFor(env, a, c) == FrameworkFor(env, b, c)
    ensures forall f :: BuiltFor(env, a, cfg, f, c) == BuiltFor(env, b, cfg, f, c)
  {
    SameSettings(env, a, b, cfg);
    hide BuildProbesForFramework, SettingsOf, Lookup, FlagOr;
    var s := SettingsOf(env, a, cfg);
    SameEffective(a, b, s.overwriteLiveness, InjectLiveness);
    var a1, b1 := WithFlag(a, s.overwriteLiveness, InjectLiveness), WithFlag(b, s.overwriteLiveness, InjectLiveness);
    SameEffective(a1, b1, s.overwriteReadiness, InjectReadiness);
    var a2, b2 := WithFlag(a1, s.overwriteReadiness, InjectReadiness), WithFlag(b1, s.overwriteReadiness, InjectReadiness);
    SameEffective(a2, b2, s.overwriteStartup, InjectStartup);
    var info := env.detect(c.rest, c.ports);
    forall f ensures BuiltFor(env, a, cfg, f, c) == BuiltFor(env, b, cfg, f, c) {
      SameBuild(env, f, info, EffectiveAnnotations(a, s), EffectiveAnnotations(b, s), cfg);
      SameBuild(env, f, info, a, b, cfg);
    }
  }

  /** One admission of a liveness or readiness probe. */
  function SlotStep(p: Option<Probe>, built: Option<Probe>, overwrite: bool, s: Settings, align: bool): Option<Probe> {
    var main := MainProbe(p, built, overwrite, s.clearDelays);
    if align then Aligned(main, s.clearDelays && p.Some?, s) else main
  }

  lemma StepSettles(p: Option<Probe>, built: Option<Probe>, overwrite: bool, s: Settings, align: bool)
    requires p.Some? || built.None?
    ensures var q := SlotStep(p, built, overwrite, s, align); SlotStep(q, built, overwrite, s, align) == q
  {
    var main := MainProbe(p, built, overwrite, s.clearDelays);
    if main.Some? {
      AlignmentIsIdempotent(main.value, s.minWindow, s.maxFailure);
    }
  }

  predicate SameTarget(p: Option<Probe>, q: Option<Probe>) {
    (p.Some? <==> q.Some?)
    && (p.Some? ==> p.value.handler == q.value.handler && p.value.timeoutSeconds == q.value.timeoutSeconds)
  }

  lemma StepKeepsTarget(p: Option<Probe>, built: Option<Probe>, overwrite: bool, s: Settings, align: bool)
    ensures SameTarget(Working(p, built, overwrite), Working(SlotStep(p, built, overwrite, s, align), built, overwrite))
    ensures SlotStep(p, built, overwrite, s, align).Some? || built.None?
  {}

  lemma MutationIsSteps(c: Container, b: Built, s: Settings)
    ensures
      var align := InjectsStartup(c, b, s) && s.align;
      MutateContainer(c, b, s) ==
      Container(SlotStep(c.liveness, b.liveness, s.overwriteLiveness, s, align),
                SlotStep(c.readiness, b.readiness, s.overwriteReadiness, s, align),
                if InjectsStartup(c, b, s) then Some(Tuned(StartupSource(c, b, s).value, s)) else c.startup,
                c.ports, c.rest)
  {}

  /** After one admission the startup source only changes in members that tuning overwrites. */
  lemma SourceIsStable(c: Container, b: Built, s: Settings)
    ensures
      var d := MutateContainer(c, b, s);
      && SameTarget(StartupSource(c, b, s), StartupSource(d, b, s))
      && (InjectsStartup(d, b, s) <==> s.overwriteStartup && StartupSource(c, b, s).Some?)
  {
    MutationIsSteps(c, b, s);
    var align := InjectsStartup(c, b, s) && s.align;
    StepKeepsTarget(c.liveness, b.liveness, s.overwriteLiveness, s, align);
    StepKeepsTarget(c.readiness, b.readiness, s.overwriteReadiness, s, align);
  }

  /** From the third admission on a container no longer changes, whatever the flags say. */
  lemma ContainerSettles(c: Container, b: Built, s: Settings)
    ensures
      var c2 := MutateContainer(MutateContainer(c, b, s), b, s);
      MutateContainer(c2, b, s) == c2
  {
    var c1 := MutateContainer(c, b, s);
    var c2 := MutateContainer(c1, b, s);
    MutationIsSteps(c, b, s);
    MutationIsSteps(c1, b, s);
    MutationIsSteps(c2, b, s);
    SourceIsStable(c, b, s);
    SourceIsStable(c1, b, s);
    var align := InjectsStartup(c1, b, s) && s.align;
    StepKeepsTarget(c.liveness, b.liveness, s.overwriteLiveness, s, InjectsStartup(c, b, s) && s.align);
    StepKeepsTarget(c.readiness, b.readiness, s.overwriteReadiness, s, InjectsStartup(c, b, s) && s.align);
    StepSettles(c1.liveness, b.liveness, s.overwriteLiveness, s, align);
    StepSettles(c1.readiness, b.readiness, s.overwriteReadiness, s, align);
  }

  predicate Overwriting(s: Settings) { s.overwriteLiveness || s.overwriteReadiness || s.overwriteStartup }

  lemma ContainerFallsSilent(c: Container, b: Built, s: Settings)
    requires !Overwriting(s)
    ensures !s.clearDelays ==> !Touches(MutateContainer(c, b, s), b, s)
    ensures !Touches(MutateContainer(MutateContainer(c, b, s), b, s), b, s)
  {
    SourceIsStable(c, b, s);
    SourceIsStable(MutateContainer(c, b, s), b, s);
  }

  /** The decisions about container i are the same for the mutated Pod. */
  lemma SameAfterMutation(env: Env, pod: Pod, cfg: JVMConfig, i: nat)
    requires !Skips(pod, cfg) && i < |pod.containers|
    ensures
      var q := MutatePod(env, pod, cfg);
      var d := q.containers[i];
      && SettingsOf(env, q.annotations, cfg) == SettingsOf(env, pod.annotations, cfg)
      && FrameworkFor(env, q.annotations, d) == FrameworkFor(env, pod.annotations, pod.containers[i])
      && forall f :: BuiltFor(env, q.annotations, cfg, f, d) == BuiltFor(env, pod.annotations, cfg, f, pod.containers[i])
  {
    var q, c := MutatePod(env, pod, cfg), pod.containers[i];
    var d := q.containers[i];
    ManagedChangesNoLookup(pod.annotations, "true");
    SameDecisions(env, q.annotations, pod.annotations, cfg, d);
    SameIdentity(env, pod.annotations, cfg, c);
  }

  /** Mutation keeps what detection looks at. */
  lemma SameIdentity(env: Env, a: Annotations, cfg: JVMConfig, c: Container)
    ensures
      var d := Mutated(env, a, cfg, c);
      && FrameworkFor(env, a, d) == FrameworkFor(env, a, c)
      && forall f :: BuiltFor(env, a, cfg, f, d) == BuiltFor(env, a, cfg, f, c)
  {
    hide MutateContainer, BuildProbesForFramework;
    MutationKeepsRest(env, a, cfg, c);
    hide Mutated;
  }

  lemma MutationKeepsRest(env: Env, a: Annotations, cfg: JVMConfig, c: Container)
    ensures var d := Mutated(env, a, cfg, c); d.rest == c.rest && d.ports == c.ports
  {
    hide FrameworkFor, BuiltFor, SettingsOf;
  }

  lemma SkipsAfterMutation(env: Env, pod: Pod, cfg: JVMConfig)
    ensures Skips(MutatePod(env, pod, cfg), cfg) <==> Skips(pod, cfg)
  {
    ManagedChangesNoLookup(pod.annotations, "true");
  }

  /** Container i after n admissions of the Pod. */
  function Admitted(env: Env, pod: Pod, cfg: JVMConfig, n: nat): Pod {
    if n == 0 then pod else MutatePod(env, Admitted(env, pod, cfg, n - 1), cfg)
  }

  function MutateTimes(c: Container, b: Built, s: Settings, n: nat): Container {
    if n == 0 then c else MutateContainer(MutateTimes(c, b, s, n - 1), b, s)
  }

  lemma {:induction false} AdmittedLength(env: Env, pod: Pod, cfg: JVMConfig, n: nat)
    ensures |Admitted(env, pod, cfg, n).containers| == |pod.containers|
    ensures Skips(pod, cfg) ==> Admitted(env, pod, cfg, n) == pod
  {
    if n > 0 {
      AdmittedLength(env, pod, cfg, n - 1);
    }
  }

  /** Repeated admission acts on each container separately, with the decisions of the first admission. */
  lemma {:induction false} AdmittedContainer(env: Env, pod: Pod, cfg: JVMConfig, n: nat, i: nat)
    requires !Skips(pod, cfg) && i < |pod.containers|
    ensures
      var q := Admitted(env, pod, cfg, n);
      && !Skips(q, cfg) && |q.containers| == |pod.containers|
      && SettingsOf(env, q.annotations, cfg) == SettingsOf(env, pod.annotations, cfg)
      && FrameworkFor(env, q.annotations, q.containers[i]) == FrameworkFor(env, pod.annotations, pod.containers[i])
      && (forall f :: BuiltFor(env, q.annotations, cfg, f, q.containers[i])
                   == BuiltFor(env, pod.annotations, cfg, f, pod.containers[i]))
      && q.containers[i] ==
         match FrameworkFor(env, pod.annotations, pod.containers[i])
         case None => pod.containers[i]
         case Some(f) => MutateTimes(pod.containers[i], BuiltFor(env, pod.annotations, cfg, f, pod.containers[i]),
                                     SettingsOf(env, pod.annotations, cfg), n)
  {
    hide FrameworkFor, BuiltFor, SettingsOf, MutateContainer, Skips, AnyTouched;
    if n > 0 {
      var p := Admitted(env, pod, cfg, n - 1);
      AdmittedContainer(env, pod, cfg, n - 1, i);
      SkipsAfterMutation(env, p, cfg);
      SameAfterMutation(env, p, cfg, i);
    }
  }

  /** Whether the annotations ask for an overwrite of any probe. */
  predicate AsksOverwrite(env: Env, pod: Pod, cfg: JVMConfig) {
    Overwriting(SettingsOf(env, pod.annotations, cfg))
  }

  lemma SilentAfter(env: Env, pod: Pod, cfg: JVMConfig, n: nat)
    requires n == 2 || (n == 1 && !SettingsOf(env, pod.annotations, cfg).clearDelays)
    requires !AsksOverwrite(env, pod, cfg) && !Skips(pod, cfg)
    ensures !AnyTouched(env, Admitted(env, pod, cfg, n), cfg)
  {
    var q, s := Admitted(env, pod, cfg, n), SettingsOf(env, pod.annotations, cfg);
    AdmittedLength(env, pod, cfg, n);
    forall i | 0 <= i < |q.containers| ensures !Touched(env, q.annotations, cfg, q.containers[i]) {
      AdmittedContainer(env, pod, cfg, n, i);
      var c := pod.containers[i];
      var f := FrameworkFor(env, pod.annotations, c);
      if f.Some? {
        var b := BuiltFor(env, pod.annotations, cfg, f.value, c);
        ContainerFallsSilent(c, b, s);
        assert MutateTimes(c, b, s, 1) == MutateContainer(c, b, s);
        assert MutateTimes(c, b, s, 2) == MutateContainer(MutateContainer(c, b, s), b, s);
      }
    }
  }

  /** Main theorem. Without overwrite annotations the webhook is silent on its own output: on the second
      admission when clear-delays is off, and on the third in any case. */
  lemma GeneratorReachesFixpoint(env: Env, pod: Pod, cfg: JVMConfig)
    requires !AsksOverwrite(env, pod, cfg)
    ensures !SettingsOf(env, pod.annotations, cfg).clearDelays ==> PodPatches(env, Admitted(env, pod, cfg, 1), cfg) == []
    ensures PodPatches(env, Admitted(env, pod, cfg, 2), cfg) == []
  {
    hide FrameworkFor, BuiltFor, SettingsOf, MutateContainer, PodPatches, AnyTouched;
    var one, two := Admitted(env, pod, cfg, 1), Admitted(env, pod, cfg, 2);
    SilentPod(env, one, cfg);
    SilentPod(env, two, cfg);
    AdmittedLength(env, pod, cfg, 1);
    AdmittedLength(env, pod, cfg, 2);
    if !Skips(pod, cfg) {
      SilentAfter(env, pod, cfg, 2);
      if !SettingsOf(env, pod.annotations, cfg).clearDelays {
        SilentAfter(env, pod, cfg, 1);
      }
    }
  }

  lemma UntouchedPod(env: Env, pod: Pod, cfg: JVMConfig)
    requires Skips(pod, cfg) || !AnyTouched(env, pod, cfg)
    ensures MutatePod(env, pod, cfg) == pod
  {
    hide FrameworkFor, BuiltFor, SettingsOf, MutateContainer;
    if !Skips(pod, cfg) {
      forall i | 0 <= i < |pod.containers|
        ensures Mutated(env, pod.annotations, cfg, pod.containers[i]) == pod.containers[i]
      {
        var c, f := pod.containers[i], FrameworkFor(env, pod.annotations, pod.containers[i]);
        assert !Touched(env, pod.annotations, cfg, c);
        if f.Some? {
          UntouchedContainer(c, BuiltFor(env, pod.annotations, cfg, f.value, c), SettingsOf(env, pod.annotations, cfg));
        }
      }
      assert MutatePod(env, pod, cfg).containers == pod.containers;
    }
  }

  lemma {:induction false} MarkStays(env: Env, pod: Pod, cfg: JVMConfig, n: nat)
    requires !Skips(pod, cfg)
    ensures
      var a := Admitted(env, pod, cfg, n + 1).annotations;
      a == if AnyTouched(env, pod, cfg) then pod.annotations[MANAGED := "true"] else pod.annotations
  {
    hide AnyTouched, Skips, Mutated;
    var p := Admitted(env, pod, cfg, n);
    if n == 0 {
      assert Admitted(env, pod, cfg, 1) == MutatePod(env, pod, cfg);
    } else if AnyTouched(env, pod, cfg) {
      MarkStays(env, pod, cfg, n - 1);
      assert p.annotations[MANAGED := "true"] == p.annotations;
    } else {
      UntouchedForever(env, pod, cfg, n + 1);
    }
  }

  lemma {:induction false} UntouchedForever(env: Env, pod: Pod, cfg: JVMConfig, n: nat)
    requires !AnyTouched(env, pod, cfg)
    ensures Admitted(env, pod, cfg, n) == pod
  {
    hide AnyTouched, MutatePod;
    if n > 0 {
      UntouchedForever(env, pod, cfg, n - 1);
      UntouchedPod(env, pod, cfg);
    }
  }

  /** With overwrite annotations the list is emitted again and again, but the Pod settles after two admissions:
      for every Pod, annotation and configuration. */
  lemma AdmissionSettles(env: Env, pod: Pod, cfg: JVMConfig)
    ensures Admitted(env, pod, cfg, 3) == Admitted(env, pod, cfg, 2)
  {
    hide FrameworkFor, BuiltFor, SettingsOf, MutateContainer, Skips, AnyTouched;
    var p, q := Admitted(env, pod, cfg, 2), Admitted(env, pod, cfg, 3);
    AdmittedLength(env, pod, cfg, 2);
    AdmittedLength(env, pod, cfg, 3);
    AdmittedRest(env, pod, cfg, 2);
    AdmittedRest(env, pod, cfg, 3);
    if !Skips(pod, cfg) {
      MarkStays(env, pod, cfg, 1);
      MarkStays(env, pod, cfg, 2);
      forall i | 0 <= i < |pod.containers| ensures q.containers[i] == p.containers[i] {
        AdmittedContainer(env, pod, cfg, 2, i);
        AdmittedContainer(env, pod, cfg, 3, i);
        var c, s := pod.containers[i], SettingsOf(env, pod.annotations, cfg);
        var f := FrameworkFor(env, pod.annotations, c);
        if f.Some? {
          var b := BuiltFor(env, pod.annotations, cfg, f.value, c);
          ContainerSettles(c, b, s);
          assert MutateTimes(c, b, s, 1) == MutateContainer(c, b, s);
          assert MutateTimes(c, b, s, 2) == MutateContainer(MutateContainer(c, b, s), b, s);
          assert MutateTimes(c, b, s, 3) == MutateContainer(MutateTimes(c, b, s, 2), b, s);
        }
      }
      assert q.containers == p.containers;
    }
  }

  lemma {:induction false} AdmittedRest(env: Env, pod: Pod, cfg: JVMConfig, n: nat)
    ensures var q := Admitted(env, pod, cfg, n); q.meta == pod.meta && q.spec == pod.spec && q.rest == pod.rest
  {
    if n > 0 {
      AdmittedRest(env, pod, cfg, n - 1);
    }
  }
}
