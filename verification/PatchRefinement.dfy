/** The emitted JSON Patch does to the Pod's JSON exactly what the direct mutation does to the Pod. */
module PatchRefinement {
  import opened Basics
  import opened Json
  import opened JsonPatch
  import opened ProbeModel
  import opened ProbeBuilder
  import opened PodMutation
  import opened Alignment

  // ----- operations inside one container -----

  function SlotTokens(op: SlotOp): seq<string> {
    [op.slot] + (match op.field case None => [] case Some(f) => [f])
  }

  function ApplySlots(c: Json, ops: seq<SlotOp>): Option<Json>
    decreases |ops|
  {
    if ops == [] then Some(c)
    else
      match EditAt(c, SlotTokens(ops[0]), ops[0].edit)
      case None => None
      case Some(c') => ApplySlots(c', ops[1..])
  }

  lemma {:induction false} ApplySlotsConcat(c: Json, a: seq<SlotOp>, b: seq<SlotOp>)
    ensures ApplySlots(c, a + b) == match ApplySlots(c, a) case None => None case Some(d) => ApplySlots(d, b)
    decreases |a|
  {
    if a == [] {
      assert a + b == b;
    } else {
      assert (a + b)[1..] == a[1..] + b;
      match EditAt(c, SlotTokens(a[0]), a[0].edit)
      case None =>
      case Some(d) => ApplySlotsConcat(d, a[1..], b);
    }
  }

  lemma ApplyOneSlot(c: Json, op: SlotOp)
    ensures ApplySlots(c, [op]) == EditAt(c, SlotTokens(op), op.edit)
  {
    assert [op][1..] == [];
  }

  predicate Holds(m: map<string, Json>, k: string, p: Option<Probe>) {
    (p.Some? <==> k in m) && (p.Some? ==> m[k] == EncodeProbe(p.value, false))
  }

  lemma PutEffect(m: map<string, Json>, k: string, had: Option<Probe>, p: Probe)
    requires Holds(m, k, had)
    ensures ApplySlots(Obj(m), [PutProbe(k, had.Some?, p)]) == Some(Obj(m[k := EncodeProbe(p, false)]))
  {
    ApplyOneSlot(Obj(m), PutProbe(k, had.Some?, p));
  }

  lemma RemoveDelay(p: Probe)
    requires p.initialDelaySeconds != 0
    ensures EditChild(EncodeProbe(p, false), DELAY, Remove)
         == Some(EncodeProbe(p.(initialDelaySeconds := 0), false))
  {
    ProbeNamesDiffer();
    var base := WithThreshold(p, false);
    assert DELAY !in base;
    assert base[DELAY := Num(p.initialDelaySeconds)] - {DELAY} == base;
    assert WithThreshold(p.(initialDelaySeconds := 0), false) == base;
  }

  lemma ReplaceThreshold(p: Probe, t: int32)
    ensures EditChild(EncodeProbe(p, false), FAILURE, Replace(Num(t)))
         == if p.failureThreshold == 0 then None else Some(EncodeProbe(p.(failureThreshold := t), t == 0))
  {
    ProbeNamesDiffer();
    var m := EncodeProbe(p, false).members;
    var q := p.(failureThreshold := t);
    assert FAILURE !in Timing(p);
    assert FAILURE in m <==> p.failureThreshold != 0;
    if p.failureThreshold != 0 {
      assert Timing(q) == Timing(p);
      assert WithThreshold(p, false)[FAILURE := Num(t)] == WithThreshold(q, t == 0);
      assert m[FAILURE := Num(t)] == WithNumber(WithThreshold(q, t == 0), DELAY, p.initialDelaySeconds);
    }
  }

  lemma FieldEffect(m: map<string, Json>, k: string, f: string, e: Edit)
    requires k in m
    ensures ApplySlots(Obj(m), [SlotOp(k, Some(f), e)]) ==
            match EditChild(m[k], f, e) case None => None case Some(v) => Some(Obj(m[k := v]))
  {
    var op := SlotOp(k, Some(f), e);
    ApplyOneSlot(Obj(m), op);
    assert SlotTokens(op) == [k, f];
    assert [k, f][1..] == [f];
  }

  lemma MainEffect(m: map<string, Json>, k: string, had: Option<Probe>, built: Option<Probe>, overwrite: bool,
                   clear: bool)
    requires Holds(m, k, had)
    ensures ApplySlots(Obj(m), MainOps(k, had, built, overwrite, clear))
         == Some(Obj(WithProbe(m, k, MainProbe(had, built, overwrite, clear), false)))
  {
    if overwrite || had.None? {
      if built.Some? {
        PutEffect(m, k, had, built.value);
      } else if had.Some? {
        assert m[k := m[k]] == m;
      }
    } else if clear && had.value.initialDelaySeconds != 0 {
      RemoveDelay(had.value);
      FieldEffect(m, k, DELAY, Remove);
    } else {
      assert m[k := m[k]] == m;
    }
  }

  /** Alignment has to write failureThreshold into a probe whose serialisation lacks that member. */
  predicate Unwritable(p: Probe, s: Settings) {
    p.failureThreshold == 0 && p.periodSeconds > 0 && s.minWindow > 0 && s.maxFailure != 0
  }

  predicate WritesZero(p: Probe, s: Settings) {
    var t := AlignedThreshold(p, s.minWindow, s.maxFailure);
    t != p.failureThreshold && t == 0
  }

  lemma UnwritableIsTheGuard(p: Probe, s: Settings)
    ensures Unwritable(p, s) <==>
            p.failureThreshold == 0 && AlignedThreshold(p, s.minWindow, s.maxFailure) != p.failureThreshold
  {
    if p.failureThreshold == 0 && p.periodSeconds > 0 {
      assert p.periodSeconds * p.failureThreshold == 0;
      NeededFits(s.minWindow, p.periodSeconds);
    }
  }

  lemma AlignEffect(m: map<string, Json>, k: string, p: Probe, keepsDelay: bool, s: Settings)
    requires Holds(m, k, Some(p))
    ensures
      var q := if keepsDelay then p.(initialDelaySeconds := 0) else p;
      ApplySlots(Obj(m), AlignOps(k, q, s.minWindow, s.maxFailure)) ==
      if Unwritable(p, s) then None
      else Some(Obj(m[k := EncodeProbe(Aligned(Some(p), keepsDelay, s).value, WritesZero(p, s))]))
  {
    var q := if keepsDelay then p.(initialDelaySeconds := 0) else p;
    var t := AlignedThreshold(p, s.minWindow, s.maxFailure);
    assert AlignedThreshold(q, s.minWindow, s.maxFailure) == t;
    var first := if q.initialDelaySeconds > 0 then [SlotOp(k, Some(DELAY), Remove)] else [];
    var second := if t != p.failureThreshold then [SlotOp(k, Some(FAILURE), Replace(Num(t)))] else [];
    assert AlignOps(k, q, s.minWindow, s.maxFailure) == first + second;
    ApplySlotsConcat(Obj(m), first, second);
    var p1 := if q.initialDelaySeconds > 0 then p.(initialDelaySeconds := 0) else p;
    var m1 := m[k := EncodeProbe(p1, false)];
    if q.initialDelaySeconds > 0 {
      RemoveDelay(p);
      FieldEffect(m, k, DELAY, Remove);
    } else {
      assert m1 == m;
    }
    assert ApplySlots(Obj(m), first) == Some(Obj(m1));
    UnwritableIsTheGuard(p, s);
    if t != p.failureThreshold {
      FieldEffect(m1, k, FAILURE, Replace(Num(t)));
      ReplaceThreshold(p1, t);
      if p.failureThreshold != 0 {
        assert m1[k := EncodeProbe(p1.(failureThreshold := t), t == 0)]
            == m[k := EncodeProbe(p1.(failureThreshold := t), t == 0)];
      }
    }
  }

  lemma WithProbeLaws(m: map<string, Json>, a: string, b: string, p: Option<Probe>, q: Option<Probe>, y: bool, z: bool)
    requires a != b
    ensures WithProbe(WithProbe(m, a, p, y), b, q, z) == WithProbe(WithProbe(m, b, q, z), a, p, y)
    ensures q.Some? || p.None? ==> WithProbe(WithProbe(m, a, p, y), a, q, z) == WithProbe(m, a, q, z)
  {
    hide EncodeProbe;
  }


  function Ports(c: Container): map<string, Json> {
    if c.ports == [] then c.rest else c.rest[PORTS := Arr(c.ports)]
  }

  lemma SetLiveness(c: Container, z: Zeros, p: Option<Probe>, zero: bool)
    requires p.Some? || c.liveness.None?
    ensures WithProbe(ContainerMembers(c, z), LIVENESS, p, zero)
         == ContainerMembers(c.(liveness := p), z.(liveness := zero))
    ensures !z.liveness ==> Holds(ContainerMembers(c, z), LIVENESS, c.liveness)
  {
    ContainerNamesDiffer();
    var m0 := Ports(c);
    var m1 := WithProbe(m0, LIVENESS, c.liveness, z.liveness);
    var m2 := WithProbe(m1, READINESS, c.readiness, z.readiness);
    WithProbeLaws(m2, STARTUP, LIVENESS, c.startup, p, false, zero);
    WithProbeLaws(m1, READINESS, LIVENESS, c.readiness, p, z.readiness, zero);
    WithProbeLaws(m0, LIVENESS, READINESS, c.liveness, p, z.liveness, zero);
  }

  lemma SetReadiness(c: Container, z: Zeros, p: Option<Probe>, zero: bool)
    requires p.Some? || c.readiness.None?
    ensures WithProbe(ContainerMembers(c, z), READINESS, p, zero)
         == ContainerMembers(c.(readiness := p), z.(readiness := zero))
    ensures !z.readiness ==> Holds(ContainerMembers(c, z), READINESS, c.readiness)
  {
    ContainerNamesDiffer();
    var m1 := WithProbe(Ports(c), LIVENESS, c.liveness, z.liveness);
    var m2 := WithProbe(m1, READINESS, c.readiness, z.readiness);
    WithProbeLaws(m2, STARTUP, READINESS, c.startup, p, false, zero);
    WithProbeLaws(m1, READINESS, LIVENESS, c.readiness, p, z.readiness, zero);
  }

  lemma SetStartup(c: Container, z: Zeros, p: Probe)
    ensures ContainerMembers(c, z)[STARTUP := EncodeProbe(p, false)] == ContainerMembers(c.(startup := Some(p)), z)
    ensures Holds(ContainerMembers(c, z), STARTUP, c.startup)
  {
    ContainerNamesDiffer();
  }

  // ----- one container -----

  /** The container with liveness and readiness as they are before alignment. */
  function BeforeAlignment(c: Container, b: Built, s: Settings): Container {
    c.(liveness := MainProbe(c.liveness, b.liveness, s.overwriteLiveness, s.clearDelays),
       readiness := MainProbe(c.readiness, b.readiness, s.overwriteReadiness, s.clearDelays),
       startup := if InjectsStartup(c, b, s) then Some(Tuned(StartupSource(c, b, s).value, s)) else c.startup)
  }

  predicate SomeUnwritable(p: Option<Probe>, s: Settings) { p.Some? && Unwritable(p.value, s) }

  /** The only reason why the operations for a container can fail to apply. */
  predicate Misaligned(c: Container, b: Built, s: Settings) {
    && InjectsStartup(c, b, s) && s.align
    && (SomeUnwritable(BeforeAlignment(c, b, s).liveness, s) || SomeUnwritable(BeforeAlignment(c, b, s).readiness, s))
  }

  function ZerosAfter(c: Container, b: Built, s: Settings): Zeros {
    var d := BeforeAlignment(c, b, s);
    if InjectsStartup(c, b, s) && s.align then
      Zeros(d.liveness.Some? && WritesZero(d.liveness.value, s), d.readiness.Some? && WritesZero(d.readiness.value, s))
    else FRESH
  }

  lemma MainPart(c: Container, b: Built, s: Settings)
    ensures ApplySlots(EncodeContainer(c, FRESH),
              MainOps(LIVENESS, c.liveness, b.liveness, s.overwriteLiveness, s.clearDelays)
              + MainOps(READINESS, c.readiness, b.readiness, s.overwriteReadiness, s.clearDelays))
         == Some(EncodeContainer(BeforeAlignment(c, b, s).(startup := c.startup), FRESH))
  {
    var d := BeforeAlignment(c, b, s).(startup := c.startup);
    var l := MainOps(LIVENESS, c.liveness, b.liveness, s.overwriteLiveness, s.clearDelays);
    var r := MainOps(READINESS, c.readiness, b.readiness, s.overwriteReadiness, s.clearDelays);
    var c1 := c.(liveness := d.liveness);
    SetLiveness(c, FRESH, d.liveness, false);
    MainEffect(ContainerMembers(c, FRESH), LIVENESS, c.liveness, b.liveness, s.overwriteLiveness, s.clearDelays);
    SetReadiness(c1, FRESH, d.readiness, false);
    MainEffect(ContainerMembers(c1, FRESH), READINESS, c1.readiness, b.readiness, s.overwriteReadiness, s.clearDelays);
    ApplySlotsConcat(EncodeContainer(c, FRESH), l, r);
    assert d == c1.(readiness := d.readiness);
  }

  lemma StartupPart(c: Container, c1: Container, p: Probe)
    requires c1.startup == c.startup
    ensures ApplySlots(EncodeContainer(c1, FRESH), [PutProbe(STARTUP, c.startup.Some?, p)])
         == Some(EncodeContainer(c1.(startup := Some(p)), FRESH))
  {
    SetStartup(c1, FRESH, p);
    PutEffect(ContainerMembers(c1, FRESH), STARTUP, c1.startup, p);
  }

  lemma AlignedMainProbe(had: Option<Probe>, built: Option<Probe>, overwrite: bool, s: Settings, slot: string)
    ensures
      var main := MainProbe(had, built, overwrite, s.clearDelays);
      var keeps := s.clearDelays && had.Some?;
      AlignStep(slot, had, Working(had, built, overwrite), s) ==
      if main.None? then []
      else AlignOps(slot, if keeps then main.value.(initialDelaySeconds := 0) else main.value, s.minWindow, s.maxFailure)
  {}

  lemma AlignLiveness(d: Container, keeps: bool, s: Settings)
    requires d.liveness.Some?
    ensures
      var p := d.liveness.value;
      var q := if keeps then p.(initialDelaySeconds := 0) else p;
      ApplySlots(EncodeContainer(d, FRESH), AlignOps(LIVENESS, q, s.minWindow, s.maxFailure)) ==
      if Unwritable(p, s) then None
      else Some(EncodeContainer(d.(liveness := Aligned(d.liveness, keeps, s)), FRESH.(liveness := WritesZero(p, s))))
  {
    var p := d.liveness.value;
    SetLiveness(d, FRESH, Aligned(d.liveness, keeps, s), WritesZero(p, s));
    AlignEffect(ContainerMembers(d, FRESH), LIVENESS, p, keeps, s);
  }

  lemma AlignReadiness(d: Container, z: Zeros, keeps: bool, s: Settings)
    requires d.readiness.Some? && !z.readiness
    ensures
      var p := d.readiness.value;
      var q := if keeps then p.(initialDelaySeconds := 0) else p;
      ApplySlots(EncodeContainer(d, z), AlignOps(READINESS, q, s.minWindow, s.maxFailure)) ==
      if Unwritable(p, s) then None
      else Some(EncodeContainer(d.(readiness := Aligned(d.readiness, keeps, s)), z.(readiness := WritesZero(p, s))))
  {
    var p := d.readiness.value;
    SetReadiness(d, z, Aligned(d.readiness, keeps, s), WritesZero(p, s));
    AlignEffect(ContainerMembers(d, z), READINESS, p, keeps, s);
  }

  lemma AlignPart(c: Container, b: Built, s: Settings)
    requires InjectsStartup(c, b, s) && s.align
    ensures
      var d := BeforeAlignment(c, b, s);
      ApplySlots(EncodeContainer(d, FRESH),
        AlignStep(LIVENESS, c.liveness, Working(c.liveness, b.liveness, s.overwriteLiveness), s)
        + AlignStep(READINESS, c.readiness, Working(c.readiness, b.readiness, s.overwriteReadiness), s)) ==
      if Misaligned(c, b, s) then None
      else Some(EncodeContainer(MutateContainer(c, b, s), ZerosAfter(c, b, s)))
  {
    hide Unwritable, WritesZero, EncodeContainer, AlignOps, StartupSource, Tuned;
    var d := BeforeAlignment(c, b, s);
    var kl, kr := s.clearDelays && c.liveness.Some?, s.clearDelays && c.readiness.Some?;
    AlignedMainProbe(c.liveness, b.liveness, s.overwriteLiveness, s, LIVENESS);
    AlignedMainProbe(c.readiness, b.readiness, s.overwriteReadiness, s, READINESS);
    var l := AlignStep(LIVENESS, c.liveness, Working(c.liveness, b.liveness, s.overwriteLiveness), s);
    var r := AlignStep(READINESS, c.readiness, Working(c.readiness, b.readiness, s.overwriteReadiness), s);
    ApplySlotsConcat(EncodeContainer(d, FRESH), l, r);
    var d1 := d.(liveness := Aligned(d.liveness, kl, s));
    var z1 := FRESH.(liveness := d.liveness.Some? && WritesZero(d.liveness.value, s));
    if d.liveness.Some? {
      AlignLiveness(d, kl, s);
    } else {
      assert d1 == d;
    }
    if !SomeUnwritable(d.liveness, s) {
      assert ApplySlots(EncodeContainer(d, FRESH), l) == Some(EncodeContainer(d1, z1));
      if d.readiness.Some? {
        AlignReadiness(d1, z1, kr, s);
      }
      assert MutateContainer(c, b, s) == d1.(readiness := Aligned(d.readiness, kr, s));
    }
  }

  /** The operations emitted for one container apply exactly when no aligned probe lacks failureThreshold, and
      then their effect is the mutation of the container. */
  lemma ContainerEffect(c: Container, b: Built, s: Settings)
    ensures ApplySlots(EncodeContainer(c, FRESH), ContainerOps(c, b, s)) ==
            if Misaligned(c, b, s) then None
            else Some(EncodeContainer(MutateContainer(c, b, s), ZerosAfter(c, b, s)))
  {
    var injects := InjectsStartup(c, b, s);
    var d := BeforeAlignment(c, b, s);
    var c1 := d.(startup := c.startup);
    var mains := MainOps(LIVENESS, c.liveness, b.liveness, s.overwriteLiveness, s.clearDelays)
                 + MainOps(READINESS, c.readiness, b.readiness, s.overwriteReadiness, s.clearDelays);
    var startup := if injects then [PutProbe(STARTUP, c.startup.Some?, Tuned(StartupSource(c, b, s).value, s))] else [];
    var aligns := if injects && s.align then
        AlignStep(LIVENESS, c.liveness, Working(c.liveness, b.liveness, s.overwriteLiveness), s)
        + AlignStep(READINESS, c.readiness, Working(c.readiness, b.readiness, s.overwriteReadiness), s)
      else [];
    assert ContainerOps(c, b, s) == (mains + startup) + aligns;
    MainPart(c, b, s);
    ApplySlotsConcat(EncodeContainer(c, FRESH), mains, startup);
    ApplySlotsConcat(EncodeContainer(c, FRESH), mains + startup, aligns);
    if injects {
      StartupPart(c, c1, Tuned(StartupSource(c, b, s).value, s));
      assert d == c1.(startup := d.startup);
    } else {
      assert c1 == d;
    }
    assert ApplySlots(EncodeContainer(c, FRESH), mains + startup) == Some(EncodeContainer(d, FRESH));
    if injects && s.align {
      AlignPart(c, b, s);
    }
  }
}
