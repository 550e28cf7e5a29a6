/** The whole patch against the whole Pod, and the fixpoint of repeated admission. */
module PodRefinement {
  import opened Basics
  import opened Json
  import opened JsonPatch
  import opened JsonPointer
  import opened ProbeModel
  import opened ProbeBuilder
  import opened PodMutation
  import opened PatchRefinement

  // ----- paths -----

  predicate PlainOp(op: SlotOp) {
    Plain(op.slot) && (op.field.Some? ==> Plain(op.field.value))
  }

  predicate PlainOps(ops: seq<SlotOp>) { forall i :: 0 <= i < |ops| ==> PlainOp(ops[i]) }

  lemma NamesArePlain()
    ensures Plain(LIVENESS) && Plain(READINESS) && Plain(STARTUP) && Plain(DELAY) && Plain(FAILURE)
    ensures Plain(SPEC) && Plain(CONTAINERS) && Plain(METADATA) && Plain(ANNOTATIONS)
  {}

  lemma MainOpsArePlain(slot: string, had: Option<Probe>, built: Option<Probe>, overwrite: bool, s: Settings)
    requires Plain(slot)
    ensures PlainOps(MainOps(slot, had, built, overwrite, s.clearDelays))
    ensures PlainOps(AlignStep(slot, had, Working(had, built, overwrite), s))
  {
    NamesArePlain();
  }

  lemma ContainerOpsArePlain(c: Container, b: Built, s: Settings)
    ensures PlainOps(ContainerOps(c, b, s))
  {
    NamesArePlain();
    MainOpsArePlain(LIVENESS, c.liveness, b.liveness, s.overwriteLiveness, s);
    MainOpsArePlain(READINESS, c.readiness, b.readiness, s.overwriteReadiness, s);
  }

  function JoinPlain(tokens: seq<string>): string {
    if tokens == [] then "" else "/" + tokens[0] + JoinPlain(tokens[1..])
  }

  lemma {:induction false} ParsePlain(tokens: seq<string>)
    requires forall i :: 0 <= i < |tokens| ==> Plain(tokens[i])
    ensures JoinPlain(tokens) == Render(tokens)
    ensures Parse(JoinPlain(tokens)) == Some(tokens)
  {
    ParseRender(tokens);
    if tokens != [] {
      EscapePlain(tokens[0]);
      ParsePlain(tokens[1..]);
    }
  }

  function ContainerTokens(i: nat): seq<string> { [SPEC, CONTAINERS, Itoa(i)] }

  lemma {:induction false} JoinConcat(a: seq<string>, b: seq<string>)
    ensures JoinPlain(a + b) == JoinPlain(a) + JoinPlain(b)
  {
    if a == [] {
      assert a + b == b;
    } else {
      assert (a + b)[1..] == a[1..] + b;
      JoinConcat(a[1..], b);
    }
  }

  lemma JoinOne(t: string)
    ensures JoinPlain([t]) == "/" + t
  {
    assert [t][1..] == [];
  }

  lemma JoinThree(a: string, b: string, c: string)
    ensures JoinPlain([a, b, c]) == "/" + a + "/" + b + "/" + c
  {
    assert [a, b, c] == ([a] + [b]) + [c];
    JoinConcat([a] + [b], [c]);
    JoinConcat([a], [b]);
    JoinOne(a);
    JoinOne(b);
    JoinOne(c);
  }

  lemma SlotTokensJoin(op: SlotOp)
    ensures JoinPlain(SlotTokens(op)) == "/" + op.slot + (match op.field case None => "" case Some(f) => "/" + f)
  {
    JoinOne(op.slot);
    if op.field.Some? {
      JoinOne(op.field.value);
      JoinConcat([op.slot], [op.field.value]);
    }
  }

  lemma TokensArePlain(i: nat, op: SlotOp)
    requires PlainOp(op)
    ensures forall k :: 0 <= k < |ContainerTokens(i) + SlotTokens(op)| ==> Plain((ContainerTokens(i) + SlotTokens(op))[k])
  {
    NamesArePlain();
    IndexRoundTrip(i);
  }

  /** The path string built for an operation designates its slot or member in container i. */
  lemma SlotPathTokens(i: nat, op: SlotOp)
    requires PlainOp(op)
    ensures Parse(SlotPath(i, op)) == Some(ContainerTokens(i) + SlotTokens(op))
  {
    TokensArePlain(i, op);
    JoinThree(SPEC, CONTAINERS, Itoa(i));
    SlotTokensJoin(op);
    JoinConcat(ContainerTokens(i), SlotTokens(op));
    ParsePlain(ContainerTokens(i) + SlotTokens(op));
    PathIsSplit(BasePath(i), op.slot, match op.field case None => "" case Some(f) => "/" + f);
  }

  lemma PathIsSplit(base: string, slot: string, suffix: string)
    ensures base + "/" + slot + suffix == base + ("/" + slot + suffix)
  {}

  // ----- from one container to the Pod -----

  /** Operations whose paths go through `path` act on the value found there. */
  lemma {:induction false} LiftedApply(doc: Json, path: seq<string>, emitted: seq<PatchOp>, ops: seq<SlotOp>)
    requires At(doc, path).Some? && |emitted| == |ops|
    requires forall k :: 0 <= k < |ops| ==>
      emitted[k].edit == ops[k].edit && Parse(emitted[k].path) == Some(path + SlotTokens(ops[k]))
    ensures Apply(doc, emitted) ==
            match ApplySlots(At(doc, path).value, ops)
            case None => None
            case Some(c) => Some(PutAt(doc, path, c))
    decreases |ops|
  {
    var c := At(doc, path).value;
    if ops == [] {
      PutAtLaws(doc, path, c, c);
    } else {
      var first := EditAt(c, SlotTokens(ops[0]), ops[0].edit);
      EditIsLocal(doc, path, SlotTokens(ops[0]), ops[0].edit);
      if first.Some? {
        PutAtLaws(doc, path, first.value, first.value);
        LiftedApply(PutAt(doc, path, first.value), path, emitted[1..], ops[1..]);
        var rest := ApplySlots(first.value, ops[1..]);
        if rest.Some? {
          PutAtLaws(doc, path, first.value, rest.value);
        }
      }
    }
  }

  lemma {:induction false} EmitAllAt(i: nat, ops: seq<SlotOp>)
    ensures forall k :: 0 <= k < |ops| ==> EmitAll(i, ops)[k] == Emit(i, ops[k])
  {
    if ops != [] {
      EmitAllAt(i, ops[1..]);
    }
  }

  lemma EmittedOpsApply(doc: Json, i: nat, ops: seq<SlotOp>)
    requires At(doc, ContainerTokens(i)).Some? && PlainOps(ops)
    ensures Apply(doc, EmitAll(i, ops)) ==
            match ApplySlots(At(doc, ContainerTokens(i)).value, ops)
            case None => None
            case Some(c) => Some(PutAt(doc, ContainerTokens(i), c))
  {
    var path := ContainerTokens(i);
    EmitAllAt(i, ops);
    forall k | 0 <= k < |ops| ensures Parse(EmitAll(i, ops)[k].path) == Some(path + SlotTokens(ops[k])) {
      SlotPathTokens(i, ops[k]);
    }
    LiftedApply(doc, path, EmitAll(i, ops), ops);
  }

  /** The Pod with its first n containers mutated, and where explicit zeros were written. */
  function PrefixMutated(env: Env, pod: Pod, cfg: JVMConfig, n: nat): Pod
    requires n <= |pod.containers|
  {
    pod.(containers := seq(|pod.containers|, i requires 0 <= i < |pod.containers| =>
      if i < n then Mutated(env, pod.annotations, cfg, pod.containers[i]) else pod.containers[i]))
  }

  function ZerosFor(env: Env, a: Annotations, cfg: JVMConfig, c: Container): Zeros {
    match FrameworkFor(env, a, c)
    case None => FRESH
    case Some(f) => ZerosAfter(c, BuiltFor(env, a, cfg, f, c), SettingsOf(env, a, cfg))
  }

  function PrefixZeros(env: Env, pod: Pod, cfg: JVMConfig, n: nat): seq<Zeros>
    requires n <= |pod.containers|
  {
    seq(|pod.containers|, i requires 0 <= i < |pod.containers| =>
      if i < n then ZerosFor(env, pod.annotations, cfg, pod.containers[i]) else FRESH)
  }

  /** A container whose alignment writes failureThreshold into a probe serialised without it. */
  predicate Stuck(env: Env, a: Annotations, cfg: JVMConfig, c: Container) {
    var f := FrameworkFor(env, a, c);
    f.Some? && Misaligned(c, BuiltFor(env, a, cfg, f.value, c), SettingsOf(env, a, cfg))
  }

  /** Looking up and replacing two members down and one element across. */
  lemma ThreeLevels(doc: Json, a: string, b: string, t: string, spec: map<string, Json>, elems: seq<Json>, i: nat, v: Json)
    requires doc.Obj? && a in doc.members && doc.members[a] == Obj(spec)
    requires b in spec && spec[b] == Arr(elems) && i < |elems| && ParseIndex(t) == Some(i)
    ensures At(doc, [a, b, t]) == Some(elems[i])
    ensures PutAt(doc, [a, b, t], v) == Obj(doc.members[a := Obj(spec[b := Arr(elems[i := v])])])
  {
    assert [a, b, t][1..] == [b, t] && [b, t][1..] == [t] && [t][1..] == [];
    assert At(Arr(elems), [t]) == Some(elems[i]);
    assert PutAt(Arr(elems), [t], v) == Arr(elems[i := v]);
    assert At(Obj(spec), [b, t]) == Some(elems[i]);
    assert PutAt(Obj(spec), [b, t], v) == Obj(spec[b := Arr(elems[i := v])]);
  }

  lemma ContainerAt(pod: Pod, zs: seq<Zeros>, i: nat, c: Container, z: Zeros)
    requires |zs| == |pod.containers| && i < |zs|
    ensures At(EncodePod(pod, zs), ContainerTokens(i)) == Some(EncodeContainer(pod.containers[i], zs[i]))
    ensures PutAt(EncodePod(pod, zs), ContainerTokens(i), EncodeContainer(c, z))
         == EncodePod(pod.(containers := pod.containers[i := c]), zs[i := z])
  {
    IndexRoundTrip(i);
    var doc, cs := EncodePod(pod, zs), EncodeContainers(pod.containers, zs);
    var spec := pod.spec[CONTAINERS := Arr(cs)];
    var cs' := EncodeContainers(pod.containers[i := c], zs[i := z]);
    ThreeLevels(doc, SPEC, CONTAINERS, Itoa(i), spec, cs, i, EncodeContainer(c, z));
    assert cs[i := EncodeContainer(c, z)] == cs';
    assert spec[CONTAINERS := Arr(cs')] == pod.spec[CONTAINERS := Arr(cs')];
    var m := pod.rest[METADATA := EncodeMeta(pod)];
    assert doc.members == m[SPEC := Obj(spec)];
    assert doc.members[SPEC := Obj(spec[CONTAINERS := Arr(cs')])] == m[SPEC := Obj(spec[CONTAINERS := Arr(cs')])];
  }

  lemma OneContainer(env: Env, a: Annotations, cfg: JVMConfig, c: Container)
    ensures PlainOps(OpsFor(env, a, cfg, c))
    ensures ApplySlots(EncodeContainer(c, FRESH), OpsFor(env, a, cfg, c)) ==
            if Stuck(env, a, cfg, c) then None
            else Some(EncodeContainer(Mutated(env, a, cfg, c), ZerosFor(env, a, cfg, c)))
  {
    match FrameworkFor(env, a, c)
    case None =>
    case Some(f) =>
      var b, s := BuiltFor(env, a, cfg, f, c), SettingsOf(env, a, cfg);
      ContainerOpsArePlain(c, b, s);
      ContainerEffect(c, b, s);
  }

  predicate AnyStuck(env: Env, pod: Pod, cfg: JVMConfig, n: nat)
    requires n <= |pod.containers|
  {
    exists i :: 0 <= i < n && Stuck(env, pod.annotations, cfg, pod.containers[i])
  }

  lemma PrefixStep(env: Env, pod: Pod, cfg: JVMConfig, n: nat)
    requires 0 < n <= |pod.containers|
    ensures
      var before, zs := PrefixMutated(env, pod, cfg, n - 1), PrefixZeros(env, pod, cfg, n - 1);
      var ops := OpsFor(env, pod.annotations, cfg, pod.containers[n - 1]);
      Apply(EncodePod(before, zs), EmitAll(n - 1, ops)) ==
      if Stuck(env, pod.annotations, cfg, pod.containers[n - 1]) then None
      else Some(EncodePod(PrefixMutated(env, pod, cfg, n), PrefixZeros(env, pod, cfg, n)))
  {
    var a, c := pod.annotations, pod.containers[n - 1];
    var before, zs := PrefixMutated(env, pod, cfg, n - 1), PrefixZeros(env, pod, cfg, n - 1);
    var c', z' := Mutated(env, a, cfg, c), ZerosFor(env, a, cfg, c);
    PrefixNext(env, pod, cfg, n);
    hide PrefixMutated, PrefixZeros, Apply, EncodePod, Mutated, ZerosFor, Stuck, OpsFor, EmitAll, EncodeContainer, ContainerTokens,
         At, PutAt, PlainOps;
    ContainerAt(before, zs, n - 1, c', z');
    OneContainer(env, a, cfg, c);
    EmittedOpsApply(EncodePod(before, zs), n - 1, OpsFor(env, a, cfg, c));
  }

  lemma PrefixNext(env: Env, pod: Pod, cfg: JVMConfig, n: nat)
    requires 0 < n <= |pod.containers|
    ensures
      var a, c, before, zs := pod.annotations, pod.containers[n - 1], PrefixMutated(env, pod, cfg, n - 1), PrefixZeros(env, pod, cfg, n - 1);
      && |before.containers| == |zs| == |pod.containers| && before.containers[n - 1] == c && zs[n - 1] == FRESH
      && PrefixMutated(env, pod, cfg, n) == before.(containers := before.containers[n - 1 := Mutated(env, a, cfg, c)])
      && PrefixZeros(env, pod, cfg, n) == zs[n - 1 := ZerosFor(env, a, cfg, c)]
  {
    hide Mutated, ZerosFor;
  }

  lemma PrefixLength(env: Env, pod: Pod, cfg: JVMConfig, n: nat)
    requires n <= |pod.containers|
    ensures |PrefixMutated(env, pod, cfg, n).containers| == |PrefixZeros(env, pod, cfg, n)| == |pod.containers|
  {}

  lemma PrefixNone(env: Env, pod: Pod, cfg: JVMConfig)
    ensures PrefixPatched(env, pod, cfg, 0) == PrefixResult(env, pod, cfg, 0)
  {
    hide Mutated, ZerosFor, EncodePod;
    assert PrefixMutated(env, pod, cfg, 0).containers == pod.containers;
    assert PrefixMutated(env, pod, cfg, 0) == pod;
    assert PrefixZeros(env, pod, cfg, 0) == AllFresh(|pod.containers|);
  }

  /** The document with the first n containers mutated, or nothing. */
  function PrefixResult(env: Env, pod: Pod, cfg: JVMConfig, n: nat): Option<Json>
    requires n <= |pod.containers|
  {
    if AnyStuck(env, pod, cfg, n) then None
    else
      PrefixLength(env, pod, cfg, n);
      Some(EncodePod(PrefixMutated(env, pod, cfg, n), PrefixZeros(env, pod, cfg, n)))
  }

  lemma PrefixResultNext(env: Env, pod: Pod, cfg: JVMConfig, n: nat)
    requires 0 < n <= |pod.containers|
    ensures
      PrefixResult(env, pod, cfg, n) ==
      match PrefixResult(env, pod, cfg, n - 1)
      case None => None
      case Some(doc) => Apply(doc, EmitAll(n - 1, OpsFor(env, pod.annotations, cfg, pod.containers[n - 1])))
  {
    hide Apply, EncodePod, OpsFor, EmitAll, AnyStuck, PrefixMutated, PrefixZeros, Stuck;
    AnyStuckStep(env, pod, cfg, n);
    PrefixStep(env, pod, cfg, n);
  }

  /** The first n containers' operations, applied to the Pod. */
  function PrefixPatched(env: Env, pod: Pod, cfg: JVMConfig, n: nat): Option<Json>
    requires n <= |pod.containers|
  {
    Apply(EncodePod(pod, AllFresh(|pod.containers|)), ContainerPatches(env, pod, cfg, n))
  }

  lemma PrefixPatchedNext(env: Env, pod: Pod, cfg: JVMConfig, n: nat)
    requires 0 < n <= |pod.containers|
    ensures
      PrefixPatched(env, pod, cfg, n) ==
      match PrefixPatched(env, pod, cfg, n - 1)
      case None => None
      case Some(doc) => Apply(doc, EmitAll(n - 1, OpsFor(env, pod.annotations, cfg, pod.containers[n - 1])))
  {
    var doc, ops := EncodePod(pod, AllFresh(|pod.containers|)), OpsFor(env, pod.annotations, cfg, pod.containers[n - 1]);
    ApplyConcat(doc, ContainerPatches(env, pod, cfg, n - 1), EmitAll(n - 1, ops));
    hide Apply, EncodePod, OpsFor, EmitAll, AllFresh;
  }

  lemma {:induction false} PrefixEffect(env: Env, pod: Pod, cfg: JVMConfig, n: nat)
    requires n <= |pod.containers|
    ensures PrefixPatched(env, pod, cfg, n) == PrefixResult(env, pod, cfg, n)
  {
    hide *;
    if n == 0 {
      PrefixNone(env, pod, cfg);
    } else {
      PrefixEffect(env, pod, cfg, n - 1);
      PrefixPatchedNext(env, pod, cfg, n);
      PrefixResultNext(env, pod, cfg, n);
    }
  }

  lemma AnyStuckStep(env: Env, pod: Pod, cfg: JVMConfig, n: nat)
    requires 0 < n <= |pod.containers|
    ensures AnyStuck(env, pod, cfg, n) <==>
            AnyStuck(env, pod, cfg, n - 1) || Stuck(env, pod.annotations, cfg, pod.containers[n - 1])
  {}

  // ----- the managed annotation -----

  function MarkTokens(a: Annotations): seq<string> {
    if a == map[] then [METADATA, ANNOTATIONS] else [METADATA, ANNOTATIONS, MANAGED]
  }

  lemma MarkPath(a: Annotations)
    requires !Marked(a)
    ensures Parse(MarkOps(a)[0].path) == Some(MarkTokens(a))
  {
    NamesArePlain();
    EscapePlain(METADATA);
    EscapePlain(ANNOTATIONS);
    ParseRender(MarkTokens(a));
    RenderTwoOrThree(METADATA, ANNOTATIONS, MANAGED);
  }

  lemma RenderTwoOrThree(a: string, b: string, c: string)
    ensures Render([a, b]) == "/" + Escape(a) + "/" + Escape(b)
    ensures Render([a, b, c]) == "/" + Escape(a) + "/" + Escape(b) + "/" + Escape(c)
  {
    hide Escape;
    RenderOne(b);
    RenderOne(c);
    assert [a, b, c][1..] == [b, c] && [b, c][1..] == [c] && [a, b][1..] == [b];
  }

  lemma RenderOne(t: string)
    ensures Render([t]) == "/" + Escape(t)
  {
    hide Escape;
    assert [t][1..] == [];
    assert Render([]) == "";
  }

  lemma TwoLevels(doc: Json, a: string, b: string, m: map<string, Json>, e: Edit)
    requires doc.Obj? && a in doc.members && doc.members[a] == Obj(m) && e.Add?
    ensures EditAt(doc, [a, b], e) == Some(Obj(doc.members[a := Obj(m[b := e.value])]))
  {
    assert [a, b][1..] == [b];
  }

  lemma ThreeLevelsAdd(doc: Json, a: string, b: string, k: string, m: map<string, Json>, n: map<string, Json>, e: Edit)
    requires doc.Obj? && a in doc.members && doc.members[a] == Obj(m) && b in m && m[b] == Obj(n) && e.Add?
    ensures EditAt(doc, [a, b, k], e) == Some(Obj(doc.members[a := Obj(m[b := Obj(n[k := e.value])])]))
  {
    assert [a, b, k][1..] == [b, k];
    TwoLevels(Obj(m), b, k, n, e);
  }

  lemma EncodeStringsUpdate(a: map<string, string>, k: string, v: string)
    ensures EncodeStrings(a[k := v]) == Obj(EncodeStrings(a).members[k := Str(v)])
  {
    assert EncodeStrings(a[k := v]).members == EncodeStrings(a).members[k := Str(v)];
  }

  /** Adding the marker to the metadata object, whichever of the two forms is emitted. */
  lemma MarkMeta(pod: Pod, doc: Json)
    requires !Marked(pod.annotations)
    requires doc.Obj? && METADATA in doc.members && doc.members[METADATA] == EncodeMeta(pod)
    ensures EditAt(doc, MarkTokens(pod.annotations), MarkOps(pod.annotations)[0].edit)
         == Some(Obj(doc.members[METADATA := EncodeMeta(pod.(annotations := pod.annotations[MANAGED := "true"]))]))
  {
    var a, e := pod.annotations, MarkOps(pod.annotations)[0].edit;
    var meta := EncodeMeta(pod).members;
    EncodeStringsUpdate(a, MANAGED, "true");
    if a == map[] {
      TwoLevels(doc, METADATA, ANNOTATIONS, meta, e);
      assert a[MANAGED := "true"] == map[MANAGED := "true"];
    } else {
      ThreeLevelsAdd(doc, METADATA, ANNOTATIONS, MANAGED, meta, EncodeStrings(a).members, e);
      var v := EncodeStrings(a[MANAGED := "true"]);
      assert meta[ANNOTATIONS := v] == pod.meta[ANNOTATIONS := v];
    }
  }

  lemma SetFirst(m: map<string, Json>, a: string, b: string, x: Json, y: Json, z: Json)
    requires a != b
    ensures m[a := x][b := y][a := z] == m[a := z][b := y]
    ensures m[a := x][b := y][a] == x
  {}

  lemma MarkEffect(pod: Pod, zs: seq<Zeros>)
    requires |zs| == |pod.containers|
    ensures Apply(EncodePod(pod, zs), MarkOps(pod.annotations))
         == Some(EncodePod(pod.(annotations := pod.annotations[MANAGED := "true"]), zs))
  {
    var a := pod.annotations;
    if Marked(a) {
      assert a[MANAGED := "true"] == a;
    } else {
      var marked := pod.(annotations := a[MANAGED := "true"]);
      var doc, ops := EncodePod(pod, zs), MarkOps(a);
      assert METADATA != SPEC by { assert METADATA[0] == 'm'; }
      SetFirst(pod.rest, METADATA, SPEC, EncodeMeta(pod), doc.members[SPEC], EncodeMeta(marked));
      MarkPath(a);
      MarkMeta(pod, doc);
      assert ops[1..] == [];
    }
  }
}
