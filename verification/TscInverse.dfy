/** What the tsc-controller stores about a workload's topology spread constraints, how the stored object is
    serialised, and the merge patch that brings the original value back. */
module TscInverse {
  import opened Basics
  import opened Json
  import opened JsonMergePatch

  /** A Go slice: nil is not the empty slice. */
  datatype Slice = Nil | Elems(items: seq<Json>)

  datatype TargetRef = TargetRef(apiVersion: string, kind: string, ns: string, name: string, uid: string)

  datatype Spec = Spec(target: TargetRef, original: Slice, present: bool)

  /** captureTSCOriginal: an absent field is stored as an empty list and a false flag. */
  function Captured(target: TargetRef, current: Slice): Spec {
    Spec(target, if current.Nil? then Elems([]) else current, !current.Nil?)
  }

  // ----- serialisation -----

  function EncodeTarget(t: TargetRef): Json {
    Obj(map["apiVersion" := Str(t.apiVersion), "kind" := Str(t.kind), "namespace" := Str(t.ns),
            "name" := Str(t.name), "uid" := Str(t.uid)])
  }

  /** omitempty leaves out an empty list, nil or not. */
  function EncodeSpec(s: Spec): Json {
    var base := map["targetRef" := EncodeTarget(s.target), "originalTSCsPresent" := Bool(s.present)];
    Obj(if s.original.Nil? || s.original.items == [] then base else base["originalTSCs" := Arr(s.original.items)])
  }

  function StringAt(m: map<string, Json>, key: string): string {
    if key in m && m[key].Str? then m[key].s else ""
  }

  function DecodeTarget(j: Json): TargetRef {
    var m := Members(j);
    TargetRef(StringAt(m, "apiVersion"), StringAt(m, "kind"), StringAt(m, "namespace"), StringAt(m, "name"), StringAt(m, "uid"))
  }

  function DecodeSpec(j: Json): Spec {
    var m := Members(j);
    Spec(DecodeTarget(if "targetRef" in m then m["targetRef"] else Null),
         if "originalTSCs" in m && m["originalTSCs"].Arr? then Elems(m["originalTSCs"].elems) else Nil,
         "originalTSCsPresent" in m && m["originalTSCsPresent"] == Bool(true))
  }

  lemma TargetRoundTrip(t: TargetRef)
    ensures DecodeTarget(EncodeTarget(t)) == t
  {
    assert "apiVersion"[0] == 'a' && "kind"[0] == 'k' && "uid"[0] == 'u';
    assert |"namespace"| == 9 && |"name"| == 4;
  }

  /** The one thing the serialisation loses is that an empty list is not nil; the flag makes up for it. */
  lemma SpecRoundTrip(s: Spec)
    ensures DecodeSpec(EncodeSpec(s)) == if s.original == Elems([]) then s.(original := Nil) else s
  {
    TargetRoundTrip(s.target);
    assert |"targetRef"| == 9 && |"originalTSCs"| == 12 && |"originalTSCsPresent"| == 19;
    hide EncodeTarget, DecodeTarget;
  }

  // ----- the inverse -----

  function InverseValue(s: Spec): Json {
    if !s.present then Null
    else if s.original.Nil? then Arr([])
    else Arr(s.original.items)
  }

  const TSC_PATH: seq<string> := ["spec", "template", "spec", "topologySpreadConstraints"]

  function Nest(path: seq<string>, v: Json): Json {
    if path == [] then v else Obj(map[path[0] := Nest(path[1..], v)])
  }

  function InverseBody(s: Spec): Json {
    Obj(map["spec" := Obj(map["template" := Obj(map["spec" := Obj(map["topologySpreadConstraints" := InverseValue(s)])])])])
  }

  lemma BodyIsNested(s: Spec)
    ensures InverseBody(s) == Nest(TSC_PATH, InverseValue(s))
  {
    var v := InverseValue(s);
    var p1, p2, p3 := TSC_PATH[1..], TSC_PATH[2..], TSC_PATH[3..];
    assert p1[1..] == p2 && p2[1..] == p3 && p3[1..] == [];
    assert Nest(p3, v) == Obj(map[p3[0] := Nest([], v)]);
    assert Nest(p2, v) == Obj(map[p2[0] := Nest(p3, v)]);
    assert Nest(p1, v) == Obj(map[p1[0] := Nest(p2, v)]);
    assert Nest(TSC_PATH, v) == Obj(map[TSC_PATH[0] := Nest(p1, v)]);
  }

  /** The value that a chain of object members leads to. */
  function ValueAt(j: Json, path: seq<string>): Option<Json> {
    if path == [] then Some(j)
    else if path[0] in Members(j) then ValueAt(Members(j)[path[0]], path[1..])
    else None
  }

  predicate Prefix(a: seq<string>, b: seq<string>) { |a| <= |b| && b[..|a|] == a }

  lemma {:induction false} NestedPatchHits(doc: Json, path: seq<string>, v: Json)
    requires path != [] && !v.Obj?
    ensures ValueAt(Merge(doc, Nest(path, v)), path) == if v.Null? then None else Some(v)
    decreases |path|
  {
    var k, rest := path[0], path[1..];
    var base := Members(doc);
    var r := Merge(doc, Nest(path, v));
    if rest == [] {
      assert Nest(path, v).members[k] == v;
      assert k in r.members <==> !v.Null?;
    } else {
      NestedPatchHits(if k in base then base[k] else Null, rest, v);
      assert r.members[k] == Merge(if k in base then base[k] else Null, Nest(rest, v));
    }
  }

  lemma {:induction false} NestedPatchMisses(doc: Json, path: seq<string>, v: Json, q: seq<string>)
    requires path != [] && !v.Obj? && !Prefix(q, path) && !Prefix(path, q)
    ensures ValueAt(Merge(doc, Nest(path, v)), q) == ValueAt(doc, q)
    decreases |path|
  {
    var k, rest := path[0], path[1..];
    var base := Members(doc);
    var r := Merge(doc, Nest(path, v));
    if q[0] == k {
      var first := q[..1];
      assert q == [k] + q[1..] && path == [k] + rest && first == [k];
      assert Prefix(q[1..], rest) ==> Prefix(q, path);
      assert Prefix(rest, q[1..]) ==> Prefix(path, q);
      assert rest != [];
      NestedPatchMisses(if k in base then base[k] else Null, rest, v, q[1..]);
      assert r.members[k] == Merge(if k in base then base[k] else Null, Nest(rest, v));
    } else {
      assert q[0] in r.members <==> q[0] in base;
    }
  }

  /** The field of a workload as the controller reads it. */
  function Constraints(doc: Json): Slice {
    match ValueAt(doc, TSC_PATH)
    case Some(Arr(items)) => Elems(items)
    case _ => Nil
  }

  /** Capture, storage and inverse bring back the captured value, whatever the workload has become meanwhile, and
      no other member of it changes. */
  lemma InverseRestores(target: TargetRef, current: Slice, doc: Json, q: seq<string>)
    ensures
      var stored := DecodeSpec(EncodeSpec(Captured(target, current)));
      var after := Merge(doc, InverseBody(stored));
      && Constraints(after) == current
      && (ValueAt(after, TSC_PATH).None? <==> current.Nil?)
      && (!Prefix(q, TSC_PATH) && !Prefix(TSC_PATH, q) ==> ValueAt(after, q) == ValueAt(doc, q))
  {
    var s := Captured(target, current);
    SpecRoundTrip(s);
    var stored := DecodeSpec(EncodeSpec(s));
    BodyIsNested(stored);
    NestedPatchHits(doc, TSC_PATH, InverseValue(stored));
    if !Prefix(q, TSC_PATH) && !Prefix(TSC_PATH, q) {
      NestedPatchMisses(doc, TSC_PATH, InverseValue(stored), q);
    }
    hide EncodeSpec, DecodeSpec, Merge, InverseBody, ValueAt, Prefix;
  }

  /** Any merge patch is idempotent; a rollback that is repeated does no harm. */
  lemma {:induction false} MergeTwice(doc: Json, patch: Json)
    ensures Merge(Merge(doc, patch), patch) == Merge(doc, patch)
    decreases patch
  {
    if patch.Obj? {
      var once := Merge(doc, patch);
      var base := Members(doc);
      forall k | k in once.members && k in patch.members
        ensures Merge(once.members[k], patch.members[k]) == once.members[k]
      {
        MergeTwice(if k in base then base[k] else Null, patch.members[k]);
      }
      assert Merge(once, patch).members == once.members;
    }
  }
}
