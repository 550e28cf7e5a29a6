/** Label selectors as the API server reads them, and the enrichment of a selector with extra labels. */
module Selectors {

  datatype Operator = In | NotIn | Exists | DoesNotExist | Unknown

  datatype Expr = Expr(key: string, op: Operator, values: set<string>)

  datatype Selector = Selector(labels: map<string, string>, exprs: seq<Expr>)

  type Labels = map<string, string>

  /** Whether a key and a value have the syntax the API server demands. */
  type Syntax = (string, string) -> bool

  predicate ValidExpr(e: Expr, ok: Syntax) {
    match e.op
    case In => e.values != {} && forall v :: v in e.values ==> ok(e.key, v)
    case NotIn => e.values != {} && forall v :: v in e.values ==> ok(e.key, v)
    case Exists => e.values == {} && ok(e.key, "")
    case DoesNotExist => e.values == {} && ok(e.key, "")
    case Unknown => false
  }

  /** LabelSelectorAsSelector succeeds. */
  predicate ValidSelector(s: Selector, ok: Syntax) {
    && (forall k :: k in s.labels ==> ok(k, s.labels[k]))
    && (forall e :: e in s.exprs ==> ValidExpr(e, ok))
  }

  predicate MatchesExpr(e: Expr, l: Labels) {
    match e.op
    case In => e.key in l && l[e.key] in e.values
    case NotIn => !(e.key in l && l[e.key] in e.values)
    case Exists => e.key in l
    case DoesNotExist => e.key !in l
    case Unknown => false
  }

  predicate Matches(s: Selector, l: Labels) {
    && (forall k :: k in s.labels ==> k in l && l[k] == s.labels[k])
    && (forall e :: e in s.exprs ==> MatchesExpr(e, l))
  }

  /** The operators against each other and against a plain label: In of one value is the label, of several values any of
      them; NotIn and DoesNotExist are the opposites of In and Exists. */
  lemma OperatorLaws(k: string, v: string, a: set<string>, b: set<string>, l: Labels)
    ensures MatchesExpr(Expr(k, In, {v}), l) <==> Matches(Selector(map[k := v], []), l)
    ensures MatchesExpr(Expr(k, In, a + b), l) <==> MatchesExpr(Expr(k, In, a), l) || MatchesExpr(Expr(k, In, b), l)
    ensures !MatchesExpr(Expr(k, In, {}), l)
    ensures MatchesExpr(Expr(k, NotIn, a), l) <==> !MatchesExpr(Expr(k, In, a), l)
    ensures MatchesExpr(Expr(k, Exists, {}), l) <==> exists w: string :: Matches(Selector(map[k := w], []), l)
    ensures MatchesExpr(Expr(k, DoesNotExist, {}), l) <==> !MatchesExpr(Expr(k, Exists, {}), l)
  {
    if k in l {
      assert Matches(Selector(map[k := l[k]], []), l);
    }
    assert forall w: string :: Matches(Selector(map[k := w], []), l) ==> map[k := w][k] == l[k];
  }

  /** A requirement is valid exactly when some labels meet it and some do not, its key and values have the right syntax, and
      Exists and DoesNotExist come without values. */
  lemma ValidExprMeans(e: Expr, ok: Syntax)
    ensures ValidExpr(e, ok) <==>
            && (exists l: Labels :: MatchesExpr(e, l)) && (exists l: Labels :: !MatchesExpr(e, l))
            && (e.op == In || e.op == NotIn ==> forall v :: v in e.values ==> ok(e.key, v))
            && (e.op == Exists || e.op == DoesNotExist ==> e.values == {} && ok(e.key, ""))
  {
    var none: Labels := map[];
    assert MatchesExpr(e, none) || !MatchesExpr(e, none);
    if e.values != {} {
      var v :| v in e.values;
      assert MatchesExpr(e, map[e.key := v]) || !MatchesExpr(e, map[e.key := v]);
    }
    assert MatchesExpr(e, map[e.key := ""]) || !MatchesExpr(e, map[e.key := ""]);
  }

  /** What the string form of a parsed selector distinguishes: the requirements, not their order. */
  datatype Canonical = Canonical(labels: map<string, string>, exprs: multiset<Expr>)

  function Canon(s: Selector): Canonical {
    Canonical(s.labels, multiset(s.exprs))
  }

  /** Selectors with the same canonical form are interchangeable. */
  lemma CanonDecides(a: Selector, b: Selector, ok: Syntax, l: Labels)
    requires Canon(a) == Canon(b)
    ensures ValidSelector(a, ok) == ValidSelector(b, ok)
    ensures Matches(a, l) == Matches(b, l)
  {
    assert forall e :: e in a.exprs <==> e in multiset(a.exprs);
    assert forall e :: e in b.exprs <==> e in multiset(b.exprs);
  }

  /** The extra labels: configured keys of the pod template that the selector does not constrain yet. */
  function Enrich(s: Selector, template: Labels, keys: seq<string>): Selector {
    s.(labels := s.labels + map k | k in template && k in keys && k !in s.labels :: template[k])
  }

  /** Enrichment is a fixpoint after one step. */
  lemma EnrichTwice(s: Selector, template: Labels, keys: seq<string>)
    ensures Enrich(Enrich(s, template, keys), template, keys) == Enrich(s, template, keys)
  {}

  /** Enrichment keeps matching the template it was made for, and never widens the selector. */
  lemma EnrichMatches(s: Selector, template: Labels, keys: seq<string>, l: Labels)
    ensures Matches(Enrich(s, template, keys), template) <==> Matches(s, template)
    ensures Matches(Enrich(s, template, keys), l) ==> Matches(s, l)
    ensures Matches(s, l) && (forall k :: k in keys && k in template && k !in s.labels ==> k in l && l[k] == template[k])
            ==> Matches(Enrich(s, template, keys), l)
  {
    var e := Enrich(s, template, keys);
    assert forall k :: k in s.labels ==> k in e.labels && e.labels[k] == s.labels[k];
  }

  /** A selector that enrichment changes gets a different canonical form. */
  lemma EnrichVisible(s: Selector, template: Labels, keys: seq<string>)
    ensures Canon(Enrich(s, template, keys)) == Canon(s) <==> Enrich(s, template, keys) == s
  {}

  lemma EnrichStep(s: Selector, template: Labels, keys: seq<string>, key: string)
    ensures
      var before := Enrich(s, template, keys).labels;
      Enrich(s, template, keys + [key]).labels
      == if key !in before && key in template then before[key := template[key]] else before
  {
    assert forall k :: k in keys + [key] <==> k in keys || k == key;
  }

  /** The loop over the configured keys. */
  method EnrichSelector(selector: Selector, template: Labels, keys: seq<string>) returns (enriched: Selector)
    ensures enriched == Enrich(selector, template, keys)
  {
    if |keys| == 0 || |template| == 0 {
      assert Enrich(selector, template, keys).labels == selector.labels;
      return selector;
    }
    var labels := selector.labels;
    assert Enrich(selector, template, []).labels == selector.labels;
    assert keys[..0] == [];
    for i := 0 to |keys|
      invariant labels == Enrich(selector, template, keys[..i]).labels
    {
      var key := keys[i];
      assert keys[..i + 1] == keys[..i] + [key];
      EnrichStep(selector, template, keys[..i], key);
      hide Enrich;
      if key in labels {
        continue;
      }
      if key in template {
        labels := labels[key := template[key]];
      }
    }
    assert keys[..|keys|] == keys;
    enriched := selector.(labels := labels);
  }
}

/** PodDisruptionBudgets, workloads, and one round of reconciliation as a function on the stored budgets. */
module PdbModel {
  import opened Basics
  import opened Selectors

  /** intstr.IntOrString. */
  datatype IntOrString = IntVal(n: int32) | StrVal(s: string)

  function Rendered(v: IntOrString): string {
    match v case IntVal(n) => ItoaSigned(n) case StrVal(s) => s
  }

  datatype EvictionPolicy = IfHealthyBudget | AlwaysAllow

  datatype PdbSpec = PdbSpec(selector: Option<Selector>, minAvailable: Option<IntOrString>,
                             maxUnavailable: Option<IntOrString>, policy: Option<EvictionPolicy>)

  datatype PdbStatus = PdbStatus(expectedPods: int, desiredHealthy: int, disruptionsAllowed: int)

  datatype Pdb = Pdb(ns: string, name: string, spec: PdbSpec, status: PdbStatus)

  const EMPTY_STATUS := PdbStatus(0, 0, 0)

  /** A Deployment or StatefulSet. The annotation values are as parsed: absent and unparsable are both None. */
  datatype Workload = Workload(
    statefulSet: bool, ns: string, name: string, labels: Labels, selector: Option<Selector>, template: Labels,
    replicas: Option<int32>, readyReplicas: int32, availableReplicas: int32, bypass: bool,
    minAnnotation: Option<IntOrString>, maxAnnotation: Option<IntOrString>, policyAnnotation: Option<EvictionPolicy>)

  /** The ConfigMap's values; `excluded` stands for the exclusion rules. */
  datatype Config = Config(
    defaultMin: Option<IntOrString>, defaultMax: Option<IntOrString>, defaultPolicy: Option<EvictionPolicy>,
    fixPoorPDBs: bool, extraKeys: seq<string>, excluded: (string, string, Labels) -> bool, ok: Syntax)

  // ----- names -----

  function PdbName(workload: string): string { "castai-" + workload + "-pdb" }

  predicate HasPrefix(s: string, p: string) { |s| >= |p| && s[..|p|] == p }

  predicate HasSuffix(s: string, p: string) { |s| >= |p| && s[|s| - |p|..] == p }

  predicate Owned(name: string) { HasPrefix(name, "castai-") && HasSuffix(name, "-pdb") }

  predicate HelmStyle(name: string) { HasPrefix(name, "castai-") && !HasSuffix(name, "-pdb") }

  lemma PdbNameIsOwned(workload: string)
    ensures Owned(PdbName(workload))
  {
    var n := PdbName(workload);
    assert n == "castai-" + (workload + "-pdb");
    assert n[..7] == "castai-";
  }

  // ----- budgets -----

  predicate SameRendering(a: Option<IntOrString>, b: Option<IntOrString>) {
    (a.Some? <==> b.Some?) && (a.Some? ==> Rendered(a.value) == Rendered(b.value))
  }

  predicate NeedsUpdate(have: PdbSpec, want: PdbSpec) {
    || !SameRendering(have.minAvailable, want.minAvailable)
    || !SameRendering(have.maxUnavailable, want.maxUnavailable)
    || have.policy != want.policy
  }

  /** Annotations win over the ConfigMap, both values together. */
  function Resolved(cfg: Config, w: Workload): (Option<IntOrString>, Option<IntOrString>) {
    if w.minAnnotation.None? && w.maxAnnotation.None? then (cfg.defaultMin, cfg.defaultMax)
    else (w.minAnnotation, w.maxAnnotation)
  }

  function Policy(cfg: Config, w: Workload): Option<EvictionPolicy> {
    if w.policyAnnotation.Some? then w.policyAnnotation else cfg.defaultPolicy
  }

  function Enriched(cfg: Config, w: Workload, s: Selector): Selector { Enrich(s, w.template, cfg.extraKeys) }

  /** The create path: nothing when both values are set, minAvailable 1 when neither is. */
  function CreateSpec(cfg: Config, w: Workload): Option<PdbSpec>
    requires w.selector.Some?
  {
    var (min, max) := Resolved(cfg, w);
    var selector := Some(Enriched(cfg, w, w.selector.value));
    if min.Some? && max.Some? then None
    else if min.None? && max.None? then Some(PdbSpec(selector, Some(IntVal(1)), None, Policy(cfg, w)))
    else Some(PdbSpec(selector, min, max, Policy(cfg, w)))
  }

  /** The update path: minAvailable wins when both are set, and neither stays neither. */
  function UpdateSpec(cfg: Config, w: Workload, selector: Selector): PdbSpec {
    var (min, max) := Resolved(cfg, w);
    PdbSpec(Some(selector), min, if min.Some? then None else max, Policy(cfg, w))
  }

  predicate IsSpace(c: char) {
    c in "\t\n\U{b}\U{c}\r \U{85}\U{a0}\U{1680}\U{2028}\U{2029}\U{202f}\U{205f}\U{3000}" || '\U{2000}' <= c <= '\U{200a}'
  }

  /** strings.TrimSpace. */
  function Trim(s: string): string {
    if s == "" then ""
    else if IsSpace(s[0]) then Trim(s[1..])
    else if IsSpace(s[|s| - 1]) then Trim(s[..|s| - 1])
    else s
  }

  predicate Poor(spec: PdbSpec, replicas: int32) {
    || (spec.minAvailable.Some? &&
        match spec.minAvailable.value case IntVal(n) => n == replicas case StrVal(s) => Trim(s) == "100%")
    || (spec.maxUnavailable.Some? &&
        match spec.maxUnavailable.value case IntVal(n) => n == 0 case StrVal(s) => Trim(s) == "0%")
  }

  // ----- the store -----

  predicate Unique(s: seq<Pdb>) {
    forall i, j :: 0 <= i < j < |s| ==> s[i].ns != s[j].ns || s[i].name != s[j].name
  }

  /** Index of the first element satisfying f, or the length. */
  function First(s: seq<Pdb>, f: Pdb -> bool): (i: nat)
    ensures i <= |s|
    ensures forall k :: 0 <= k < i ==> !f(s[k])
    ensures i < |s| ==> f(s[i])
  {
    if s == [] || f(s[0]) then 0 else 1 + First(s[1..], f)
  }

  function Filter(s: seq<Pdb>, f: Pdb -> bool): (r: seq<Pdb>)
    ensures forall p :: p in r <==> p in s && f(p)
  {
    if s == [] then [] else (if f(s[0]) then [s[0]] else []) + Filter(s[1..], f)
  }

  function Remove(s: seq<Pdb>, i: nat): seq<Pdb>
    requires i < |s|
  {
    s[..i] + s[i + 1..]
  }

  function Named(ns: string, name: string): Pdb -> bool { (p: Pdb) => p.ns == ns && p.name == name }

  function RemoveNamed(s: seq<Pdb>, ns: string, name: string): seq<Pdb> {
    var i := First(s, Named(ns, name));
    if i < |s| then Remove(s, i) else s
  }

  predicate StringLess(a: string, b: string) {
    if b == "" then false
    else if a == "" then true
    else if a[0] != b[0] then a[0] < b[0]
    else StringLess(a[1..], b[1..])
  }

  predicate ListedBefore(p: Pdb, q: Pdb) {
    if p.ns != q.ns then StringLess(p.ns, q.ns) else StringLess(p.name, q.name)
  }

  /** Where a created object appears in a listing, which the API server keeps in the order of namespace and name. */
  function Position(s: seq<Pdb>, p: Pdb): (i: nat)
    ensures i <= |s|
  {
    if s == [] || ListedBefore(p, s[0]) then 0 else 1 + Position(s[1..], p)
  }

  function Insert(s: seq<Pdb>, p: Pdb): seq<Pdb> { s[..Position(s, p)] + [p] + s[Position(s, p)..] }

  // ----- coverage -----

  /** The budget's selector is valid and matches the pod template, in the workload's namespace. */
  predicate Covers(cfg: Config, w: Workload, p: Pdb) {
    p.ns == w.ns && p.spec.selector.Some? && ValidSelector(p.spec.selector.value, cfg.ok)
    && Matches(p.spec.selector.value, w.template)
  }

  function ForeignCover(cfg: Config, w: Workload): Pdb -> bool { (p: Pdb) => Covers(cfg, w, p) && !Owned(p.name) }

  function HelmCover(cfg: Config, w: Workload): Pdb -> bool { (p: Pdb) => Covers(cfg, w, p) && HelmStyle(p.name) }

  function OwnedCover(cfg: Config, w: Workload): Pdb -> bool { (p: Pdb) => Covers(cfg, w, p) && Owned(p.name) }

  function NotOwnedCover(cfg: Config, w: Workload): Pdb -> bool { (p: Pdb) => !OwnedCover(cfg, w)(p) }

  function ExactCover(cfg: Config, w: Workload): Pdb -> bool {
    (p: Pdb) => OwnedCover(cfg, w)(p) && w.selector.Some? && Canon(p.spec.selector.value) == Canon(Enriched(cfg, w, w.selector.value))
  }

  /** The controller's budget to keep: the first with exactly the workload's selector, else the first. */
  function Pick(cfg: Config, w: Workload, s: seq<Pdb>): nat {
    var e := First(s, ExactCover(cfg, w));
    if e < |s| then e else First(s, OwnedCover(cfg, w))
  }

  function Slot(w: Workload): Pdb -> bool { Named(w.ns, PdbName(w.name)) }

  // ----- one round -----

  /** A round ends the reconciliation or, after deleting a budget, starts it over. */
  datatype Outcome = Done(pdbs: seq<Pdb>) | Again(pdbs: seq<Pdb>)

  predicate UnderReplicated(w: Workload) { w.replicas.None? || w.replicas.value < 2 }

  predicate Ready(w: Workload) {
    var desired := if w.replicas.Some? then w.replicas.value else 1;
    var available := if w.statefulSet then w.readyReplicas else w.availableReplicas;
    desired >= 2 && w.readyReplicas >= desired && available >= desired
  }

  /** The controller looks after this workload's budget. */
  predicate Managed(cfg: Config, w: Workload) {
    && !UnderReplicated(w) && !w.bypass && !cfg.excluded(w.ns, w.name, w.labels)
    && w.selector.Some? && ValidSelector(Enriched(cfg, w, w.selector.value), cfg.ok)
  }

  /** FixPoorPDBs applies to the budget just written. */
  predicate Fixes(cfg: Config, w: Workload, spec: PdbSpec) {
    cfg.fixPoorPDBs && !w.bypass && w.replicas.Some? && Poor(spec, w.replicas.value)
  }

  function AfterWrite(cfg: Config, w: Workload, s: seq<Pdb>, i: nat): Outcome
    requires i < |s|
  {
    if Fixes(cfg, w, s[i].spec) then Again(Remove(s, i)) else Done(s)
  }

  function UpdateRound(cfg: Config, w: Workload, s: seq<Pdb>, i: nat): Outcome
    requires i < |s| && w.selector.Some?
  {
    var p := s[i];
    if p.spec.selector.None? || !ValidSelector(p.spec.selector.value, cfg.ok) then Again(Remove(s, i))
    else
      var selector := Enriched(cfg, w, p.spec.selector.value);
      if !ValidSelector(selector, cfg.ok) then Done(s)
      else if Canon(selector) != Canon(p.spec.selector.value) then Again(Remove(s, i))
      else
        var spec := UpdateSpec(cfg, w, selector);
        if NeedsUpdate(p.spec, spec) then AfterWrite(cfg, w, s[i := p.(spec := spec)], i) else Done(s)
  }

  function CreateAt(cfg: Config, w: Workload, s: seq<Pdb>, spec: PdbSpec): Outcome {
    var p := Pdb(w.ns, PdbName(w.name), spec, EMPTY_STATUS);
    assert Insert(s, p)[Position(s, p)] == p;
    AfterWrite(cfg, w, Insert(s, p), Position(s, p))
  }

  /** The create path once no budget covers the template: the name may still be taken. */
  function CreateRound(cfg: Config, w: Workload, s: seq<Pdb>): Outcome
    requires w.selector.Some?
  {
    var j := First(s, Slot(w));
    match CreateSpec(cfg, w)
    case None => Done(s)
    case Some(spec) =>
      if j == |s| then CreateAt(cfg, w, s, spec)
      else
        var p := s[j];
        if p.spec.selector.Some? && !ValidSelector(p.spec.selector.value, cfg.ok) then Done(s)
        else if p.spec.selector.Some? && Canon(p.spec.selector.value) != Canon(spec.selector.value) then
          CreateAt(cfg, w, Remove(s, j), spec)
        else if NeedsUpdate(p.spec, spec) then AfterWrite(cfg, w, s[j := p.(spec := spec)], j)
        else Done(s)
  }

  /** With a CAST Helm-style budget among the covering ones, the controller's covering budgets go. */
  function DropLeftovers(cfg: Config, w: Workload, s: seq<Pdb>): seq<Pdb> {
    if First(s, HelmCover(cfg, w)) < |s| then Filter(s, NotOwnedCover(cfg, w)) else s
  }

  function Round(cfg: Config, w: Workload, s: seq<Pdb>): Outcome {
    if UnderReplicated(w) then Done(RemoveNamed(s, w.ns, PdbName(w.name)))
    else if !Managed(cfg, w) then Done(s)
    else if First(s, ForeignCover(cfg, w)) < |s| then Done(DropLeftovers(cfg, w, s))
    else if Pick(cfg, w, s) < |s| then UpdateRound(cfg, w, s, Pick(cfg, w, s))
    else if !Ready(w) then Done(s)
    else CreateRound(cfg, w, s)
  }
}
