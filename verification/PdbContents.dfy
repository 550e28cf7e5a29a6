/** What the controller writes into a budget and when, and what a poor budget is. Nothing here mentions the functions that
    resolve policies and values, except to say what they lead to. */
module PdbContents {
  import opened Basics
  import opened Selectors
  import opened PdbModel
  import opened PdbTheorems
  import opened PdbIdempotence

  // ----- what a reconciliation writes -----

  /** The annotation's policy when there is one, else the ConfigMap's. */
  predicate TakesPolicy(cfg: Config, w: Workload, spec: PdbSpec) {
    && (w.policyAnnotation.Some? ==> spec.policy == w.policyAnnotation)
    && (w.policyAnnotation.None? ==> spec.policy == cfg.defaultPolicy)
  }

  /** One annotated value is enough to leave the ConfigMap out of it; each value goes to its own field, and minAvailable
      is taken when both are there. `neither` is what stands for no value at all. */
  predicate TakesValues(cfg: Config, w: Workload, spec: PdbSpec, neither: Option<IntOrString>) {
    if w.minAnnotation.Some? then spec.minAvailable == w.minAnnotation && spec.maxUnavailable.None?
    else if w.maxAnnotation.Some? then spec.minAvailable.None? && spec.maxUnavailable == w.maxAnnotation
    else if cfg.defaultMin.Some? then spec.minAvailable == cfg.defaultMin && spec.maxUnavailable.None?
    else if cfg.defaultMax.Some? then spec.minAvailable.None? && spec.maxUnavailable == cfg.defaultMax
    else spec.minAvailable == neither && spec.maxUnavailable.None?
  }

  predicate BothGiven(cfg: Config, w: Workload) {
    if w.minAnnotation.None? && w.maxAnnotation.None? then cfg.defaultMin.Some? && cfg.defaultMax.Some?
    else w.minAnnotation.Some? && w.maxAnnotation.Some?
  }

  /** At least two replicas are wanted and all of them are ready; a Deployment also reports them available. */
  predicate AllUp(w: Workload) {
    && w.replicas.Some? && w.replicas.value >= 2 && w.readyReplicas >= w.replicas.value
    && (!w.statefulSet ==> w.availableReplicas >= w.replicas.value)
  }

  /** The workload's own selector, with the configured labels of its template. */
  ghost predicate SelectsFor(cfg: Config, w: Workload, basis: Selector, spec: PdbSpec) {
    && spec.selector.Some? && spec.selector.value.exprs == basis.exprs
    && (forall k :: k in spec.selector.value.labels <==> k in basis.labels || (k in cfg.extraKeys && k in w.template))
    && (forall k :: k in spec.selector.value.labels ==>
          spec.selector.value.labels[k] == if k in basis.labels then basis.labels[k] else w.template[k])
  }

  /** p is the controller's budget for the workload as the create path writes it. */
  ghost predicate CreatedFor(cfg: Config, w: Workload, p: Pdb) {
    && p.ns == w.ns && p.name == "castai-" + w.name + "-pdb" && AllUp(w) && !BothGiven(cfg, w)
    && w.selector.Some? && SelectsFor(cfg, w, w.selector.value, p.spec)
    && TakesPolicy(cfg, w, p.spec) && TakesValues(cfg, w, p.spec, Some(IntVal(1)))
  }

  /** p is q with another specification: q covers the workload and is the controller's. */
  ghost predicate UpdateOf(cfg: Config, w: Workload, q: Pdb, p: Pdb) {
    && p == q.(spec := p.spec) && Covers(cfg, w, q) && Owned(q.name)
    && SelectsFor(cfg, w, q.spec.selector.value, p.spec)
    && TakesPolicy(cfg, w, p.spec) && TakesValues(cfg, w, p.spec, None)
  }

  predicate LooksAfter(cfg: Config, w: Workload) {
    && w.replicas.Some? && w.replicas.value >= 2 && !w.bypass && !cfg.excluded(w.ns, w.name, w.labels) && w.selector.Some?
  }

  ghost predicate WrittenFor(cfg: Config, w: Workload, s: seq<Pdb>, p: Pdb) {
    && LooksAfter(cfg, w)
    && (CreatedFor(cfg, w, p) || exists q :: q in s && UpdateOf(cfg, w, q, p))
    && !(cfg.fixPoorPDBs && Poor(p.spec, w.replicas.value))
  }

  lemma ManagedMeans(cfg: Config, w: Workload)
    ensures Managed(cfg, w) ==> LooksAfter(cfg, w)
    ensures Managed(cfg, w) ==> (Ready(w) <==> AllUp(w))
  {
    hide ValidSelector, Enriched;
  }

  lemma SpecsTake(cfg: Config, w: Workload, basis: Selector)
    requires w.selector.Some?
    ensures CreateSpec(cfg, w).None? <==> BothGiven(cfg, w)
    ensures CreateSpec(cfg, w).Some? ==>
      var spec := CreateSpec(cfg, w).value;
      SelectsFor(cfg, w, w.selector.value, spec) && TakesPolicy(cfg, w, spec) && TakesValues(cfg, w, spec, Some(IntVal(1)))
    ensures
      var spec := UpdateSpec(cfg, w, Enriched(cfg, w, basis));
      SelectsFor(cfg, w, basis, spec) && TakesPolicy(cfg, w, spec) && TakesValues(cfg, w, spec, None)
  {}

  lemma UpdateWrites(cfg: Config, w: Workload, s: seq<Pdb>, i: nat, p: Pdb)
    requires i < |s| && LooksAfter(cfg, w) && OwnedCover(cfg, w)(s[i])
    requires UpdateRound(cfg, w, s, i).Done? && p in UpdateRound(cfg, w, s, i).pdbs && p !in s
    ensures WrittenFor(cfg, w, s, p)
  {
    var q := s[i];
    var spec := UpdateSpec(cfg, w, Enriched(cfg, w, q.spec.selector.value));
    SpecsTake(cfg, w, q.spec.selector.value);
    hide UpdateSpec, CreateSpec, Canon, ValidSelector, Matches, Owned, Poor, TakesPolicy, TakesValues, SelectsFor, NeedsUpdate, Enriched;
    assert UpdateRound(cfg, w, s, i) == AfterWrite(cfg, w, s[i := q.(spec := spec)], i);
    assert p == q.(spec := spec);
    assert q in s && UpdateOf(cfg, w, q, p);
  }

  lemma CreateWrites(cfg: Config, w: Workload, s: seq<Pdb>, p: Pdb)
    requires Unique(s) && Managed(cfg, w) && Ready(w) && NoForeign(cfg, w, s) && NoneOwned(cfg, w, s)
    requires CreateRound(cfg, w, s).Done? && p in CreateRound(cfg, w, s).pdbs && p !in s
    ensures WrittenFor(cfg, w, s, p)
  {
    CreateReaches(cfg, w, s);
    assert Reaches(cfg, w, s);
    ReachesMeans(cfg, w, s);
    ManagedMeans(cfg, w);
    SpecsTake(cfg, w, w.selector.value);
    hide CreateRound, Reaches, Managed, Ready, CreateSpec, UpdateSpec, Poor, TakesPolicy, TakesValues, SelectsFor, Unique, NoForeign,
         NoneOwned, BothGiven, AllUp;
    var spec := CreateSpec(cfg, w).value;
    var r, j := RemoveNamed(s, w.ns, PdbName(w.name)), First(s, Slot(w));
    InsertAt(r, Fresh(cfg, w));
    NoNewMembers(s, w.ns, PdbName(w.name));
    hide RemoveNamed, Insert, Position, First, UpdateOf;
    assert PdbName(w.name) == "castai-" + w.name + "-pdb";
    hide PdbName;
    if CreateRound(cfg, w, s) == CreateAt(cfg, w, r, spec) {
      assert p == Fresh(cfg, w);
    } else {
      assert p == s[j].(spec := spec);
    }
    assert p.spec == spec;
    assert CreatedFor(cfg, w, p);
  }

  lemma NoNewMembers(s: seq<Pdb>, ns: string, name: string)
    ensures forall p :: p in RemoveNamed(s, ns, name) ==> p in s
  {
    var i := First(s, Named(ns, name));
    if i < |s| {
      RemoveMembers(s, i);
    }
  }

  lemma RoundWrites(cfg: Config, w: Workload, s: seq<Pdb>, p: Pdb)
    requires Unique(s) && Round(cfg, w, s).Done? && p in Round(cfg, w, s).pdbs && p !in s
    ensures WrittenFor(cfg, w, s, p)
  {
    NoNewMembers(s, w.ns, PdbName(w.name));
    FirstExists(s, ForeignCover(cfg, w));
    PickIsOwned(cfg, w, s);
    ManagedMeans(cfg, w);
    hide CreateRound, UpdateRound, Pick, RemoveNamed, Managed, Ready, OwnedCover, ForeignCover, HelmCover, NotOwnedCover, WrittenFor,
         LooksAfter, Unique, PdbName;
    if Pick(cfg, w, s) < |s| {
      UpdateWrites(cfg, w, s, Pick(cfg, w, s), p);
    } else {
      CreateWrites(cfg, w, s, p);
    }
  }

  /** Whatever budget a reconciliation leaves that was not there before was created for the workload or updates one that
      covers it, and carries the policy and the values it should. With FixPoorPDBs on it is not poor. */
  lemma {:induction false} WrittenBudgets(cfg: Config, w: Workload, s: seq<Pdb>, p: Pdb)
    requires Unique(s) && !Diverges(cfg, w, s) && p in Reconcile(cfg, w, s) && p !in s
    ensures WrittenFor(cfg, w, s, p)
    decreases OwnedCount(s)
  {
    hide Round, Diverges, LooksAfter, CreatedFor, UpdateOf, Pick, OwnedCover, Discards, Reaches, Unique;
    match Round(cfg, w, s)
    case Done(r) => RoundWrites(cfg, w, s, p);
    case Again(r) =>
      AgainShrinks(cfg, w, s);
      RemoveMembers(s, Pick(cfg, w, s));
      WrittenBudgets(cfg, w, r, p);
  }

  // ----- when a budget is created, and when nothing happens -----

  /** A workload with two replicas or more that is bypassed, excluded or without a selector is left alone. */
  lemma LeftAlone(cfg: Config, w: Workload, s: seq<Pdb>)
    requires Unique(s) && w.replicas.Some? && w.replicas.value >= 2
    requires w.bypass || cfg.excluded(w.ns, w.name, w.labels) || w.selector.None?
    ensures !Diverges(cfg, w, s) && Reconcile(cfg, w, s) == s
  {
    assert Round(cfg, w, s) == Done(s);
    EndedNeverDiverges(cfg, w, s);
    hide Reconcile, Round, Diverges;
  }

  /** No budget covers the workload and its own name is free: a budget is created exactly when all replicas are up and
      not both values are given. */
  lemma CreatedExactlyWhen(cfg: Config, w: Workload, s: seq<Pdb>)
    requires Unique(s) && !Diverges(cfg, w, s) && LooksAfter(cfg, w)
    requires ValidSelector(Enriched(cfg, w, w.selector.value), cfg.ok)
    requires forall p :: p in s ==> !Covers(cfg, w, p) && !(p.ns == w.ns && p.name == "castai-" + w.name + "-pdb")
    ensures AllUp(w) && !BothGiven(cfg, w) <==> exists p :: p in Reconcile(cfg, w, s) && p !in s
    ensures !(AllUp(w) && !BothGiven(cfg, w)) ==> Reconcile(cfg, w, s) == s
    ensures AllUp(w) && !BothGiven(cfg, w) ==>
      exists p :: p in Reconcile(cfg, w, s) && CreatedFor(cfg, w, p) && forall q :: q in Reconcile(cfg, w, s) <==> q in s || q == p
  {
    ManagedMeans(cfg, w);
    SpecsTake(cfg, w, w.selector.value);
    assert Managed(cfg, w) && NoForeign(cfg, w, s) && NoneOwned(cfg, w, s);
    assert PdbName(w.name) == "castai-" + w.name + "-pdb";
    OnlySlot(s, w);
    hide Covers, Managed, PdbName, LooksAfter, TakesPolicy, TakesValues, SelectsFor, CreateSpec, ValidSelector, Ready, BothGiven, AllUp;
    if AllUp(w) {
      RoundCreates(cfg, w, s);
      if !BothGiven(cfg, w) {
        CreateEnds(cfg, w, s);
        EndedNeverDiverges(cfg, w, s);
        NewBudget(cfg, w, s);
      } else {
        EndedNeverDiverges(cfg, w, s);
      }
    } else {
      NotReadyRound(cfg, w, s);
      EndedNeverDiverges(cfg, w, s);
    }
  }

  lemma NewBudget(cfg: Config, w: Workload, s: seq<Pdb>)
    requires w.selector.Some? && CreateSpec(cfg, w).Some? && First(s, Slot(w)) == |s|
    ensures
      var p := Fresh(cfg, w);
      CreateRound(cfg, w, s).Done? ==>
        p.ns == w.ns && p.name == PdbName(w.name) && p.spec == CreateSpec(cfg, w).value
        && forall q :: q in CreateRound(cfg, w, s).pdbs <==> q in s || q == p
  {
    InsertAt(s, Fresh(cfg, w));
    hide CreateSpec, Position, Insert, Fixes;
  }

  /** Once a round changes nothing, the controller's budget that covers the workload has the policy it should, and
      values that print like those it should have, unless its enriched selector is no valid one. */
  lemma SettledBudget(cfg: Config, w: Workload, r: seq<Pdb>)
    requires Unique(r) && Round(cfg, w, r) == Done(r) && LooksAfter(cfg, w)
    requires ValidSelector(Enriched(cfg, w, w.selector.value), cfg.ok)
    requires (forall p :: p in r && Covers(cfg, w, p) ==> Owned(p.name)) && exists p :: p in r && Covers(cfg, w, p)
    ensures exists p ::
      && p in r && Covers(cfg, w, p)
      && (ValidSelector(Enriched(cfg, w, p.spec.selector.value), cfg.ok) ==>
            TakesPolicy(cfg, w, p.spec)
            && exists spec :: TakesValues(cfg, w, spec, None) && SameRendering(p.spec.minAvailable, spec.minAvailable)
                              && SameRendering(p.spec.maxUnavailable, spec.maxUnavailable))
  {
    ManagedMeans(cfg, w);
    var c :| c in r && Covers(cfg, w, c);
    assert OwnedCover(cfg, w)(c);
    RoundUpdates(cfg, w, r);
    PickIsOwned(cfg, w, r);
    var i := Pick(cfg, w, r);
    var p := r[i];
    var spec := UpdateSpec(cfg, w, Enriched(cfg, w, p.spec.selector.value));
    SpecsTake(cfg, w, p.spec.selector.value);
    assert p in r;
    SettledNeedsNothing(cfg, w, r, i);
    hide Round, Pick, UpdateSpec, UpdateRound, Enriched, Owned, Canon, LooksAfter, TakesValues, Unique, ValidSelector, Matches;
  }

  lemma SettledNeedsNothing(cfg: Config, w: Workload, r: seq<Pdb>, i: nat)
    requires i < |r| && w.selector.Some? && OwnedCover(cfg, w)(r[i]) && UpdateRound(cfg, w, r, i) == Done(r)
    ensures
      var basis := r[i].spec.selector.value;
      ValidSelector(Enriched(cfg, w, basis), cfg.ok) ==> !NeedsUpdate(r[i].spec, UpdateSpec(cfg, w, Enriched(cfg, w, basis)))
  {
    AgainIsShorter(r, i);
    var spec := UpdateSpec(cfg, w, Enriched(cfg, w, r[i].spec.selector.value));
    assert r[i := r[i].(spec := spec)][i].spec == spec;
    NeverNeedsItself(spec);
    hide UpdateSpec, Enriched, Owned, Canon, Fixes, ValidSelector, Matches, NeedsUpdate, Remove;
  }

  lemma AgainIsShorter(s: seq<Pdb>, i: nat)
    requires i < |s|
    ensures Remove(s, i) != s
  {}

  // ----- what goes and what stays -----

  /** Without a replica count of two or more, the budget of the workload's name goes and nothing else changes. */
  lemma TooFewReplicas(cfg: Config, w: Workload, s: seq<Pdb>)
    requires Unique(s) && (w.replicas.None? || w.replicas.value < 2)
    ensures !Diverges(cfg, w, s)
    ensures forall p :: p in Reconcile(cfg, w, s) <==> p in s && !(p.ns == w.ns && p.name == "castai-" + w.name + "-pdb")
  {
    assert PdbName(w.name) == "castai-" + w.name + "-pdb";
    EndedNeverDiverges(cfg, w, s);
    NoSlotLeft(s, w);
    var j := First(s, Slot(w));
    if j < |s| {
      RemoveMembers(s, j);
    } else {
      FirstExists(s, Slot(w));
    }
    hide Reconcile, PdbName, Diverges, First;
  }

  /** With a budget of someone else covering the workload, nothing is written; the controller's own covering budgets go if
      one of the covering budgets is Helm-style. */
  lemma ForeignBudgetFirst(cfg: Config, w: Workload, s: seq<Pdb>)
    requires Unique(s) && LooksAfter(cfg, w) && ValidSelector(Enriched(cfg, w, w.selector.value), cfg.ok)
    requires exists p :: p in s && Covers(cfg, w, p) && !Owned(p.name)
    ensures !Diverges(cfg, w, s)
    ensures forall p :: p in Reconcile(cfg, w, s) <==>
              p in s && !(Covers(cfg, w, p) && Owned(p.name) && exists q :: q in s && Covers(cfg, w, q) && HelmStyle(q.name))
  {
    var f :| f in s && Covers(cfg, w, f) && !Owned(f.name);
    assert ForeignCover(cfg, w)(f);
    assert Managed(cfg, w) && !NoForeign(cfg, w, s);
    RoundDrops(cfg, w, s);
    EndedNeverDiverges(cfg, w, s);
    hide Reconcile, Round, Diverges, Covers, Owned, HelmStyle, Unique, LooksAfter, DropLeftovers;
    OwnedGo(cfg, w, s);
  }

  lemma OwnedGo(cfg: Config, w: Workload, s: seq<Pdb>)
    ensures forall p :: p in DropLeftovers(cfg, w, s) <==>
              p in s && !(Covers(cfg, w, p) && Owned(p.name) && exists q :: q in s && Covers(cfg, w, q) && HelmStyle(q.name))
  {
    HelmCovers(cfg, w, s);
    hide Covers, Owned, HelmStyle, First, HelmCover, NotOwnedCover;
    forall p: Pdb ensures NotOwnedCover(cfg, w)(p) <==> !(Covers(cfg, w, p) && Owned(p.name)) {
      NotOwnedMeans(cfg, w, p);
    }
  }

  lemma NotOwnedMeans(cfg: Config, w: Workload, p: Pdb)
    ensures NotOwnedCover(cfg, w)(p) <==> !(Covers(cfg, w, p) && Owned(p.name))
  {
    assert OwnedCover(cfg, w)(p) <==> Covers(cfg, w, p) && Owned(p.name);
  }

  lemma HelmCovers(cfg: Config, w: Workload, s: seq<Pdb>)
    ensures First(s, HelmCover(cfg, w)) < |s| <==> exists q :: q in s && Covers(cfg, w, q) && HelmStyle(q.name)
  {
    hide Covers, HelmStyle;
    FirstExists(s, HelmCover(cfg, w));
    if exists q :: q in s && Covers(cfg, w, q) && HelmStyle(q.name) {
      var q :| q in s && Covers(cfg, w, q) && HelmStyle(q.name);
      assert HelmCover(cfg, w)(q);
    }
  }

  /** The budget has exactly the workload's enriched selector. */
  predicate Exact(cfg: Config, w: Workload, p: Pdb)
    requires w.selector.Some?
  {
    Covers(cfg, w, p) && Owned(p.name) && Canon(p.spec.selector.value) == Canon(Enriched(cfg, w, w.selector.value))
  }

  /** Only the controller's own budgets cover the workload. If those with exactly its selector hold what they should, and
      there is one, nothing is written or deleted, however many other ones there are. */
  lemma ExactBudgetSuffices(cfg: Config, w: Workload, s: seq<Pdb>)
    requires Unique(s) && LooksAfter(cfg, w) && ValidSelector(Enriched(cfg, w, w.selector.value), cfg.ok)
    requires forall p :: p in s && Covers(cfg, w, p) ==> Owned(p.name)
    requires exists p :: p in s && Exact(cfg, w, p)
    requires forall p :: p in s && Exact(cfg, w, p) ==> TakesPolicy(cfg, w, p.spec) && TakesValues(cfg, w, p.spec, None)
    ensures !Diverges(cfg, w, s) && Reconcile(cfg, w, s) == s
  {
    var e :| e in s && Exact(cfg, w, e);
    assert OwnedCover(cfg, w)(e) && ExactCover(cfg, w)(e);
    assert Managed(cfg, w) && NoForeign(cfg, w, s) && !NoneOwned(cfg, w, s);
    RoundUpdates(cfg, w, s);
    FirstExists(s, ExactCover(cfg, w));
    var i := Pick(cfg, w, s);
    var p := s[i];
    assert ExactCover(cfg, w)(p) && p in s && Exact(cfg, w, p);
    ExactNeedsNothing(cfg, w, p);
    hide Enriched, Covers, Exact, Canon, TakesPolicy, TakesValues, NeedsUpdate, UpdateSpec, Unique, ValidSelector, LooksAfter, Pick, First;
    assert UpdateRound(cfg, w, s, i) == Done(s);
    EndedNeverDiverges(cfg, w, s);
    hide Round, UpdateRound, Diverges, Reconcile;
  }

  lemma ExactNeedsNothing(cfg: Config, w: Workload, p: Pdb)
    requires w.selector.Some? && ValidSelector(Enriched(cfg, w, w.selector.value), cfg.ok) && Exact(cfg, w, p)
    requires TakesPolicy(cfg, w, p.spec) && TakesValues(cfg, w, p.spec, None)
    ensures
      var basis := p.spec.selector.value;
      && ValidSelector(basis, cfg.ok) && ValidSelector(Enriched(cfg, w, basis), cfg.ok)
      && Canon(Enriched(cfg, w, basis)) == Canon(basis)
      && !NeedsUpdate(p.spec, UpdateSpec(cfg, w, Enriched(cfg, w, basis)))
  {
    var basis, own := p.spec.selector.value, Enriched(cfg, w, w.selector.value);
    EnrichTwice(w.selector.value, w.template, cfg.extraKeys);
    assert Enriched(cfg, w, basis).labels == Enriched(cfg, w, own).labels;
    assert Enriched(cfg, w, basis) == basis;
    CanonDecides(basis, own, cfg.ok, w.template);
    hide Enriched, Canon, ValidSelector, Matches, Owned;
  }

  // ----- names -----

  /** A name with the prefix castai- is the controller's own or Helm-style, never both, and the controller's own when
      it also has the suffix; no other name is either. */
  lemma NameClasses(name: string)
    ensures Owned(name) <==> (exists x :: name == "castai-" + x) && exists y :: name == y + "-pdb"
    ensures HelmStyle(name) <==> (exists x :: name == "castai-" + x) && !Owned(name)
  {
    if HasPrefix(name, "castai-") {
      assert name == "castai-" + name[7..];
    }
    if HasSuffix(name, "-pdb") {
      assert name == name[..|name| - 4] + "-pdb";
    }
    forall x | name == "castai-" + x ensures HasPrefix(name, "castai-") {}
    forall y | name == y + "-pdb" ensures HasSuffix(name, "-pdb") {}
  }
}
