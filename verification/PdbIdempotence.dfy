/** What a second reconciliation of the same workload does, and what a created budget finds and leaves. */
module PdbIdempotence {
  import opened Basics
  import opened Selectors
  import opened PdbModel
  import opened PdbTheorems

  // ----- a round that ends leaves a state the next round leaves alone -----

  /** Neither annotations nor the ConfigMap say how many pods may be missing. */
  predicate NeitherSet(cfg: Config, w: Workload) { Resolved(cfg, w) == (None, None) }

  /** The workload's own, enriched selector matches its pod template. */
  predicate MatchesItself(cfg: Config, w: Workload) {
    w.selector.Some? && Matches(Enriched(cfg, w, w.selector.value), w.template)
  }

  /** The created budget holds minAvailable 1, which the update path of the second run takes away again. */
  predicate Flips(cfg: Config, w: Workload, s: seq<Pdb>) {
    Reaches(cfg, w, s) && NeitherSet(cfg, w) && MatchesItself(cfg, w)
  }

  lemma UnderReplicatedStable(cfg: Config, w: Workload, s: seq<Pdb>)
    requires Unique(s) && UnderReplicated(w)
    ensures var r := Round(cfg, w, s).pdbs; Round(cfg, w, s) == Done(r) && Unique(r) && Round(cfg, w, r) == Done(r)
  {
    NoSlotLeft(s, w);
    var r := RemoveNamed(s, w.ns, PdbName(w.name));
    FirstExists(r, Slot(w));
  }

  lemma OthersAreKept(cfg: Config, w: Workload, s: seq<Pdb>, p: Pdb)
    requires p in s && (ForeignCover(cfg, w)(p) || HelmCover(cfg, w)(p))
    ensures p in DropLeftovers(cfg, w, s)
  {
    assert !(HelmStyle(p.name) && Owned(p.name));
    assert !OwnedCover(cfg, w)(p);
    assert NotOwnedCover(cfg, w)(p);
    assert p in Filter(s, NotOwnedCover(cfg, w));
  }

  lemma RoundDrops(cfg: Config, w: Workload, s: seq<Pdb>)
    requires Managed(cfg, w) && !NoForeign(cfg, w, s)
    ensures Round(cfg, w, s) == Done(DropLeftovers(cfg, w, s))
  {
    hide DropLeftovers, Covers, Owned;
    FirstExists(s, ForeignCover(cfg, w));
  }

  lemma DropTwice(cfg: Config, w: Workload, s: seq<Pdb>)
    requires Unique(s)
    ensures var r := DropLeftovers(cfg, w, s); DropLeftovers(cfg, w, r) == r && Unique(r)
  {
    hide Covers, HelmCover;
    if First(s, HelmCover(cfg, w)) < |s| {
      FilterUnique(s, NotOwnedCover(cfg, w));
      FilterAll(Filter(s, NotOwnedCover(cfg, w)), NotOwnedCover(cfg, w));
    }
  }

  lemma LeftoversStable(cfg: Config, w: Workload, s: seq<Pdb>)
    requires Unique(s) && Managed(cfg, w) && !NoForeign(cfg, w, s)
    ensures var r := Round(cfg, w, s).pdbs;
            Round(cfg, w, s) == Done(r) && Unique(r) && Round(cfg, w, r) == Done(r) && !NoForeign(cfg, w, r)
  {
    hide DropLeftovers, Covers, Managed, Round, ForeignCover;
    var r := DropLeftovers(cfg, w, s);
    var p :| p in s && ForeignCover(cfg, w)(p);
    OthersAreKept(cfg, w, s, p);
    DropTwice(cfg, w, s);
    RoundDrops(cfg, w, s);
    RoundDrops(cfg, w, r);
  }

  /** Replacing a budget by one with an equivalent selector changes no coverage. */
  lemma SameCoverage(cfg: Config, w: Workload, p: Pdb, q: Pdb)
    requires p.ns == q.ns && p.name == q.name && p.spec.selector.Some? && q.spec.selector.Some?
    requires Canon(p.spec.selector.value) == Canon(q.spec.selector.value)
    ensures ForeignCover(cfg, w)(p) == ForeignCover(cfg, w)(q)
    ensures OwnedCover(cfg, w)(p) == OwnedCover(cfg, w)(q)
    ensures ExactCover(cfg, w)(p) == ExactCover(cfg, w)(q)
  {
    hide Canon, Matches, ValidSelector;
    CanonDecides(p.spec.selector.value, q.spec.selector.value, cfg.ok, w.template);
  }

  lemma SamePick(cfg: Config, w: Workload, s: seq<Pdb>, i: nat, q: Pdb)
    requires i < |s| && s[i].ns == q.ns && s[i].name == q.name
    requires s[i].spec.selector.Some? && q.spec.selector.Some?
    requires Canon(s[i].spec.selector.value) == Canon(q.spec.selector.value)
    requires NoForeign(cfg, w, s)
    ensures Pick(cfg, w, s[i := q]) == Pick(cfg, w, s) && NoForeign(cfg, w, s[i := q])
  {
    SameCoverage(cfg, w, s[i], q);
    hide ForeignCover, OwnedCover, ExactCover;
    assert s[i] in s;
    FirstSame(s, s[i := q], ExactCover(cfg, w));
    FirstSame(s, s[i := q], OwnedCover(cfg, w));
  }

  lemma NeverNeedsItself(spec: PdbSpec)
    ensures !NeedsUpdate(spec, spec)
  {}

  /** A budget that carries the update path's own specification is left alone. */
  lemma UpdateSettled(cfg: Config, w: Workload, s: seq<Pdb>, i: nat, basis: Selector)
    requires i < |s| && w.selector.Some? && ValidSelector(Enriched(cfg, w, basis), cfg.ok)
    requires s[i].spec == UpdateSpec(cfg, w, Enriched(cfg, w, basis))
    ensures UpdateRound(cfg, w, s, i) == Done(s)
  {
    EnrichTwice(basis, w.template, cfg.extraKeys);
    NeverNeedsItself(s[i].spec);
    hide Enrich, ValidSelector, NeedsUpdate;
  }

  lemma UpdateStable(cfg: Config, w: Workload, s: seq<Pdb>)
    requires Unique(s) && Managed(cfg, w) && NoForeign(cfg, w, s) && !NoneOwned(cfg, w, s)
    requires Round(cfg, w, s).Done?
    ensures var r := Round(cfg, w, s).pdbs; Unique(r) && Round(cfg, w, r) == Done(r) && !NoneOwned(cfg, w, r)
    ensures !Reaches(cfg, w, s)
  {
    RoundUpdates(cfg, w, s);
    PickIsOwned(cfg, w, s);
    var i := Pick(cfg, w, s);
    var p, r := s[i], Round(cfg, w, s).pdbs;
    UpdateAgain(cfg, w, s, i);
    assert p in s;
    if r != s {
      var basis := p.spec.selector.value;
      var q := p.(spec := UpdateSpec(cfg, w, Enriched(cfg, w, basis)));
      assert r == s[i := q];
      SamePick(cfg, w, s, i, q);
      UpdateKeepsUnique(s, i, q);
      UpdateSettled(cfg, w, r, i, basis);
      hide UpdateRound, Pick;
      PickIsOwned(cfg, w, r);
      RoundUpdates(cfg, w, r);
    }
  }

  predicate Bystander(cfg: Config, w: Workload, q: Pdb) {
    !Slot(w)(q) && !OwnedCover(cfg, w)(q) && !ForeignCover(cfg, w)(q)
  }

  /** `r` holds the create path's budget at k, and nothing else that covers the workload or has its name. */
  predicate Written(cfg: Config, w: Workload, r: seq<Pdb>, k: nat) {
    && Managed(cfg, w) && Ready(w) && CreateSpec(cfg, w).Some? && Unique(r) && k < |r|
    && Slot(w)(r[k]) && r[k].spec == CreateSpec(cfg, w).value
    && (forall j :: 0 <= j < |r| && j != k ==> Bystander(cfg, w, r[j]))
  }

  lemma WrittenCoverage(cfg: Config, w: Workload, r: seq<Pdb>, k: nat)
    requires Written(cfg, w, r, k)
    ensures OwnedCover(cfg, w)(r[k]) <==> MatchesItself(cfg, w)
    ensures NoForeign(cfg, w, r)
    ensures First(r, Slot(w)) == k
    ensures if MatchesItself(cfg, w) then Pick(cfg, w, r) == k && !NoneOwned(cfg, w, r) else NoneOwned(cfg, w, r)
  {
    PdbNameIsOwned(w.name);
    hide PdbName, Owned, HelmStyle;
    FirstAt(r, Slot(w), k);
    if MatchesItself(cfg, w) {
      assert OwnedCover(cfg, w)(r[k]) && ExactCover(cfg, w)(r[k]);
      FirstAt(r, ExactCover(cfg, w), k);
      assert r[k] in r;
    }
  }

  /** With one of the two values set, both paths want the same budget. */
  lemma PathsAgree(cfg: Config, w: Workload)
    requires w.selector.Some? && CreateSpec(cfg, w).Some? && !NeitherSet(cfg, w)
    ensures UpdateSpec(cfg, w, Enriched(cfg, w, w.selector.value)) == CreateSpec(cfg, w).value
  {}

  lemma WrittenRound(cfg: Config, w: Workload, r: seq<Pdb>, k: nat)
    requires Written(cfg, w, r, k)
    ensures !Reaches(cfg, w, r) || !MatchesItself(cfg, w) || Fixes(cfg, w, CreateSpec(cfg, w).value)
    ensures !MatchesItself(cfg, w) || !NeitherSet(cfg, w) ==> Round(cfg, w, r) == Done(r)
    ensures MatchesItself(cfg, w) && NeitherSet(cfg, w) ==>
            Round(cfg, w, r).Done? && Round(cfg, w, r).pdbs != r
  {
    WrittenCoverage(cfg, w, r, k);
    var spec := CreateSpec(cfg, w).value;
    var own := w.selector.value;
    EnrichTwice(own, w.template, cfg.extraKeys);
    NeverNeedsItself(spec);
    if !MatchesItself(cfg, w) {
      RoundCreates(cfg, w, r);
      hide OwnedCover, ForeignCover, Pick, ValidSelector, NeedsUpdate, Enrich, Canon;
    } else {
      RoundUpdates(cfg, w, r);
      assert r[k] in r;
      UpdateAgain(cfg, w, r, k);
      if NeitherSet(cfg, w) {
        NeitherIsNeverPoor(cfg, w);
        var q := r[k].(spec := UpdateSpec(cfg, w, Enriched(cfg, w, own)));
        assert q != r[k];
        assert UpdateRound(cfg, w, r, k) == Done(r[k := q]);
        assert r[k := q][k] != r[k];
      } else {
        PathsAgree(cfg, w);
        UpdateSettled(cfg, w, r, k, own);
      }
    }
  }

  lemma NeitherIsNeverPoor(cfg: Config, w: Workload)
    requires NeitherSet(cfg, w) && w.selector.Some? && !UnderReplicated(w)
    ensures !Fixes(cfg, w, CreateSpec(cfg, w).value)
    ensures forall s :: !Fixes(cfg, w, UpdateSpec(cfg, w, s))
  {}

  lemma InsertedIsWritten(cfg: Config, w: Workload, s: seq<Pdb>)
    requires Unique(s) && Reaches(cfg, w, s) && NoneOwned(cfg, w, s)
    ensures var base := RemoveNamed(s, w.ns, PdbName(w.name));
            Written(cfg, w, Insert(base, Fresh(cfg, w)), Position(base, Fresh(cfg, w)))
  {
    ReachesMeans(cfg, w, s);
    NoSlotLeft(s, w);
    var base, p := RemoveNamed(s, w.ns, PdbName(w.name)), Fresh(cfg, w);
    assert Slot(w)(p);
    InsertAt(base, p);
    InsertKeepsUnique(base, p);
    hide Insert, Position, RemoveNamed, PdbName, Reaches, OwnedCover, ForeignCover, CreateSpec, Managed, Ready;
    var k, r := Position(base, p), Insert(base, p);
    forall i | 0 <= i < |r| && i != k ensures Bystander(cfg, w, r[i]) {
      InsertedBeside(cfg, w, s, base, p, i);
    }
  }

  lemma InsertedBeside(cfg: Config, w: Workload, s: seq<Pdb>, base: seq<Pdb>, p: Pdb, i: nat)
    requires NoForeign(cfg, w, s) && NoneOwned(cfg, w, s) && forall q :: q in base ==> q in s && !Slot(w)(q)
    requires i < |Insert(base, p)| && i != Position(base, p)
    ensures Bystander(cfg, w, Insert(base, p)[i])
  {
    InsertAt(base, p);
    hide Insert, Position, Slot, OwnedCover, ForeignCover;
    var q := base[if i < Position(base, p) then i else i - 1];
    assert Insert(base, p)[i] == q && q in base;
  }

  lemma OverwrittenIsWritten(cfg: Config, w: Workload, s: seq<Pdb>, j: nat)
    requires Unique(s) && Reaches(cfg, w, s) && NoneOwned(cfg, w, s) && j < |s| && j == First(s, Slot(w))
    ensures Written(cfg, w, s[j := s[j].(spec := CreateSpec(cfg, w).value)], j)
  {
    ReachesMeans(cfg, w, s);
    OnlySlot(s, w);
    hide PdbName, Reaches, OwnedCover, ForeignCover, CreateSpec, Managed, Ready;
    var q := s[j].(spec := CreateSpec(cfg, w).value);
    var r := s[j := q];
    UpdateKeepsUnique(s, j, q);
    forall i | 0 <= i < |r| && i != j ensures Bystander(cfg, w, r[i]) {
      assert r[i] == s[i] && s[i] in s;
    }
  }

  lemma CreatedIsWritten(cfg: Config, w: Workload, s: seq<Pdb>)
    requires Unique(s) && Reaches(cfg, w, s) && NoneOwned(cfg, w, s) && Round(cfg, w, s).Done?
    ensures exists k: nat :: Written(cfg, w, Round(cfg, w, s).pdbs, k)
  {
    ReachesMeans(cfg, w, s);
    RoundCreates(cfg, w, s);
    CreateReaches(cfg, w, s);
    InsertedIsWritten(cfg, w, s);
    var j := First(s, Slot(w));
    if j < |s| {
      OverwrittenIsWritten(cfg, w, s, j);
    }
    hide Round, CreateRound, Written, Insert, Position, RemoveNamed, Fixes;
  }

  lemma ReachesMeans(cfg: Config, w: Workload, s: seq<Pdb>)
    requires Reaches(cfg, w, s)
    ensures Managed(cfg, w) && Ready(w) && CreateSpec(cfg, w).Some? && NoForeign(cfg, w, s)
  {}

  /** A round that ends: the next one ends in the same state, except after writing a budget that flips. */
  lemma DoneIsStable(cfg: Config, w: Workload, s: seq<Pdb>)
    requires Unique(s) && Round(cfg, w, s).Done?
    ensures var r := Round(cfg, w, s).pdbs;
            && Unique(r) && Round(cfg, w, r).Done?
            && (Round(cfg, w, r).pdbs == r <==> !Flips(cfg, w, s))
            && !Flips(cfg, w, r)
  {
    hide CreateRound, UpdateRound, Pick, DropLeftovers, RemoveNamed;
    var r := Round(cfg, w, s).pdbs;
    if UnderReplicated(w) {
      UnderReplicatedStable(cfg, w, s);
    } else if !Managed(cfg, w) {
    } else if !NoForeign(cfg, w, s) {
      LeftoversStable(cfg, w, s);
    } else if !NoneOwned(cfg, w, s) {
      UpdateStable(cfg, w, s);
      StableNeverFlips(cfg, w, r);
    } else if !Ready(w) {
      NotReadyRound(cfg, w, s);
    } else if !Reaches(cfg, w, s) {
      RoundCreates(cfg, w, s);
      CreateReaches(cfg, w, s);
    } else {
      CreatedIsWritten(cfg, w, s);
      var k: nat :| Written(cfg, w, r, k);
      WrittenRound(cfg, w, r, k);
      if Flips(cfg, w, r) {
        NeitherIsNeverPoor(cfg, w);
      }
    }
  }

  lemma NotReadyRound(cfg: Config, w: Workload, s: seq<Pdb>)
    requires Managed(cfg, w) && NoForeign(cfg, w, s) && NoneOwned(cfg, w, s) && !Ready(w)
    ensures Round(cfg, w, s) == Done(s)
  {
    FirstExists(s, ForeignCover(cfg, w));
    PickIsOwned(cfg, w, s);
  }

  /** A state that a round leaves alone does not flip: a flipping round changes its state. */
  lemma StableNeverFlips(cfg: Config, w: Workload, r: seq<Pdb>)
    requires Unique(r) && Round(cfg, w, r) == Done(r)
    requires !NoneOwned(cfg, w, r) || !Reaches(cfg, w, r)
    ensures !Flips(cfg, w, r)
  {
    if Reaches(cfg, w, r) {
      UpdateStable(cfg, w, r);
    }
  }

  // ----- main results -----

  lemma EndedNeverDiverges(cfg: Config, w: Workload, s: seq<Pdb>)
    requires Unique(s) && Round(cfg, w, s).Done?
    ensures !Diverges(cfg, w, s)
    ensures Reconcile(cfg, w, s) == Round(cfg, w, s).pdbs
  {
    hide Round, Diverges;
    if Diverges(cfg, w, s) {
      DivergenceStays(cfg, w, s);
    }
  }

  /** Reconciliation ends with a round that ends, from a state that flips exactly when the first one does. */
  lemma {:induction false} LastRound(cfg: Config, w: Workload, s: seq<Pdb>) returns (last: seq<Pdb>)
    requires Unique(s) && !Diverges(cfg, w, s)
    ensures Unique(last) && Round(cfg, w, last) == Done(Reconcile(cfg, w, s))
    ensures Flips(cfg, w, last) <==> Flips(cfg, w, s)
    decreases OwnedCount(s)
  {
    hide Round, Diverges, Reaches, MatchesItself, NeitherSet;
    match Round(cfg, w, s)
    case Done(r) => last := s;
    case Again(r) =>
      AgainShrinks(cfg, w, s);
      last := LastRound(cfg, w, r);
  }

  /** Main theorem. A second run leaves the store as the first left it exactly when the first did not write the
      default budget of a workload for which neither value is set; a third run changes nothing in any case. */
  lemma ReconcileIdempotentIff(cfg: Config, w: Workload, s: seq<Pdb>)
    requires Unique(s) && !Diverges(cfg, w, s)
    ensures
      var once := Reconcile(cfg, w, s);
      && Unique(once) && !Diverges(cfg, w, once)
      && (Reconcile(cfg, w, once) == once <==> !Flips(cfg, w, s))
      && Unique(Reconcile(cfg, w, once)) && !Diverges(cfg, w, Reconcile(cfg, w, once))
      && Reconcile(cfg, w, Reconcile(cfg, w, once)) == Reconcile(cfg, w, once)
  {
    var last := LastRound(cfg, w, s);
    var once := Reconcile(cfg, w, s);
    DoneIsStable(cfg, w, last);
    EndedNeverDiverges(cfg, w, once);
    DoneIsStable(cfg, w, once);
    EndedNeverDiverges(cfg, w, Reconcile(cfg, w, once));
    hide Round, Diverges, Flips, Reconcile;
  }

  /** The budget the create path adds is alone: nothing covered the workload before, and afterwards it does,
      unless the workload's selector misses its own pods. */
  lemma CreatedBudgetIsAlone(cfg: Config, w: Workload, s: seq<Pdb>)
    requires Unique(s) && Reaches(cfg, w, s) && NoneOwned(cfg, w, s)
    ensures forall p :: p in s ==> !Covers(cfg, w, p)
    ensures
      var base := RemoveNamed(s, w.ns, PdbName(w.name));
      forall p :: p in Insert(base, Fresh(cfg, w)) ==>
        (Covers(cfg, w, p) <==> MatchesItself(cfg, w) && p.ns == w.ns && p.name == PdbName(w.name))
  {
    InsertedIsWritten(cfg, w, s);
    ReachesMeans(cfg, w, s);
    var base := RemoveNamed(s, w.ns, PdbName(w.name));
    var r, k := Insert(base, Fresh(cfg, w)), Position(base, Fresh(cfg, w));
    WrittenCoverage(cfg, w, r, k);
    PdbNameIsOwned(w.name);
    forall p | p in s ensures !Covers(cfg, w, p) {
      assert !OwnedCover(cfg, w)(p) && !ForeignCover(cfg, w)(p);
    }
    hide Reaches, Managed, Insert, Position, RemoveNamed, PdbName, Owned, Matches, ValidSelector;
    forall p | p in r
      ensures Covers(cfg, w, p) <==> MatchesItself(cfg, w) && p.ns == w.ns && p.name == PdbName(w.name)
    {
      var i :| 0 <= i < |r| && r[i] == p;
      if i != k {
        assert !OwnedCover(cfg, w)(p) && !ForeignCover(cfg, w)(p) && !Slot(w)(p);
      } else {
        assert Slot(w)(p);
      }
    }
  }

  predicate WellFormedValue(v: Option<IntOrString>) {
    v.Some? && v.value.StrVal? ==> HasSuffix(v.value.s, "%")
  }

  lemma RenderingDecides(a: Option<IntOrString>, b: Option<IntOrString>)
    requires WellFormedValue(a) && WellFormedValue(b)
    ensures SameRendering(a, b) <==> a == b
  {
    if a.Some? && b.Some? && SameRendering(a, b) {
      if a.value.IntVal? && b.value.IntVal? {
        ItoaSignedInjective(a.value.n, b.value.n);
      } else if a.value.IntVal? {
        IntegersEndInDigits(a.value.n);
      } else if b.value.IntVal? {
        IntegersEndInDigits(b.value.n);
      }
    }
  }

  lemma IntegersEndInDigits(n: int)
    ensures var s := ItoaSigned(n); |s| > 0 && IsDigit(s[|s| - 1])
  {
    ItoaRoundTrip(if n < 0 then -n else n);
  }

  /** For integers and percentages, an update is written exactly when the parsed budgets differ. */
  lemma UpdateWrittenIffDifferent(a: PdbSpec, b: PdbSpec)
    requires WellFormedValue(a.minAvailable) && WellFormedValue(b.minAvailable)
    requires WellFormedValue(a.maxUnavailable) && WellFormedValue(b.maxUnavailable)
    ensures NeedsUpdate(a, b) <==> a.(selector := b.selector) != b
  {
    RenderingDecides(a.minAvailable, b.minAvailable);
    RenderingDecides(a.maxUnavailable, b.maxUnavailable);
  }

  // ----- both failures are real -----

  const APP: map<string, string> := map["app" := "web"]

  /** Two of two replicas are ready; `min` is the minAvailable annotation. */
  function WebWorkload(min: Option<IntOrString>): Workload {
    Workload(false, "default", "web", APP, Some(Selector(APP, [])), APP, Some(2), 2, 2, false, min, None, None)
  }

  function PlainConfig(fixPoor: bool): Config {
    Config(None, None, None, fixPoor, [], (ns: string, name: string, labels: Labels) => false, (k: string, v: string) => true)
  }

  lemma WebIsManaged(min: Option<IntOrString>, fixPoor: bool)
    ensures
      var cfg, w := PlainConfig(fixPoor), WebWorkload(min);
      && Enriched(cfg, w, w.selector.value) == Selector(APP, []) && Managed(cfg, w) && Ready(w) && MatchesItself(cfg, w)
      && CreateSpec(cfg, w) == Some(PdbSpec(w.selector, Some(if min.Some? then min.value else IntVal(1)), None, None))
      && (Reaches(cfg, w, []))
  {
    var cfg, w := PlainConfig(fixPoor), WebWorkload(min);
    assert Enriched(cfg, w, w.selector.value).labels == APP;
  }

  /** minAvailable equal to the replica count, with FixPoorPDBs on: the budget is created and deleted for ever. */
  lemma DivergenceHappens()
    ensures !Terminates(PlainConfig(true), WebWorkload(Some(IntVal(2))), [])
  {
    var cfg, w := PlainConfig(true), WebWorkload(Some(IntVal(2)));
    WebIsManaged(Some(IntVal(2)), true);
    TerminationIff(cfg, w, []);
    hide Reaches, Terminates, CreateSpec;
  }

  /** Neither value set: the budget that the first run creates is changed by the second. */
  lemma FlipHappens()
    ensures
      var cfg, w := PlainConfig(false), WebWorkload(None);
      && !Diverges(cfg, w, []) && !Diverges(cfg, w, Reconcile(cfg, w, [])) && Unique(Reconcile(cfg, w, []))
      && Reconcile(cfg, w, Reconcile(cfg, w, [])) != Reconcile(cfg, w, [])
  {
    var cfg, w := PlainConfig(false), WebWorkload(None);
    WebIsManaged(None, false);
    ReconcileIdempotentIff(cfg, w, []);
    hide Reaches, Reconcile, CreateSpec, Managed, Ready;
  }
}
