/** The scan that fixes poorly configured budgets, the only step that may delete a budget of someone else. */
module PdbPoorScan {
  import opened Basics
  import opened Selectors
  import opened PdbModel
  import opened PdbTheorems
  import opened PdbServer
  import opened PdbController
  import opened PdbMultiScan

  /** The workloads of a namespace as the scan lists them. */
  type Listing = string -> Namespace

  /** What the create path resolves for the workload is no poor configuration: its reconciliation always ends. */
  predicate NeverPoor(cfg: Config, w: Workload) {
    w.selector.Some? && CreateSpec(cfg, w).Some? ==> !Fixes(cfg, w, CreateSpec(cfg, w).value)
  }

  function Replicas(w: Workload): int32 { if w.replicas.Some? then w.replicas.value else 1 }

  predicate SelectorsAgree(cfg: Config, w: Workload, p: Pdb) {
    && p.spec.selector.Some? && ValidSelector(p.spec.selector.value, cfg.ok)
    && w.selector.Some? && ValidSelector(w.selector.value, cfg.ok)
    && Canon(p.spec.selector.value) == Canon(w.selector.value)
  }

  /** The budget is poor for a workload of its namespace that is not bypassed and has exactly its selector. */
  predicate PoorFor(cfg: Config, w: Workload, p: Pdb) {
    cfg.fixPoorPDBs && !w.bypass && SelectorsAgree(cfg, w, p) && Poor(p.spec, Replicas(w))
  }

  predicate PoorAmong(cfg: Config, ws: seq<Workload>, p: Pdb) {
    exists w :: w in ws && PoorFor(cfg, w, p)
  }

  function WorkloadsIn(list: Listing, ns: string): seq<Workload> { Items(list(ns).deployments) + Items(list(ns).statefulSets) }

  lemma NeverPoorEnds(cfg: Config, w: Workload, s: seq<Pdb>)
    requires NeverPoor(cfg, w)
    ensures !Diverges(cfg, w, s)
  {
    hide CreateSpec, Poor, Fixes, NoForeign, AllDiscarded, SlotOpen, Ready;
  }

  lemma {:induction false} OwnedAtMost(s: seq<Pdb>)
    ensures OwnedCount(s) <= |s|
  {
    hide Owned;
    if s != [] {
      OwnedAtMost(s[1..]);
    }
  }

  // ----- how far a reconciliation can get -----

  lemma {:induction false} FilterShrinks(s: seq<Pdb>, f: Pdb -> bool)
    ensures |Filter(s, f)| <= |s|
  {
    if s != [] {
      FilterShrinks(s[1..], f);
    }
  }

  lemma DeletionShrinks(s: seq<Pdb>, ns: string, name: string)
    ensures |RemoveNamed(s, ns, name)| <= |s|
  {}

  lemma CreateAtGrowth(cfg: Config, w: Workload, s: seq<Pdb>, spec: PdbSpec)
    ensures |CreateAt(cfg, w, s, spec).pdbs| <= |s| + 1
  {
    InsertAt(s, Pdb(w.ns, PdbName(w.name), spec, EMPTY_STATUS));
    hide Position, Insert, PdbName, Fixes;
  }

  lemma CreateRoundGrowth(cfg: Config, w: Workload, s: seq<Pdb>)
    requires w.selector.Some?
    ensures |CreateRound(cfg, w, s).pdbs| <= |s| + 1
  {
    hide Slot, CreateAt, NeedsUpdate, Canon, ValidSelector, Fixes;
    var j := First(s, Slot(w));
    if CreateSpec(cfg, w).Some? {
      CreateAtGrowth(cfg, w, s, CreateSpec(cfg, w).value);
      if j < |s| {
        CreateAtGrowth(cfg, w, Remove(s, j), CreateSpec(cfg, w).value);
      }
    }
    hide CreateSpec, First;
  }

  lemma UpdateRoundGrowth(cfg: Config, w: Workload, s: seq<Pdb>, i: nat)
    requires w.selector.Some? && i < |s|
    ensures |UpdateRound(cfg, w, s, i).pdbs| <= |s|
  {
    hide NeedsUpdate, Canon, ValidSelector, Fixes, Enriched, UpdateSpec;
  }

  lemma RoundGrowth(cfg: Config, w: Workload, s: seq<Pdb>)
    ensures |Round(cfg, w, s).pdbs| <= |s| + 1
  {
    hide CreateRound, UpdateRound, Pick, First, Ready, PdbName, RemoveNamed;
    DeletionShrinks(s, w.ns, PdbName(w.name));
    FilterShrinks(s, NotOwnedCover(cfg, w));
    if Managed(cfg, w) {
      CreateRoundGrowth(cfg, w, s);
      if Pick(cfg, w, s) < |s| {
        UpdateRoundGrowth(cfg, w, s, Pick(cfg, w, s));
      }
    }
    hide Managed, ForeignCover, NotOwnedCover, HelmCover;
  }

  /** A reconciliation that ends adds at most one budget. */
  lemma {:induction false} ReconcileGrowth(cfg: Config, w: Workload, s: seq<Pdb>)
    requires Unique(s) && !Diverges(cfg, w, s)
    ensures |Reconcile(cfg, w, s)| <= |s| + 1
    decreases OwnedCount(s)
  {
    hide Round, Diverges, OwnedCount;
    RoundGrowth(cfg, w, s);
    if Round(cfg, w, s).Again? {
      AgainShrinks(cfg, w, s);
      ReconcileGrowth(cfg, w, Round(cfg, w, s).pdbs);
    }
  }

  // ----- the scan -----

  /** Of the budgets that are not the controller's: what is left, and why the rest has gone. With `sure`, nothing in
      `listed` is left that should have gone, nor in `current` as far as the workloads `ws` show. */
  ghost predicate Accounted(cfg: Config, start: seq<Pdb>, now: seq<Pdb>, sure: bool, listed: seq<Pdb>, list: Listing,
                            current: seq<Pdb>, ws: seq<Workload>)
  {
    forall p: Pdb :: !Owned(p.name) ==>
      && (p in now ==> p in start)
      && (p in start && p !in now ==> PoorAmong(cfg, WorkloadsIn(list, p.ns), p))
      && (sure && p in now && p in listed ==> !PoorAmong(cfg, WorkloadsIn(list, p.ns), p))
      && (sure && p in now && p in current ==> !PoorAmong(cfg, ws, p))
  }

  /** One budget against one workload. */
  method CheckAgainst(api: Server, cfg: Config, w: Workload, pdb: Pdb, budget: nat, ghost start: seq<Pdb>)
    returns (stopped: bool)
    requires Unique(api.pdbs) && Unique(start) && pdb in start
    requires forall p: Pdb :: !Owned(p.name) && p in api.pdbs ==> p in start
    modifies api
    ensures Unique(api.pdbs)
    ensures forall p: Pdb :: !Owned(p.name) && p in api.pdbs ==> p in old(api.pdbs)
    ensures forall p: Pdb :: !Owned(p.name) && p in old(api.pdbs) && p !in api.pdbs ==> p == pdb && PoorFor(cfg, w, pdb)
    ensures api.reliable && PoorFor(cfg, w, pdb) && !Owned(pdb.name) ==> pdb !in api.pdbs
    ensures !PoorFor(cfg, w, pdb) ==> api.pdbs == old(api.pdbs) && !stopped
    ensures api.reliable && !stopped ==> |api.pdbs| <= |old(api.pdbs)| + 1
    ensures api.reliable && NeverPoor(cfg, w) && |old(api.pdbs)| < budget ==> !stopped
  {
    stopped := false;
    if w.bypass || w.selector.None? || !ValidSelector(w.selector.value, cfg.ok) {
      return;
    }
    if pdb.spec.selector.None? || !ValidSelector(pdb.spec.selector.value, cfg.ok) {
      return;
    }
    if Canon(pdb.spec.selector.value) == Canon(w.selector.value) {
      ghost var before := api.pdbs;
      ghost var rest := RemoveNamed(before, pdb.ns, pdb.name);
      if NeverPoor(cfg, w) {
        NeverPoorEnds(cfg, w, rest);
      }
      assert FixesAs(cfg, w, pdb.spec, Replicas(w)) <==> PoorFor(cfg, w, pdb);
      hide Diverges, Poor, Owned, RemoveNamed, Canon, ValidSelector, NeverPoor, AllAllowed, PoorFor, FixesAs, Reconcile, Returned;
      stopped := LogAndFixPoorPDBConfig(api, cfg, w, pdb, Replicas(w), budget);
      if api.reliable && FixesAs(cfg, w, pdb.spec, Replicas(w)) {
        FixGrowth(cfg, w, before, pdb, api.pdbs, stopped, budget);
      }
    }
  }

  lemma FixGrowth(cfg: Config, w: Workload, before: seq<Pdb>, pdb: Pdb, final: seq<Pdb>, stopped: bool, budget: nat)
    requires Ends(cfg, w, Again(RemoveNamed(before, pdb.ns, pdb.name)), final, stopped, budget)
    ensures !stopped ==> |final| <= |before| + 1
    ensures !Diverges(cfg, w, RemoveNamed(before, pdb.ns, pdb.name)) && |before| < budget ==> !stopped
  {
    var rest := RemoveNamed(before, pdb.ns, pdb.name);
    DeletionShrinks(before, pdb.ns, pdb.name);
    OwnedAtMost(rest);
    hide RemoveNamed, Diverges, OwnedCount;
    if !stopped {
      ReconcileGrowth(cfg, w, rest);
    }
    hide Reconcile;
  }

  lemma Checked(cfg: Config, start: seq<Pdb>, before: seq<Pdb>, now: seq<Pdb>, sure: bool, listed: seq<Pdb>,
                list: Listing, current: Pdb, ws: seq<Workload>, w: Workload)
    requires Accounted(cfg, start, before, sure, listed, list, [current], ws)
    requires w in WorkloadsIn(list, current.ns)
    requires forall p: Pdb :: !Owned(p.name) && p in now ==> p in before
    requires forall p: Pdb :: !Owned(p.name) && p in before && p !in now ==> p == current && PoorFor(cfg, w, current)
    requires sure && PoorFor(cfg, w, current) && !Owned(current.name) ==> current !in now
    ensures Accounted(cfg, start, now, sure, listed, list, [current], ws + [w])
  {
    hide Owned, PoorFor, WorkloadsIn;
    assert forall v :: v in ws + [w] <==> v in ws || v == w;
  }

  /** How many pairs of a budget and a workload the scan goes through. */
  function Checks(pdbs: seq<Pdb>, list: Listing): nat {
    if pdbs == [] then 0 else Checks(pdbs[..|pdbs| - 1], list) + |WorkloadsIn(list, pdbs[|pdbs| - 1].ns)|
  }

  lemma {:induction false} ChecksGrow(pdbs: seq<Pdb>, list: Listing, i: nat)
    requires i < |pdbs|
    ensures Checks(pdbs[..i], list) + |WorkloadsIn(list, pdbs[i].ns)| == Checks(pdbs[..i + 1], list) <= Checks(pdbs, list)
  {
    hide WorkloadsIn;
    assert pdbs[..i + 1][..i] == pdbs[..i];
    if i + 1 < |pdbs| {
      ChecksGrow(pdbs[..|pdbs| - 1], list, i);
      assert pdbs[..|pdbs| - 1][..i] == pdbs[..i] && pdbs[..|pdbs| - 1][..i + 1] == pdbs[..i + 1];
    } else {
      assert pdbs[..i + 1] == pdbs;
    }
  }

  /** No workload that the scan meets has a reconciliation that goes on for ever, and the budget is enough for any
      one of them. */
  ghost predicate CannotHang(cfg: Config, list: Listing, pdbs: seq<Pdb>, budget: nat) {
    && (forall p :: p in pdbs ==> AllNeverPoor(cfg, WorkloadsIn(list, p.ns)))
    && |pdbs| + Checks(pdbs, list) <= budget
  }

  predicate AllNeverPoor(cfg: Config, ws: seq<Workload>) { forall w :: w in ws ==> NeverPoor(cfg, w) }

  /** All budgets against all workloads of their namespaces, whatever the workloads. Of the budgets that are not the
      controller's it deletes only those that are poor for such a workload; without failing calls a scan that gets to
      its end has deleted all of those, and it does get there when no reconciliation can go on for ever. */
  method ScanAllPDBsForPoorConfig(api: Server, cfg: Config, list: Listing, budget: nat) returns (stopped: bool)
    requires Unique(api.pdbs)
    modifies api
    ensures Unique(api.pdbs)
    ensures forall p: Pdb :: !Owned(p.name) && p in api.pdbs ==> p in old(api.pdbs)
    ensures forall p: Pdb :: !Owned(p.name) && p in old(api.pdbs) && p !in api.pdbs ==> PoorAmong(cfg, WorkloadsIn(list, p.ns), p)
    ensures api.reliable && !stopped ==>
              forall p: Pdb :: !Owned(p.name) && p in api.pdbs ==> !PoorAmong(cfg, WorkloadsIn(list, p.ns), p)
    ensures api.reliable && CannotHang(cfg, list, old(api.pdbs), budget) ==> !stopped
  {
    stopped := false;
    ghost var start := api.pdbs;
    var pdbs, ok := api.ListAll();
    if !ok {
      return;
    }
    NothingAccounted(cfg, start, list);
    hide Unique, Owned, PoorAmong, WorkloadsIn, Accounted, Checks, AllNeverPoor;
    assert pdbs[..0] == [];
    for i := 0 to |pdbs|
      invariant !stopped && Unique(api.pdbs)
      invariant Accounted(cfg, start, api.pdbs, api.reliable, pdbs[..i], list, [], [])
      invariant api.reliable ==> |api.pdbs| <= |start| + Checks(pdbs[..i], list)
    {
      assert pdbs[..i + 1] == pdbs[..i] + [pdbs[i]] && pdbs[i] in pdbs;
      ChecksGrow(pdbs, list, i);
      stopped := ScanOnePDB(api, cfg, pdbs[i], list, budget, start, pdbs[..i]);
      if stopped {
        AccountedAnyway(cfg, start, api.pdbs, pdbs[..i + 1], list);
        return;
      }
    }
    assert pdbs[..|pdbs|] == pdbs;
    AllAccounted(cfg, start, api.pdbs, api.reliable, list);
  }

  lemma NothingAccounted(cfg: Config, start: seq<Pdb>, list: Listing)
    ensures Accounted(cfg, start, start, true, [], list, [], []) && Accounted(cfg, start, start, false, [], list, [], [])
    ensures Checks([], list) == 0
  {}

  lemma AccountedAnyway(cfg: Config, start: seq<Pdb>, now: seq<Pdb>, listed: seq<Pdb>, list: Listing)
    requires Accounted(cfg, start, now, false, listed, list, [], [])
    ensures forall p: Pdb :: !Owned(p.name) && p in now ==> p in start
    ensures forall p: Pdb :: !Owned(p.name) && p in start && p !in now ==> PoorAmong(cfg, WorkloadsIn(list, p.ns), p)
  {
    hide PoorAmong, WorkloadsIn;
  }

  lemma AllAccounted(cfg: Config, start: seq<Pdb>, now: seq<Pdb>, sure: bool, list: Listing)
    requires Accounted(cfg, start, now, sure, start, list, [], [])
    ensures forall p: Pdb :: !Owned(p.name) && p in now ==> p in start
    ensures forall p: Pdb :: !Owned(p.name) && p in start && p !in now ==> PoorAmong(cfg, WorkloadsIn(list, p.ns), p)
    ensures sure ==> forall p: Pdb :: !Owned(p.name) && p in now ==> !PoorAmong(cfg, WorkloadsIn(list, p.ns), p)
  {
    hide PoorAmong, WorkloadsIn;
  }

  method ScanOnePDB(api: Server, cfg: Config, pdb: Pdb, list: Listing, budget: nat, ghost start: seq<Pdb>,
                    ghost listed: seq<Pdb>)
    returns (stopped: bool)
    requires Unique(api.pdbs) && Unique(start) && pdb in start
    requires Accounted(cfg, start, api.pdbs, api.reliable, listed, list, [], [])
    modifies api
    ensures Unique(api.pdbs)
    ensures Accounted(cfg, start, api.pdbs, api.reliable && !stopped, listed + [pdb], list, [], [])
    ensures api.reliable && !stopped ==> |api.pdbs| <= |old(api.pdbs)| + |WorkloadsIn(list, pdb.ns)|
    ensures api.reliable && AllNeverPoor(cfg, WorkloadsIn(list, pdb.ns)) ==>
              |old(api.pdbs)| + |WorkloadsIn(list, pdb.ns)| <= budget ==> !stopped
  {
    var deployments, statefulSets := Items(list(pdb.ns).deployments), Items(list(pdb.ns).statefulSets);
    var ws := deployments + statefulSets;
    assert ws == WorkloadsIn(list, pdb.ns);
    ghost var before := api.pdbs;
    OneToCheck(cfg, start, before, api.reliable, listed, list, pdb);
    hide Unique, Owned, PoorFor, NeverPoor, WorkloadsIn, Accounted;
    assert ws[..0] == [];
    stopped := false;
    for i := 0 to |ws|
      invariant !stopped && Unique(api.pdbs)
      invariant Accounted(cfg, start, api.pdbs, api.reliable, listed, list, [pdb], ws[..i])
      invariant api.reliable ==> |api.pdbs| <= |before| + i
    {
      assert ws[..i + 1] == ws[..i] + [ws[i]] && ws[i] in ws;
      ghost var mid := api.pdbs;
      AccountedSubset(cfg, start, mid, api.reliable, listed, list, [pdb], ws[..i]);
      stopped := CheckAgainst(api, cfg, ws[i], pdb, budget, start);
      Checked(cfg, start, mid, api.pdbs, api.reliable, listed, list, pdb, ws[..i], ws[i]);
      if stopped {
        NotSure(cfg, start, api.pdbs, api.reliable, listed, list, [pdb], ws[..i + 1], listed + [pdb]);
        return;
      }
    }
    assert ws[..|ws|] == ws;
    NextPDB(cfg, start, api.pdbs, api.reliable, listed, list, pdb);
  }

  lemma OneToCheck(cfg: Config, start: seq<Pdb>, now: seq<Pdb>, sure: bool, listed: seq<Pdb>, list: Listing, pdb: Pdb)
    requires Accounted(cfg, start, now, sure, listed, list, [], [])
    ensures Accounted(cfg, start, now, sure, listed, list, [pdb], [])
  {
    hide WorkloadsIn, PoorFor;
  }

  lemma NotSure(cfg: Config, start: seq<Pdb>, now: seq<Pdb>, sure: bool, listed: seq<Pdb>, list: Listing,
                current: seq<Pdb>, ws: seq<Workload>, more: seq<Pdb>)
    requires Accounted(cfg, start, now, sure, listed, list, current, ws)
    ensures Accounted(cfg, start, now, false, more, list, [], [])
  {
    hide WorkloadsIn, PoorAmong;
  }

  lemma AccountedSubset(cfg: Config, start: seq<Pdb>, now: seq<Pdb>, sure: bool, listed: seq<Pdb>, list: Listing,
                        current: seq<Pdb>, ws: seq<Workload>)
    requires Accounted(cfg, start, now, sure, listed, list, current, ws)
    ensures forall p: Pdb :: !Owned(p.name) && p in now ==> p in start
  {}

  lemma NextPDB(cfg: Config, start: seq<Pdb>, now: seq<Pdb>, sure: bool, listed: seq<Pdb>, list: Listing, pdb: Pdb)
    requires Accounted(cfg, start, now, sure, listed, list, [pdb], WorkloadsIn(list, pdb.ns))
    ensures Accounted(cfg, start, now, sure, listed + [pdb], list, [], [])
  {
    hide Owned, PoorFor, WorkloadsIn;
    assert forall p :: p in listed + [pdb] <==> p in listed || p == pdb;
    assert forall p :: !PoorAmong(cfg, [], p);
  }
}

/** Runs of the controller: any sequence of watch events and periodic passes. */
module PdbRuns {
  import opened Basics
  import opened Selectors
  import opened PdbModel
  import opened PdbTheorems
  import opened PdbServer
  import opened PdbController
  import opened PdbMultiScan
  import opened PdbPoorScan
  import PdbGarbage

  datatype Step =
    | Added(cfg: Config, w: Workload)
    | Changed(cfg: Config, before: Workload, w: Workload)
    | Removed(w: Workload)
    | GarbageCollection(deployments: PdbGarbage.Directory, statefulSets: PdbGarbage.Directory)
    | MultiScan(cfg: Config, namespaces: seq<Namespace>)
    | PoorScan(cfg: Config, list: Listing)

  /** The API server lists a namespace's own workloads. */
  predicate Fits(step: Step) { step.MultiScan? ==> forall n :: n in step.namespaces ==> Consistent(n) }

  /** FixPoorPDBs was on in a poor-configuration scan, and the budget was poor for a workload listed there that is not
      bypassed and has exactly its selector. */
  predicate Excepted(steps: seq<Step>, p: Pdb) {
    exists k :: 0 <= k < |steps| && steps[k].PoorScan? && PoorAmong(steps[k].cfg, WorkloadsIn(steps[k].list, p.ns), p)
  }

  /** Budgets of others: none appears or changes, and only excepted ones have gone. */
  ghost predicate ForeignAccounted(a: seq<Pdb>, b: seq<Pdb>, steps: seq<Step>) {
    forall p: Pdb :: !Owned(p.name) ==> (p in b ==> p in a) && (p in a && p !in b ==> Excepted(steps, p))
  }

  lemma RemoveOwn(s: seq<Pdb>, i: nat)
    requires Unique(s) && i < |s| && Owned(s[i].name)
    ensures ForeignKept(s, Remove(s, i), None) && Unique(Remove(s, i))
  {
    RemoveMembers(s, i);
    hide Owned;
  }

  lemma WriteOwn(cfg: Config, w: Workload, s: seq<Pdb>, i: nat, spec: PdbSpec)
    requires Unique(s) && i < |s| && Owned(s[i].name)
    ensures var o := AfterWrite(cfg, w, s[i := s[i].(spec := spec)], i);
            ForeignKept(s, o.pdbs, None) && Unique(o.pdbs)
  {
    hide Owned, Unique, Fixes;
    var t := s[i := s[i].(spec := spec)];
    UpdateKeepsUnique(s, i, t[i]);
    forall p: Pdb | !Owned(p.name) ensures p in s <==> p in t {
      if p in s {
        var k :| 0 <= k < |s| && s[k] == p;
        assert t[k] == p;
      }
    }
    RemoveOwn(t, i);
  }

  lemma CreateOwn(cfg: Config, w: Workload, s: seq<Pdb>, spec: PdbSpec)
    requires Unique(s) && forall p :: p in s ==> !Slot(w)(p)
    ensures ForeignKept(s, CreateAt(cfg, w, s, spec).pdbs, None) && Unique(CreateAt(cfg, w, s, spec).pdbs)
  {
    var p := Pdb(w.ns, PdbName(w.name), spec, EMPTY_STATUS);
    PdbNameIsOwned(w.name);
    InsertAt(s, p);
    InsertKeepsUnique(s, p);
    hide Owned, Unique, Fixes, PdbName;
    RemoveOwn(Insert(s, p), Position(s, p));
  }

  lemma CreateRoundKeeps(cfg: Config, w: Workload, s: seq<Pdb>)
    requires Unique(s) && w.selector.Some?
    ensures ForeignKept(s, CreateRound(cfg, w, s).pdbs, None) && Unique(CreateRound(cfg, w, s).pdbs)
  {
    var j := First(s, Slot(w));
    PdbNameIsOwned(w.name);
    OnlySlot(s, w);
    KeptNothing(s);
    hide Owned, Unique, PdbName, NeedsUpdate, ValidSelector, Canon, AfterWrite, CreateAt, Enriched, ForeignKept;
    if j < |s| {
      NoSlotLeft(s, w);
      IndexByName(s, j);
      RemoveOwn(s, j);
      if CreateSpec(cfg, w).Some? {
        var spec := CreateSpec(cfg, w).value;
        WriteOwn(cfg, w, s, j, spec);
        CreateOwn(cfg, w, Remove(s, j), spec);
        ForeignTrans(s, Remove(s, j), CreateAt(cfg, w, Remove(s, j), spec).pdbs);
      }
    } else if CreateSpec(cfg, w).Some? {
      CreateOwn(cfg, w, s, CreateSpec(cfg, w).value);
    }
  }

  lemma UpdateRoundKeeps(cfg: Config, w: Workload, s: seq<Pdb>, i: nat)
    requires Unique(s) && w.selector.Some? && i < |s| && Owned(s[i].name)
    ensures ForeignKept(s, UpdateRound(cfg, w, s, i).pdbs, None) && Unique(UpdateRound(cfg, w, s, i).pdbs)
  {
    KeptNothing(s);
    RemoveOwn(s, i);
    if s[i].spec.selector.Some? {
      WriteOwn(cfg, w, s, i, UpdateSpec(cfg, w, Enriched(cfg, w, s[i].spec.selector.value)));
    }
    hide Owned, Unique, NeedsUpdate, ValidSelector, Canon, AfterWrite, Enriched, ForeignKept, UpdateSpec;
  }

  lemma DropKeeps(cfg: Config, w: Workload, s: seq<Pdb>)
    requires Unique(s)
    ensures ForeignKept(s, DropLeftovers(cfg, w, s), None) && Unique(DropLeftovers(cfg, w, s))
  {
    FilterUnique(s, NotOwnedCover(cfg, w));
    hide Owned, Covers, Unique;
    forall p: Pdb | !Owned(p.name) ensures p in s <==> p in DropLeftovers(cfg, w, s) {
      assert !OwnedCover(cfg, w)(p);
      assert NotOwnedCover(cfg, w)(p);
    }
  }

  lemma UnderReplicatedKeeps(w: Workload, s: seq<Pdb>)
    requires Unique(s)
    ensures var r := RemoveNamed(s, w.ns, PdbName(w.name)); ForeignKept(s, r, None) && Unique(r)
  {
    PdbNameIsOwned(w.name);
    var j := First(s, Slot(w));
    if j < |s| {
      RemoveOwn(s, j);
    }
    hide PdbName, Owned;
  }

  /** Each round of a reconciliation, even of one that never ends, leaves the budgets of others alone. */
  lemma RoundKeepsForeign(cfg: Config, w: Workload, s: seq<Pdb>)
    requires Unique(s)
    ensures ForeignKept(s, Round(cfg, w, s).pdbs, None) && Unique(Round(cfg, w, s).pdbs)
  {
    KeptNothing(s);
    DropKeeps(cfg, w, s);
    PickIsOwned(cfg, w, s);
    UnderReplicatedKeeps(w, s);
    hide Unique, Owned, ForeignKept, CreateRound, UpdateRound, DropLeftovers, Pick, Ready, ForeignCover, PdbName,
         RemoveNamed, First;
    if Managed(cfg, w) {
      CreateRoundKeeps(cfg, w, s);
      if Pick(cfg, w, s) < |s| {
        UpdateRoundKeeps(cfg, w, s, Pick(cfg, w, s));
      }
    }
  }

  /** After any number of rounds, whether or not the reconciliation ends. */
  lemma {:induction false} RoundsKeepForeign(cfg: Config, w: Workload, s: seq<Pdb>, n: nat)
    requires Unique(s)
    ensures ForeignKept(s, After(cfg, w, s, n).pdbs, None) && Unique(After(cfg, w, s, n).pdbs)
  {
    if n == 0 {
      KeptNothing(s);
    } else {
      hide Round, Unique, ForeignKept;
      RoundsKeepForeign(cfg, w, s, n - 1);
      var before := After(cfg, w, s, n - 1);
      RoundKeepsForeign(cfg, w, before.pdbs);
      ForeignTrans(s, before.pdbs, Round(cfg, w, before.pdbs).pdbs);
    }
  }

  method ReconcileWorkload(api: Server, cfg: Config, w: Workload, budget: nat) returns (stopped: bool)
    requires Unique(api.pdbs)
    modifies api
    ensures Unique(api.pdbs) && ForeignKept(old(api.pdbs), api.pdbs, None)
    ensures api.reliable ==> Returned(cfg, w, old(api.pdbs), api.pdbs, stopped, budget)
  {
    ghost var s, log0 := api.pdbs, api.log;
    hide Kept, ForeignKept, Returned;
    stopped := CreatePDBForWorkload(api, cfg, w, budget);
    KeptForeign(cfg, w, s, log0, api.pdbs, api.log);
  }

  /** Deletes the budget that has the workload's name, whatever it covers. */
  method DeletePDBForWorkload(api: Server, w: Workload)
    requires Unique(api.pdbs)
    modifies api
    ensures Unique(api.pdbs) && ForeignKept(old(api.pdbs), api.pdbs, None)
    ensures api.reliable ==> api.pdbs == RemoveNamed(old(api.pdbs), w.ns, PdbName(w.name))
  {
    PdbNameIsOwned(w.name);
    var i := First(api.pdbs, Named(w.ns, PdbName(w.name)));
    if i < |api.pdbs| {
      RemoveMembers(api.pdbs, i);
    }
    hide Owned;
    var err := api.Delete(w.ns, PdbName(w.name));
  }

  /** A workload that becomes bypassed loses the budget of its name; one that stays bypassed is left alone. */
  method HandleWorkloadUpdate(api: Server, cfg: Config, before: Workload, w: Workload, budget: nat)
    returns (stopped: bool)
    requires Unique(api.pdbs)
    modifies api
    ensures Unique(api.pdbs) && ForeignKept(old(api.pdbs), api.pdbs, None)
    ensures w.bypass ==> !stopped
    ensures api.reliable && w.bypass ==>
      api.pdbs == if before.bypass then old(api.pdbs) else RemoveNamed(old(api.pdbs), w.ns, PdbName(w.name))
    ensures api.reliable && !w.bypass ==> Returned(cfg, w, old(api.pdbs), api.pdbs, stopped, budget)
  {
    hide ForeignKept, Unique, Returned, RemoveNamed;
    stopped := false;
    KeptNothing(api.pdbs);
    if !before.bypass && w.bypass {
      DeletePDBForWorkload(api, w);
    } else if before.bypass && !w.bypass {
      stopped := ReconcileWorkload(api, cfg, w, budget);
    } else if w.bypass {
      return;
    } else {
      stopped := ReconcileWorkload(api, cfg, w, budget);
    }
  }

  /** Any sequence of steps, for any workloads and configurations. Whatever calls fail, and wherever the process
      stops, be it for good or inside a reconciliation that would not end, a run neither adds nor changes a budget of
      someone else, and deletes one only under the exception of the poor-configuration scan. */
  method Run(api: Server, steps: seq<Step>, budget: nat) returns (stopped: bool)
    requires Unique(api.pdbs) && forall s :: s in steps ==> Fits(s)
    modifies api
    ensures Unique(api.pdbs) && ForeignAccounted(old(api.pdbs), api.pdbs, steps)
    ensures (forall s :: s in steps ==> !s.PoorScan?) ==> ForeignKept(old(api.pdbs), api.pdbs, None)
  {
    hide Unique, Consistent, Excepted;
    ghost var start := api.pdbs;
    stopped := false;
    assert ForeignAccounted(start, start, steps);
    hide ForeignAccounted;
    for i := 0 to |steps|
      invariant Unique(api.pdbs) && ForeignAccounted(start, api.pdbs, steps)
    {
      ghost var before := api.pdbs;
      assert Fits(steps[i]);
      stopped := Take(api, steps[i], budget, steps, i);
      AccountedTwice(start, before, api.pdbs, steps);
      if stopped {
        break;
      }
    }
    NoScanNoException(start, api.pdbs, steps);
  }

  /** One step. */
  method Take(api: Server, step: Step, budget: nat, ghost steps: seq<Step>, ghost i: nat) returns (stopped: bool)
    requires Unique(api.pdbs) && Fits(step) && i < |steps| && steps[i] == step
    modifies api
    ensures Unique(api.pdbs) && ForeignAccounted(old(api.pdbs), api.pdbs, steps)
  {
    ghost var before := api.pdbs;
    stopped := false;
    hide ForeignKept, Unique, Consistent, ForeignAccounted, PoorAmong, WorkloadsIn, Returned;
    if step.PoorScan? {
      stopped := ScanAllPDBsForPoorConfig(api, step.cfg, step.list, budget);
      ScanIsException(before, api.pdbs, steps, i);
    } else {
      match step {
        case Added(cfg, w) => stopped := ReconcileWorkload(api, cfg, w, budget);
        case Changed(cfg, old', w) => stopped := HandleWorkloadUpdate(api, cfg, old', w, budget);
        case Removed(w) => DeletePDBForWorkload(api, w);
        case GarbageCollection(deployments, statefulSets) => Collect(api, deployments, statefulSets);
        case MultiScan(cfg, namespaces) => ScanAllPDBsForMultiplePDBs(api, cfg, namespaces);
      }
      KeptIsAccounted(before, api.pdbs, steps);
    }
  }

  lemma KeptIsAccounted(a: seq<Pdb>, b: seq<Pdb>, steps: seq<Step>)
    requires ForeignKept(a, b, None)
    ensures ForeignAccounted(a, b, steps)
  {}

  lemma ScanIsException(a: seq<Pdb>, b: seq<Pdb>, steps: seq<Step>, i: nat)
    requires i < |steps| && steps[i].PoorScan?
    requires forall p: Pdb :: !Owned(p.name) && p in b ==> p in a
    requires forall p: Pdb :: !Owned(p.name) && p in a && p !in b ==> PoorAmong(steps[i].cfg, WorkloadsIn(steps[i].list, p.ns), p)
    ensures ForeignAccounted(a, b, steps)
  {
    hide Owned, PoorAmong, WorkloadsIn;
  }

  lemma AccountedTwice(a: seq<Pdb>, b: seq<Pdb>, c: seq<Pdb>, steps: seq<Step>)
    requires ForeignAccounted(a, b, steps) && ForeignAccounted(b, c, steps)
    ensures ForeignAccounted(a, c, steps)
  {
    hide Owned, Excepted;
  }

  lemma NoScanNoException(a: seq<Pdb>, b: seq<Pdb>, steps: seq<Step>)
    requires ForeignAccounted(a, b, steps)
    ensures (forall s :: s in steps ==> !s.PoorScan?) ==> ForeignKept(a, b, None)
  {
    hide Owned, PoorAmong, WorkloadsIn;
  }

  method Collect(api: Server, deployments: PdbGarbage.Directory, statefulSets: PdbGarbage.Directory)
    requires Unique(api.pdbs)
    modifies api
    ensures Unique(api.pdbs) && ForeignKept(old(api.pdbs), api.pdbs, None)
  {
    PdbGarbage.GarbageCollectOrphanedPDBs(api, deployments, statefulSets);
  }
}
