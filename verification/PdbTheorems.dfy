/** When reconciliation of one workload terminates, and what a second run does. No call fails, nobody else
    writes, and deletions are visible at once. */
module PdbTheorems {
  import opened Basics
  import opened Selectors
  import opened PdbModel

  // ----- lists -----

  lemma FirstExists(s: seq<Pdb>, f: Pdb -> bool)
    ensures First(s, f) < |s| <==> exists p :: p in s && f(p)
  {
    var i := First(s, f);
    if i < |s| {
      assert s[i] in s;
    }
  }

  lemma FirstAt(s: seq<Pdb>, f: Pdb -> bool, i: nat)
    requires i < |s| && f(s[i]) && forall k :: 0 <= k < |s| && k != i ==> !f(s[k])
    ensures First(s, f) == i
  {}

  lemma FirstSame(s: seq<Pdb>, r: seq<Pdb>, f: Pdb -> bool)
    requires |s| == |r| && forall k :: 0 <= k < |s| ==> f(s[k]) == f(r[k])
    ensures First(s, f) == First(r, f)
  {}

  lemma RemoveMembers(s: seq<Pdb>, i: nat)
    requires i < |s|
    ensures forall p :: p in s <==> p in Remove(s, i) || p == s[i]
    ensures Unique(s) ==> Unique(Remove(s, i))
    ensures Unique(s) ==> forall p :: p in Remove(s, i) ==> p.ns != s[i].ns || p.name != s[i].name
  {
    var r := Remove(s, i);
    assert forall k :: 0 <= k < |r| ==> r[k] == s[if k < i then k else k + 1];
    forall p | p in s ensures p in r || p == s[i] {
      var k :| 0 <= k < |s| && s[k] == p;
      if k < i { assert r[k] == p; } else if k > i { assert r[k - 1] == p; }
    }
  }

  lemma UpdateKeepsUnique(s: seq<Pdb>, i: nat, p: Pdb)
    requires i < |s| && p.ns == s[i].ns && p.name == s[i].name && Unique(s)
    ensures Unique(s[i := p])
  {}

  lemma InsertAt(s: seq<Pdb>, p: Pdb)
    ensures var k := Position(s, p);
            && |Insert(s, p)| == |s| + 1 && Insert(s, p)[k] == p && Remove(Insert(s, p), k) == s
            && (forall j :: 0 <= j < |s| + 1 && j != k ==> Insert(s, p)[j] == s[if j < k then j else j - 1])
            && (forall q :: q in Insert(s, p) <==> q in s || q == p)
  {
    hide Position;
    var k, r := Position(s, p), Insert(s, p);
    assert Remove(r, k) == s;
    RemoveMembers(r, k);
  }

  lemma InsertKeepsUnique(s: seq<Pdb>, p: Pdb)
    requires Unique(s) && forall q :: q in s ==> q.ns != p.ns || q.name != p.name
    ensures Unique(Insert(s, p))
  {
    InsertAt(s, p);
    hide Position, Insert;
    var k, r := Position(s, p), Insert(s, p);
    forall a, b | 0 <= a < b < |r| ensures r[a].ns != r[b].ns || r[a].name != r[b].name {
      if a == k {
        assert r[b] in s;
      } else if b == k {
        assert r[a] in s;
      }
    }
  }

  function OwnedCount(s: seq<Pdb>): nat {
    if s == [] then 0 else (if Owned(s[0].name) then 1 else 0) + OwnedCount(s[1..])
  }

  lemma {:induction false} RemoveCount(s: seq<Pdb>, i: nat)
    requires i < |s|
    ensures OwnedCount(s) == OwnedCount(Remove(s, i)) + (if Owned(s[i].name) then 1 else 0)
  {
    hide Owned;
    var r := Remove(s, i);
    if i == 0 {
      assert r == s[1..];
    } else {
      assert r[0] == s[0] && r[1..] == Remove(s[1..], i - 1);
      RemoveCount(s[1..], i - 1);
    }
  }

  lemma {:induction false} FilterAll(s: seq<Pdb>, f: Pdb -> bool)
    requires forall p :: p in s ==> f(p)
    ensures Filter(s, f) == s
  {
    if s != [] {
      FilterAll(s[1..], f);
    }
  }

  lemma {:induction false} FilterUnique(s: seq<Pdb>, f: Pdb -> bool)
    requires Unique(s)
    ensures Unique(Filter(s, f))
  {
    if s != [] {
      FilterUnique(s[1..], f);
      var rest := Filter(s[1..], f);
      forall k | 0 <= k < |rest| ensures rest[k].ns != s[0].ns || rest[k].name != s[0].name {
        assert rest[k] in s[1..];
      }
    }
  }

  // ----- what a round does to the budgets that cover the workload -----

  /** The update path deletes this budget and starts over. */
  predicate Discards(cfg: Config, w: Workload, p: Pdb) {
    || p.spec.selector.None? || !ValidSelector(p.spec.selector.value, cfg.ok)
    || (var selector := Enriched(cfg, w, p.spec.selector.value);
        && ValidSelector(selector, cfg.ok)
        && (|| Canon(selector) != Canon(p.spec.selector.value)
            || (NeedsUpdate(p.spec, UpdateSpec(cfg, w, selector)) && Fixes(cfg, w, UpdateSpec(cfg, w, selector)))))
  }

  predicate NoForeign(cfg: Config, w: Workload, s: seq<Pdb>) {
    forall p :: p in s ==> !ForeignCover(cfg, w)(p)
  }

  predicate NoneOwned(cfg: Config, w: Workload, s: seq<Pdb>) {
    forall p :: p in s ==> !OwnedCover(cfg, w)(p)
  }

  predicate AllDiscarded(cfg: Config, w: Workload, s: seq<Pdb>) {
    forall p :: p in s && OwnedCover(cfg, w)(p) ==> Discards(cfg, w, p)
  }

  /** A budget that has the workload's name but does not cover it does not stop the create path. */
  predicate SlotOpen(cfg: Config, w: Workload, s: seq<Pdb>, spec: PdbSpec) {
    forall p :: p in s && Slot(w)(p) && !OwnedCover(cfg, w)(p) ==> Writable(cfg, p, spec)
  }

  predicate Writable(cfg: Config, p: Pdb, spec: PdbSpec) {
    if p.spec.selector.None? then NeedsUpdate(p.spec, spec)
    else ValidSelector(p.spec.selector.value, cfg.ok)
         && (Some(Canon(p.spec.selector.value)) != (if spec.selector.Some? then Some(Canon(spec.selector.value)) else None)
             || NeedsUpdate(p.spec, spec))
  }

  lemma ReachesAt(cfg: Config, w: Workload, s: seq<Pdb>)
    requires Unique(s) && Managed(cfg, w) && Ready(w) && NoForeign(cfg, w, s) && NoneOwned(cfg, w, s)
    ensures
      var j := First(s, Slot(w));
      && (CreateSpec(cfg, w).None? ==> !Reaches(cfg, w, s))
      && (CreateSpec(cfg, w).Some? ==>
            (Reaches(cfg, w, s) <==> (j < |s| ==> Writable(cfg, s[j], CreateSpec(cfg, w).value))))
      && (j == |s| ==> RemoveNamed(s, w.ns, PdbName(w.name)) == s)
      && (j < |s| ==> RemoveNamed(s, w.ns, PdbName(w.name)) == Remove(s, j))
  {
    OnlySlot(s, w);
    hide Managed, Ready, CreateSpec, Writable, OwnedCover, NoForeign, Slot, PdbName, First, Unique, Discards;
    var j := First(s, Slot(w));
    if j < |s| {
      assert !OwnedCover(cfg, w)(s[j]);
    }
    SlotIsNamed(w);
  }

  lemma SlotIsNamed(w: Workload)
    ensures Slot(w) == Named(w.ns, PdbName(w.name))
  {}

  /** Reconciliation gets as far as writing a budget of the create path. A caller can check this beforehand. */
  predicate Reaches(cfg: Config, w: Workload, s: seq<Pdb>) {
    && Managed(cfg, w) && Ready(w) && CreateSpec(cfg, w).Some?
    && NoForeign(cfg, w, s) && AllDiscarded(cfg, w, s) && SlotOpen(cfg, w, s, CreateSpec(cfg, w).value)
  }

  /** ... and FixPoorPDBs then deletes what was written. */
  predicate Diverges(cfg: Config, w: Workload, s: seq<Pdb>) {
    Reaches(cfg, w, s) && Fixes(cfg, w, CreateSpec(cfg, w).value)
  }

  lemma PickIsOwned(cfg: Config, w: Workload, s: seq<Pdb>)
    ensures var i := Pick(cfg, w, s);
            && i <= |s| && (i < |s| ==> OwnedCover(cfg, w)(s[i]))
            && (i < |s| <==> !NoneOwned(cfg, w, s))
  {
    FirstExists(s, OwnedCover(cfg, w));
  }

  lemma RoundUpdates(cfg: Config, w: Workload, s: seq<Pdb>)
    requires Managed(cfg, w) && NoForeign(cfg, w, s) && !NoneOwned(cfg, w, s)
    ensures Pick(cfg, w, s) < |s| && Round(cfg, w, s) == UpdateRound(cfg, w, s, Pick(cfg, w, s))
  {
    PickIsOwned(cfg, w, s);
    FirstExists(s, ForeignCover(cfg, w));
  }

  lemma RoundCreates(cfg: Config, w: Workload, s: seq<Pdb>)
    requires Managed(cfg, w) && NoForeign(cfg, w, s) && NoneOwned(cfg, w, s) && Ready(w)
    ensures Round(cfg, w, s) == CreateRound(cfg, w, s)
  {
    PickIsOwned(cfg, w, s);
    FirstExists(s, ForeignCover(cfg, w));
  }

  /** The update path starts over exactly when it discards its budget, and then nothing else has changed. */
  lemma UpdateAgain(cfg: Config, w: Workload, s: seq<Pdb>, i: nat)
    requires i < |s| && w.selector.Some?
    ensures UpdateRound(cfg, w, s, i).Again? <==> Discards(cfg, w, s[i])
    ensures UpdateRound(cfg, w, s, i).Again? ==> UpdateRound(cfg, w, s, i).pdbs == Remove(s, i)
  {
    if s[i].spec.selector.Some? {
      RemoveUpdated(s, i, s[i].(spec := UpdateSpec(cfg, w, Enriched(cfg, w, s[i].spec.selector.value))));
    }
  }

  lemma RemoveUpdated(s: seq<Pdb>, i: nat, p: Pdb)
    requires i < |s|
    ensures Remove(s[i := p], i) == Remove(s, i)
  {}

  lemma DiscardKeepsReach(cfg: Config, w: Workload, s: seq<Pdb>, i: nat)
    requires i < |s| && OwnedCover(cfg, w)(s[i]) && Discards(cfg, w, s[i])
    ensures Reaches(cfg, w, Remove(s, i)) <==> Reaches(cfg, w, s)
  {
    RemoveMembers(s, i);
  }

  /** The budget of the create path as it is stored. */
  function Fresh(cfg: Config, w: Workload): Pdb
    requires w.selector.Some? && CreateSpec(cfg, w).Some?
  {
    Pdb(w.ns, PdbName(w.name), CreateSpec(cfg, w).value, EMPTY_STATUS)
  }

  lemma OnlySlot(s: seq<Pdb>, w: Workload)
    requires Unique(s)
    ensures var j := First(s, Slot(w));
            if j < |s| then s[j] in s && Slot(w)(s[j]) && forall p :: p in s && Slot(w)(p) ==> p == s[j]
            else forall p :: p in s ==> !Slot(w)(p)
  {
    FirstExists(s, Slot(w));
    var j := First(s, Slot(w));
    forall p | p in s && Slot(w)(p) ensures j < |s| && p == s[j] {
      var k :| 0 <= k < |s| && s[k] == p;
    }
  }

  /** The create path either stops or writes its budget: as a new object without the old one of that name, or
      into the one that has the name. */
  lemma CreateReaches(cfg: Config, w: Workload, s: seq<Pdb>)
    requires Unique(s) && Managed(cfg, w) && Ready(w) && NoForeign(cfg, w, s) && NoneOwned(cfg, w, s)
    ensures !Reaches(cfg, w, s) ==> CreateRound(cfg, w, s) == Done(s)
    ensures Reaches(cfg, w, s) ==>
      var r := RemoveNamed(s, w.ns, PdbName(w.name));
      var j := First(s, Slot(w));
      || CreateRound(cfg, w, s) == CreateAt(cfg, w, r, CreateSpec(cfg, w).value)
      || (j < |s| && CreateRound(cfg, w, s)
                  == AfterWrite(cfg, w, s[j := s[j].(spec := CreateSpec(cfg, w).value)], j))
  {
    ReachesAt(cfg, w, s);
    CreateSelects(cfg, w);
    hide NeedsUpdate, Canon, ValidSelector, AfterWrite, Managed, Ready, PdbName, CreateAt, Reaches, RemoveNamed, First, Slot,
         Unique, NoForeign, NoneOwned, CreateSpec, Enriched, Remove;
    var j := First(s, Slot(w));
    if CreateSpec(cfg, w).Some? && j < |s| {
      TakenRound(cfg, w, s, j, CreateSpec(cfg, w).value);
    }
  }

  lemma CreateSelects(cfg: Config, w: Workload)
    requires w.selector.Some?
    ensures CreateSpec(cfg, w).Some? ==> CreateSpec(cfg, w).value.selector.Some?
  {}

  /** The name is taken. */
  lemma TakenRound(cfg: Config, w: Workload, s: seq<Pdb>, j: nat, spec: PdbSpec)
    requires w.selector.Some? && CreateSpec(cfg, w) == Some(spec) && spec.selector.Some?
    requires j == First(s, Slot(w)) && j < |s|
    ensures !Writable(cfg, s[j], spec) ==> CreateRound(cfg, w, s) == Done(s)
    ensures Writable(cfg, s[j], spec) ==>
      || CreateRound(cfg, w, s) == CreateAt(cfg, w, Remove(s, j), spec)
      || CreateRound(cfg, w, s) == AfterWrite(cfg, w, s[j := s[j].(spec := spec)], j)
  {
    hide NeedsUpdate, Canon, ValidSelector, AfterWrite, CreateAt, First, Slot, CreateSpec, Remove;
  }

  lemma NoSlotLeft(s: seq<Pdb>, w: Workload)
    requires Unique(s)
    ensures var r := RemoveNamed(s, w.ns, PdbName(w.name));
            && Unique(r) && (forall p :: p in r ==> p in s && !Slot(w)(p))
  {
    var j := First(s, Slot(w));
    if j < |s| {
      RemoveMembers(s, j);
    } else {
      FirstExists(s, Slot(w));
    }
  }

  /** A diverging state leads to a diverging state, for ever. */
  lemma DivergenceStays(cfg: Config, w: Workload, s: seq<Pdb>)
    requires Unique(s) && Diverges(cfg, w, s)
    ensures Round(cfg, w, s).Again?
    ensures Unique(Round(cfg, w, s).pdbs) && Diverges(cfg, w, Round(cfg, w, s).pdbs)
  {
    if NoneOwned(cfg, w, s) {
      RoundCreates(cfg, w, s);
      CreateReaches(cfg, w, s);
      NoSlotLeft(s, w);
      var r := RemoveNamed(s, w.ns, PdbName(w.name));
      var spec := CreateSpec(cfg, w).value;
      InsertAt(r, Fresh(cfg, w));
      var j := First(s, Slot(w));
      if j < |s| {
        assert Remove(s[j := s[j].(spec := spec)], j) == Remove(s, j);
      }
      assert Round(cfg, w, s) == Again(r);
    } else {
      RoundUpdates(cfg, w, s);
      PickIsOwned(cfg, w, s);
      var i := Pick(cfg, w, s);
      assert s[i] in s;
      UpdateAgain(cfg, w, s, i);
      DiscardKeepsReach(cfg, w, s, i);
      RemoveMembers(s, i);
    }
  }

  /** Without divergence, the create path ends the reconciliation. */
  lemma CreateEnds(cfg: Config, w: Workload, s: seq<Pdb>)
    requires Unique(s) && Managed(cfg, w) && Ready(w) && NoForeign(cfg, w, s) && NoneOwned(cfg, w, s)
    requires !Diverges(cfg, w, s)
    ensures CreateRound(cfg, w, s).Done?
  {
    hide CreateRound, Reaches;
    CreateReaches(cfg, w, s);
    if Reaches(cfg, w, s) {
      assert CreateSpec(cfg, w).Some? by { DivergesMeans(cfg, w, s); }
      InsertAt(RemoveNamed(s, w.ns, PdbName(w.name)), Fresh(cfg, w));
      hide Insert, Position, RemoveNamed;
    }
  }

  lemma DivergesMeans(cfg: Config, w: Workload, s: seq<Pdb>)
    requires Reaches(cfg, w, s)
    ensures CreateSpec(cfg, w).Some?
  {}

  /** Starting over from a state that does not diverge: a controller's budget covering the workload is gone, and
      nothing else has changed. */
  lemma AgainShrinks(cfg: Config, w: Workload, s: seq<Pdb>)
    requires Unique(s) && !Diverges(cfg, w, s) && Round(cfg, w, s).Again?
    ensures
      var i := Pick(cfg, w, s);
      && i < |s| && OwnedCover(cfg, w)(s[i]) && Discards(cfg, w, s[i])
      && Round(cfg, w, s).pdbs == Remove(s, i)
      && OwnedCount(Remove(s, i)) < OwnedCount(s)
      && Unique(Remove(s, i)) && !Diverges(cfg, w, Remove(s, i))
      && (Reaches(cfg, w, Remove(s, i)) <==> Reaches(cfg, w, s))
  {
    AgainUpdates(cfg, w, s);
    hide Round, Diverges, Reaches, Pick, OwnedCover, Discards, OwnedCount, UpdateRound;
    var i := Pick(cfg, w, s);
    UpdateAgain(cfg, w, s, i);
    DiscardKeepsReach(cfg, w, s, i);
    RemoveMembers(s, i);
    RemoveCount(s, i);
    CoverIsOwned(cfg, w, s[i]);
    DivergesAsReaches(cfg, w, s, Remove(s, i));
  }

  lemma CoverIsOwned(cfg: Config, w: Workload, p: Pdb)
    ensures OwnedCover(cfg, w)(p) ==> Owned(p.name)
  {}

  lemma DivergesAsReaches(cfg: Config, w: Workload, s: seq<Pdb>, r: seq<Pdb>)
    requires Reaches(cfg, w, r) <==> Reaches(cfg, w, s)
    ensures Diverges(cfg, w, r) <==> Diverges(cfg, w, s)
  {
    if Reaches(cfg, w, s) {
      DivergesMeans(cfg, w, s);
    }
    hide Reaches, Fixes, CreateSpec;
  }

  /** Only the update path starts over. */
  lemma AgainUpdates(cfg: Config, w: Workload, s: seq<Pdb>)
    requires Unique(s) && !Diverges(cfg, w, s) && Round(cfg, w, s).Again?
    ensures w.selector.Some? && Pick(cfg, w, s) < |s| && OwnedCover(cfg, w)(s[Pick(cfg, w, s)])
    ensures Round(cfg, w, s) == UpdateRound(cfg, w, s, Pick(cfg, w, s))
  {
    FirstExists(s, ForeignCover(cfg, w));
    PickIsOwned(cfg, w, s);
    hide Diverges, CreateRound, UpdateRound, DropLeftovers, Pick, Ready, RemoveNamed, First, ForeignCover, OwnedCover, Unique;
    if Managed(cfg, w) && Ready(w) && First(s, ForeignCover(cfg, w)) == |s| && Pick(cfg, w, s) == |s| {
      CreateEnds(cfg, w, s);
    }
  }

  // ----- termination -----

  /** The state after at most n rounds. */
  function After(cfg: Config, w: Workload, s: seq<Pdb>, n: nat): Outcome {
    if n == 0 then Again(s)
    else match After(cfg, w, s, n - 1)
         case Done(r) => Done(r)
         case Again(r) => Round(cfg, w, r)
  }

  ghost predicate Terminates(cfg: Config, w: Workload, s: seq<Pdb>) {
    exists n: nat :: After(cfg, w, s, n).Done?
  }

  /** The final state of a terminating reconciliation. */
  function Reconcile(cfg: Config, w: Workload, s: seq<Pdb>): seq<Pdb>
    requires Unique(s) && !Diverges(cfg, w, s)
    decreases OwnedCount(s)
  {
    match Round(cfg, w, s)
    case Done(r) => r
    case Again(r) =>
      AgainShrinks(cfg, w, s);
      Reconcile(cfg, w, r)
  }

  lemma {:induction false} AfterShift(cfg: Config, w: Workload, s: seq<Pdb>, n: nat)
    requires Round(cfg, w, s).Again?
    ensures After(cfg, w, s, n + 1) == After(cfg, w, Round(cfg, w, s).pdbs, n)
  {
    hide Round;
    if n == 0 {
      assert After(cfg, w, s, 0) == Again(s);
    } else {
      AfterShift(cfg, w, s, n - 1);
    }
  }

  /** At most one round more than the controller owns budgets. */
  lemma {:induction false} ReconcileIsReached(cfg: Config, w: Workload, s: seq<Pdb>)
    requires Unique(s) && !Diverges(cfg, w, s)
    ensures exists n: nat :: n <= OwnedCount(s) + 1 && After(cfg, w, s, n) == Done(Reconcile(cfg, w, s))
    decreases OwnedCount(s)
  {
    hide Round, Diverges;
    match Round(cfg, w, s)
    case Done(r) =>
      assert After(cfg, w, s, 0) == Again(s);
      assert After(cfg, w, s, 1) == Done(r);
    case Again(r) =>
      AgainShrinks(cfg, w, s);
      ReconcileIsReached(cfg, w, r);
      var n: nat :| n <= OwnedCount(r) + 1 && After(cfg, w, r, n) == Done(Reconcile(cfg, w, r));
      AfterShift(cfg, w, s, n);
  }

  lemma {:induction false} DivergenceNeverEnds(cfg: Config, w: Workload, s: seq<Pdb>, n: nat)
    requires Unique(s) && Diverges(cfg, w, s)
    ensures After(cfg, w, s, n).Again? && Unique(After(cfg, w, s, n).pdbs) && Diverges(cfg, w, After(cfg, w, s, n).pdbs)
  {
    hide Round, Diverges;
    if n > 0 {
      DivergenceNeverEnds(cfg, w, s, n - 1);
      DivergenceStays(cfg, w, After(cfg, w, s, n - 1).pdbs);
    }
  }

  /** Main theorem. The nested create, update and fix calls end exactly when the state does not diverge. */
  lemma TerminationIff(cfg: Config, w: Workload, s: seq<Pdb>)
    requires Unique(s)
    ensures Terminates(cfg, w, s) <==> !Diverges(cfg, w, s)
  {
    if Diverges(cfg, w, s) {
      forall n: nat ensures !After(cfg, w, s, n).Done? {
        DivergenceNeverEnds(cfg, w, s, n);
      }
    } else {
      ReconcileIsReached(cfg, w, s);
    }
  }

  /** In particular the calls end whenever the budget of the create path is not poor, or poor budgets are left alone. */
  lemma TerminationUnlessPoor(cfg: Config, w: Workload, s: seq<Pdb>)
    requires Unique(s)
    requires w.selector.Some? && CreateSpec(cfg, w).Some? ==> !Fixes(cfg, w, CreateSpec(cfg, w).value)
    ensures Terminates(cfg, w, s)
  {
    TerminationIff(cfg, w, s);
  }
}
