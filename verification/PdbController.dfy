/** The API server's store of PodDisruptionBudgets. Any call may fail unless the server is reliable, and a failed
    write may or may not have been applied. A process that stops is one whose remaining calls all fail unapplied.
    The log records the writes that were applied. */
module PdbServer {
  import opened PdbModel
  import opened PdbTheorems

  datatype Err = Ok | NotFound | AlreadyExists | Failed

  datatype Lookup = Found(pdb: Pdb) | Missing | Unavailable

  datatype Event =
    | Created(before: seq<Pdb>, pdb: Pdb)
    | Updated(ns: string, name: string)
    | Deleted(ns: string, name: string)

  function InNs(ns: string): Pdb -> bool { (p: Pdb) => p.ns == ns }

  class Server {
    var pdbs: seq<Pdb>
    var log: seq<Event>
    const reliable: bool

    constructor (pdbs: seq<Pdb>, reliable: bool)
      ensures this.pdbs == pdbs && log == [] && this.reliable == reliable
    {
      this.pdbs, log, this.reliable := pdbs, [], reliable;
    }

    method List(ns: string) returns (items: seq<Pdb>, ok: bool)
      ensures ok ==> items == Filter(pdbs, InNs(ns))
      ensures reliable ==> ok
    {
      ok := true;
      if * { ok := reliable; }
      items := Filter(pdbs, InNs(ns));
    }

    method ListAll() returns (items: seq<Pdb>, ok: bool)
      ensures ok ==> items == pdbs
      ensures reliable ==> ok
    {
      ok := true;
      if * { ok := reliable; }
      items := pdbs;
    }

    method Get(ns: string, name: string) returns (r: Lookup)
      ensures r.Found? ==> First(pdbs, Named(ns, name)) < |pdbs| && r.pdb == pdbs[First(pdbs, Named(ns, name))]
      ensures r.Missing? ==> First(pdbs, Named(ns, name)) == |pdbs|
      ensures reliable ==> !r.Unavailable?
    {
      var i := First(pdbs, Named(ns, name));
      r := if i < |pdbs| then Found(pdbs[i]) else Missing;
      if * {
        if !reliable { r := Unavailable; }
      }
    }

    method Create(p: Pdb) returns (e: Err)
      requires Unique(pdbs)
      modifies this
      ensures Unique(pdbs)
      ensures e == AlreadyExists ==> First(old(pdbs), Named(p.ns, p.name)) < |old(pdbs)|
      ensures (pdbs == old(pdbs) && log == old(log))
              || (First(old(pdbs), Named(p.ns, p.name)) == |old(pdbs)|
                  && pdbs == Insert(old(pdbs), p) && log == old(log) + [Created(old(pdbs), p)])
      ensures e == Ok ==> pdbs == Insert(old(pdbs), p) && log == old(log) + [Created(old(pdbs), p)]
      ensures e == Ok || e == AlreadyExists || (e == Failed && !reliable)
    {
      FirstExists(pdbs, Named(p.ns, p.name));
      if First(pdbs, Named(p.ns, p.name)) < |pdbs| {
        e := AlreadyExists;
      } else {
        e := Ok;
        var lost := false;
        if * {
          if !reliable {
            e := Failed;
            if * { lost := true; }
          }
        }
        if !lost {
          InsertKeepsUnique(pdbs, p);
          log := log + [Created(pdbs, p)];
          pdbs := Insert(pdbs, p);
        }
      }
    }

    method UpdateSpec(ns: string, name: string, spec: PdbSpec) returns (e: Err)
      requires Unique(pdbs)
      modifies this
      ensures Unique(pdbs)
      ensures
        var i := First(old(pdbs), Named(ns, name));
        || (pdbs == old(pdbs) && log == old(log) && e != Ok)
        || (i < |old(pdbs)| && e != NotFound && log == old(log) + [Updated(ns, name)]
            && pdbs == old(pdbs)[i := old(pdbs)[i].(spec := spec)])
      ensures e == NotFound ==> First(old(pdbs), Named(ns, name)) == |old(pdbs)|
      ensures e == Ok || e == NotFound || (e == Failed && !reliable)
    {
      var i := First(pdbs, Named(ns, name));
      if i == |pdbs| {
        e := NotFound;
      } else {
        e := Ok;
        var lost := false;
        if * {
          if !reliable {
            e := Failed;
            if * { lost := true; }
          }
        }
        if !lost {
          UpdateKeepsUnique(pdbs, i, pdbs[i].(spec := spec));
          pdbs := pdbs[i := pdbs[i].(spec := spec)];
          log := log + [Updated(ns, name)];
        }
      }
    }

    method Delete(ns: string, name: string) returns (e: Err)
      requires Unique(pdbs)
      modifies this
      ensures Unique(pdbs)
      ensures (pdbs == old(pdbs) && log == old(log))
              || (pdbs == RemoveNamed(old(pdbs), ns, name) && log == old(log) + [Deleted(ns, name)])
      ensures e == Ok || e == NotFound ==> pdbs == RemoveNamed(old(pdbs), ns, name)
      ensures e == Ok || e == NotFound || (e == Failed && !reliable)
    {
      var i := First(pdbs, Named(ns, name));
      if i == |pdbs| {
        e := NotFound;
      } else {
        e := Ok;
        var lost := false;
        if * {
          if !reliable {
            e := Failed;
            if * { lost := true; }
          }
        }
        if !lost {
          RemoveMembers(pdbs, i);
          pdbs := RemoveNamed(pdbs, ns, name);
          log := log + [Deleted(ns, name)];
        }
      }
    }
  }
}

/** createPDBForWorkload, updateExistingPDB and logAndFixPoorPDBConfig as methods on the server. */
module PdbController {
  import opened Basics
  import opened Selectors
  import opened PdbModel
  import opened PdbTheorems
  import opened PdbIdempotence
  import opened PdbServer

  // ----- what every run keeps -----

  /** A write this workload's reconciliation may make. `extra` is a budget it was told to delete. */
  predicate Allowed(cfg: Config, w: Workload, e: Event, extra: Option<(string, string)>) {
    match e
    case Created(before, p) =>
      && p == Pdb(w.ns, PdbName(w.name), p.spec, EMPTY_STATUS)
      && Managed(cfg, w) && Ready(w) && CreateSpec(cfg, w) == Some(p.spec)
      && (forall q :: q in before ==> !Covers(cfg, w, q) && !Slot(w)(q))
    case Updated(ns, name) => ns == w.ns && Owned(name)
    case Deleted(ns, name) => (ns == w.ns && Owned(name)) || extra == Some((ns, name))
  }

  predicate AllAllowed(cfg: Config, w: Workload, events: seq<Event>, extra: Option<(string, string)>) {
    forall i :: 0 <= i < |events| ==> Allowed(cfg, w, events[i], extra)
  }

  /** Budgets the controller does not own stay as they are; `extra` may have gone. */
  ghost predicate ForeignKept(a: seq<Pdb>, b: seq<Pdb>, extra: Option<(string, string)>) {
    forall p: Pdb :: !Owned(p.name) ==> (p in b ==> p in a) && (p in a && extra != Some((p.ns, p.name)) ==> p in b)
  }

  ghost predicate Kept(cfg: Config, w: Workload, a: seq<Pdb>, logA: seq<Event>, b: seq<Pdb>, logB: seq<Event>,
                 extra: Option<(string, string)>)
  {
    logA <= logB && AllAllowed(cfg, w, logB[|logA|..], extra) && ForeignKept(a, b, extra)
  }

  lemma KeptTrans(cfg: Config, w: Workload, a: seq<Pdb>, logA: seq<Event>, b: seq<Pdb>, logB: seq<Event>,
                  c: seq<Pdb>, logC: seq<Event>, extra: Option<(string, string)>)
    requires Kept(cfg, w, a, logA, b, logB, None) || Kept(cfg, w, a, logA, b, logB, extra)
    requires Kept(cfg, w, b, logB, c, logC, None) || Kept(cfg, w, b, logB, c, logC, extra)
    ensures Kept(cfg, w, a, logA, c, logC, extra)
  {
    hide Owned, CreateSpec, Covers, Managed, Ready, Slot;
    var x, y, z := logB[|logA|..], logC[|logB|..], logC[|logA|..];
    assert z == x + y;
    forall i | 0 <= i < |z| ensures Allowed(cfg, w, z[i], extra) {
      if i < |x| { assert z[i] == x[i]; } else { assert z[i] == y[i - |x|]; }
    }
  }

  lemma NothingHappened(cfg: Config, w: Workload, a: seq<Pdb>, log: seq<Event>)
    ensures Kept(cfg, w, a, log, a, log, None)
  {}

  lemma DeletionKeeps(cfg: Config, w: Workload, a: seq<Pdb>, log: seq<Event>, ns: string, name: string,
                      extra: Option<(string, string)>)
    requires (ns == w.ns && Owned(name)) || extra == Some((ns, name))
    ensures Kept(cfg, w, a, log, RemoveNamed(a, ns, name), log + [Deleted(ns, name)], extra)
    ensures Kept(cfg, w, a, log, RemoveNamed(a, ns, name), log, extra)
  {
    var i := First(a, Named(ns, name));
    assert (log + [Deleted(ns, name)])[|log|..] == [Deleted(ns, name)];
    if i < |a| {
      RemoveMembers(a, i);
    }
  }

  lemma UpdateKeeps(cfg: Config, w: Workload, a: seq<Pdb>, log: seq<Event>, i: nat, spec: PdbSpec)
    requires i < |a| && a[i].ns == w.ns && Owned(a[i].name)
    ensures Kept(cfg, w, a, log, a[i := a[i].(spec := spec)], log + [Updated(a[i].ns, a[i].name)], None)
  {
    var b := a[i := a[i].(spec := spec)];
    assert (log + [Updated(a[i].ns, a[i].name)])[|log|..] == [Updated(a[i].ns, a[i].name)];
    forall p: Pdb | !Owned(p.name) ensures p in a <==> p in b {
      if p in a {
        var k :| 0 <= k < |a| && a[k] == p;
        assert b[k] == p;
      }
    }
  }

  lemma CreationKeeps(cfg: Config, w: Workload, a: seq<Pdb>, log: seq<Event>, p: Pdb)
    requires Allowed(cfg, w, Created(a, p), None)
    ensures Kept(cfg, w, a, log, Insert(a, p), log + [Created(a, p)], None)
  {
    assert (log + [Created(a, p)])[|log|..] == [Created(a, p)];
    InsertAt(a, p);
    PdbNameIsOwned(w.name);
  }

  // ----- lists -----

  lemma FirstCons(x: Pdb, t: seq<Pdb>, f: Pdb -> bool)
    ensures First([x] + t, f) == if f(x) then 0 else 1 + First(t, f)
  {
    assert ([x] + t)[0] == x && ([x] + t)[1..] == t;
  }

  lemma FilterCons(x: Pdb, t: seq<Pdb>, f: Pdb -> bool)
    ensures Filter([x] + t, f) == if f(x) then [x] + Filter(t, f) else Filter(t, f)
  {
    assert ([x] + t)[0] == x && ([x] + t)[1..] == t;
  }

  /** The first element satisfying f. */
  function Chosen(s: seq<Pdb>, f: Pdb -> bool): Option<Pdb> {
    if s == [] then None else if f(s[0]) then Some(s[0]) else Chosen(s[1..], f)
  }

  lemma {:induction false} ChosenIsFirst(s: seq<Pdb>, f: Pdb -> bool)
    ensures Chosen(s, f) == if First(s, f) < |s| then Some(s[First(s, f)]) else None
  {
    if s != [] {
      ChosenIsFirst(s[1..], f);
    }
  }

  lemma {:induction false} ChosenFiltered(s: seq<Pdb>, g: Pdb -> bool, f: Pdb -> bool)
    requires forall p :: p in s && f(p) ==> g(p)
    ensures Chosen(Filter(s, g), f) == Chosen(s, f)
  {
    if s != [] {
      var x, t := s[0], s[1..];
      assert s == [x] + t;
      ChosenFiltered(t, g, f);
      FilterCons(x, t, g);
      assert ([x] + Filter(t, g))[1..] == Filter(t, g);
      hide Filter;
    }
  }

  lemma FirstFiltered(s: seq<Pdb>, g: Pdb -> bool, f: Pdb -> bool)
    requires forall p :: p in s && f(p) ==> g(p)
    ensures First(Filter(s, g), f) < |Filter(s, g)| <==> First(s, f) < |s|
    ensures First(s, f) < |s| ==> Filter(s, g)[First(Filter(s, g), f)] == s[First(s, f)]
  {
    ChosenFiltered(s, g, f);
    ChosenIsFirst(s, f);
    ChosenIsFirst(Filter(s, g), f);
    hide Chosen, First, Filter;
  }

  function CoverOf(cfg: Config, w: Workload): Pdb -> bool { (p: Pdb) => Covers(cfg, w, p) }

  /** The budget that the scan settles on. */
  function Choice(cfg: Config, w: Workload, s: seq<Pdb>): Option<Pdb> {
    if Pick(cfg, w, s) < |s| then Some(s[Pick(cfg, w, s)]) else None
  }

  lemma CoverIsInNs(cfg: Config, w: Workload, p: Pdb)
    ensures ExactCover(cfg, w)(p) ==> OwnedCover(cfg, w)(p)
    ensures OwnedCover(cfg, w)(p) || ForeignCover(cfg, w)(p) ==> InNs(w.ns)(p)
  {
    hide Owned, Canon, Matches, ValidSelector, Enriched;
  }

  lemma ChoiceFiltered(cfg: Config, w: Workload, s: seq<Pdb>)
    ensures Choice(cfg, w, Filter(s, InNs(w.ns))) == Choice(cfg, w, s)
    ensures NoForeign(cfg, w, Filter(s, InNs(w.ns))) <==> NoForeign(cfg, w, s)
  {
    forall p | p in s
      ensures ExactCover(cfg, w)(p) ==> InNs(w.ns)(p)
      ensures OwnedCover(cfg, w)(p) || ForeignCover(cfg, w)(p) ==> InNs(w.ns)(p)
    {
      CoverIsInNs(cfg, w, p);
    }
    hide ExactCover, OwnedCover, ForeignCover, InNs;
    FirstFiltered(s, InNs(w.ns), ExactCover(cfg, w));
    FirstFiltered(s, InNs(w.ns), OwnedCover(cfg, w));
  }

  lemma {:induction false} FilterAppend(s: seq<Pdb>, p: Pdb, f: Pdb -> bool)
    ensures Filter(s + [p], f) == Filter(s, f) + (if f(p) then [p] else [])
  {
    if s != [] {
      assert (s + [p])[1..] == s[1..] + [p];
      FilterAppend(s[1..], p, f);
    } else {
      assert s + [p] == [p];
    }
  }

  lemma {:induction false} ChosenAppend(s: seq<Pdb>, p: Pdb, f: Pdb -> bool)
    ensures Chosen(s + [p], f) == if Chosen(s, f).Some? then Chosen(s, f) else if f(p) then Some(p) else None
  {
    if s != [] {
      assert (s + [p])[1..] == s[1..] + [p];
      ChosenAppend(s[1..], p, f);
    } else {
      assert s + [p] == [p];
    }
  }

  lemma ChoiceIsChosen(cfg: Config, w: Workload, s: seq<Pdb>)
    ensures Choice(cfg, w, s) == if Chosen(s, ExactCover(cfg, w)).Some? then Chosen(s, ExactCover(cfg, w))
                                 else Chosen(s, OwnedCover(cfg, w))
  {
    hide ExactCover, OwnedCover;
    ChosenIsFirst(s, ExactCover(cfg, w));
    ChosenIsFirst(s, OwnedCover(cfg, w));
    hide First, Chosen;
  }

  lemma ExactImpliesOwned(cfg: Config, w: Workload, p: Pdb)
    ensures ExactCover(cfg, w)(p) ==> OwnedCover(cfg, w)(p)
  {
    CoverIsInNs(cfg, w, p);
  }

  lemma ChoiceAppend(cfg: Config, w: Workload, s: seq<Pdb>, p: Pdb)
    ensures Chosen(s + [p], ExactCover(cfg, w)).Some? <==> Chosen(s, ExactCover(cfg, w)).Some? || ExactCover(cfg, w)(p)
    ensures Choice(cfg, w, s + [p]) ==
            if OwnedCover(cfg, w)(p)
               && (Choice(cfg, w, s).None? || (ExactCover(cfg, w)(p) && Chosen(s, ExactCover(cfg, w)).None?))
            then Some(p) else Choice(cfg, w, s)
  {
    hide ExactCover, OwnedCover, Choice, Chosen;
    ExactImpliesOwned(cfg, w, p);
    ChoiceIsChosen(cfg, w, s);
    ChoiceIsChosen(cfg, w, s + [p]);
    ChosenAppend(s, p, ExactCover(cfg, w));
    ChosenAppend(s, p, OwnedCover(cfg, w));
  }

  lemma ForeignAppend(cfg: Config, w: Workload, s: seq<Pdb>, p: Pdb)
    ensures NoForeign(cfg, w, s + [p]) <==> NoForeign(cfg, w, s) && !ForeignCover(cfg, w)(p)
  {
    assert forall q :: q in s + [p] <==> q in s || q == p;
  }

  /** What the scan knows after the budgets `seen`. */
  ghost predicate ScanState(cfg: Config, w: Workload, seen: seq<Pdb>, existing: Option<Pdb>, exactFound: bool,
                          foreign: bool, covering: seq<Pdb>)
  {
    && existing == Choice(cfg, w, seen)
    && (exactFound <==> Chosen(seen, ExactCover(cfg, w)).Some?)
    && (foreign <==> !NoForeign(cfg, w, seen))
    && covering == Filter(seen, CoverOf(cfg, w))
  }

  lemma ScanStep(cfg: Config, w: Workload, seen: seq<Pdb>, pdb: Pdb, existing: Option<Pdb>, exactFound: bool,
                 foreign: bool, covering: seq<Pdb>)
    requires ScanState(cfg, w, seen, existing, exactFound, foreign, covering)
    ensures existing.None? ==> !exactFound
    ensures
      var next := seen + [pdb];
      if !CoverOf(cfg, w)(pdb) then ScanState(cfg, w, next, existing, exactFound, foreign, covering)
      else if !Owned(pdb.name) then ScanState(cfg, w, next, existing, exactFound, true, covering + [pdb])
      else if existing.None? || (ExactCover(cfg, w)(pdb) && !exactFound) then
        ScanState(cfg, w, next, Some(pdb), exactFound || ExactCover(cfg, w)(pdb), foreign, covering + [pdb])
      else ScanState(cfg, w, next, existing, exactFound || ExactCover(cfg, w)(pdb), foreign, covering + [pdb])
  {
    ExactIsChosen(cfg, w, seen);
    FilterAppend(seen, pdb, CoverOf(cfg, w));
    ChoiceAppend(cfg, w, seen, pdb);
    ForeignAppend(cfg, w, seen, pdb);
    Classified(cfg, w, pdb);
    hide Choice, NoForeign, First, Chosen, Filter, Owned, Covers, Enriched, Canon, ExactCover, OwnedCover, ForeignCover, CoverOf;
  }

  lemma ExactIsChosen(cfg: Config, w: Workload, s: seq<Pdb>)
    ensures Chosen(s, ExactCover(cfg, w)).Some? ==> Choice(cfg, w, s).Some?
  {
    ChoiceIsChosen(cfg, w, s);
  }

  /** The body of the loop below. */
  method ScanOne(cfg: Config, w: Workload, selector: Selector, pdb: Pdb, existing: Option<Pdb>, exactFound: bool,
                 foreign: bool, covering: seq<Pdb>, ghost seen: seq<Pdb>)
    returns (existing': Option<Pdb>, exactFound': bool, foreign': bool, covering': seq<Pdb>)
    requires w.selector.Some? && selector == Enriched(cfg, w, w.selector.value)
    requires ScanState(cfg, w, seen, existing, exactFound, foreign, covering)
    ensures ScanState(cfg, w, seen + [pdb], existing', exactFound', foreign', covering')
  {
    existing', exactFound', foreign', covering' := existing, exactFound, foreign, covering;
    ScanStep(cfg, w, seen, pdb, existing, exactFound, foreign, covering);
    Classified(cfg, w, pdb);
    hide ScanState, Owned, Covers, Enriched, Canon, ExactCover, OwnedCover, ForeignCover, CoverOf;
    if !Covers(cfg, w, pdb) {
      return;
    }
    covering' := covering + [pdb];
    SelectorOfCover(cfg, w, pdb);
    var exact := Canon(pdb.spec.selector.value) == Canon(selector);
    if Owned(pdb.name) {
      if existing.None? || (exact && !exactFound) {
        existing' := Some(pdb);
        exactFound' := exact;
      }
    } else {
      foreign' := true;
    }
  }

  /** The loop over the listed budgets: the covering ones, the choice among the controller's, and whether one of
      them is foreign. */
  method ScanCovering(cfg: Config, w: Workload, items: seq<Pdb>)
    returns (existing: Option<Pdb>, foreign: bool, covering: seq<Pdb>)
    requires Managed(cfg, w)
    ensures existing == Choice(cfg, w, items)
    ensures foreign <==> !NoForeign(cfg, w, items)
    ensures covering == Filter(items, CoverOf(cfg, w))
  {
    hide Choice, NoForeign, First, Chosen, Filter, Covers, CoverOf;
    existing, foreign, covering := None, false, [];
    var exactFound := false;
    var selector := Enriched(cfg, w, w.selector.value);
    ScanNothing(cfg, w);
    assert items[..0] == [];
    for i := 0 to |items|
      invariant ScanState(cfg, w, items[..i], existing, exactFound, foreign, covering)
    {
      assert items[..i + 1] == items[..i] + [items[i]];
      existing, exactFound, foreign, covering :=
        ScanOne(cfg, w, selector, items[i], existing, exactFound, foreign, covering, items[..i]);
    }
    assert items[..|items|] == items;
  }

  lemma SelectorOfCover(cfg: Config, w: Workload, p: Pdb)
    requires Covers(cfg, w, p)
    ensures p.spec.selector.Some?
  {}

  lemma Classified(cfg: Config, w: Workload, p: Pdb)
    ensures CoverOf(cfg, w)(p) <==> Covers(cfg, w, p)
    ensures OwnedCover(cfg, w)(p) <==> Covers(cfg, w, p) && Owned(p.name)
    ensures ForeignCover(cfg, w)(p) <==> Covers(cfg, w, p) && !Owned(p.name)
    ensures Covers(cfg, w, p) && Owned(p.name) && w.selector.Some? ==>
      p.spec.selector.Some?
      && (ExactCover(cfg, w)(p) <==> Canon(p.spec.selector.value) == Canon(Enriched(cfg, w, w.selector.value)))
    ensures ExactCover(cfg, w)(p) ==> OwnedCover(cfg, w)(p)
  {}

  lemma ScanNothing(cfg: Config, w: Workload)
    ensures Choice(cfg, w, []) == None && NoForeign(cfg, w, [])
    ensures Filter([], CoverOf(cfg, w)) == [] && Chosen([], ExactCover(cfg, w)) == None
  {}

  // ----- leftovers beside a CAST Helm-style budget -----

  function NotIn(gone: set<Pdb>): Pdb -> bool { (p: Pdb) => p !in gone }

  lemma RemoveNamedCons(x: Pdb, t: seq<Pdb>, ns: string, name: string)
    ensures RemoveNamed([x] + t, ns, name)
         == if Named(ns, name)(x) then t else [x] + RemoveNamed(t, ns, name)
  {
    FirstCons(x, t, Named(ns, name));
    hide First;
    var s, i := [x] + t, First(t, Named(ns, name));
    if Named(ns, name)(x) {
      assert Remove(s, 0) == t;
    } else if i < |t| {
      assert Remove(s, i + 1) == [x] + Remove(t, i);
    }
  }

  lemma {:induction false} RemoveAbsent(s: seq<Pdb>, ns: string, name: string)
    requires forall p :: p in s ==> p.ns != ns || p.name != name
    ensures RemoveNamed(s, ns, name) == s
  {
    FirstExists(s, Named(ns, name));
  }

  lemma {:induction false} FilterIrrelevant(s: seq<Pdb>, gone: set<Pdb>, p: Pdb)
    requires p !in s
    ensures Filter(s, NotIn(gone + {p})) == Filter(s, NotIn(gone))
  {
    if s != [] {
      FilterIrrelevant(s[1..], gone, p);
    }
  }

  /** Deleting by name one of the budgets of `s`, of which some are gone already. */
  lemma {:induction false} DeleteOne(s: seq<Pdb>, gone: set<Pdb>, p: Pdb)
    requires Unique(s) && p in s
    ensures RemoveNamed(Filter(s, NotIn(gone)), p.ns, p.name) == Filter(s, NotIn(gone + {p}))
  {
    var x, t := s[0], s[1..];
    var rest, rest' := Filter(t, NotIn(gone)), Filter(t, NotIn(gone + {p}));
    assert Unique(t) && (forall q :: q in t ==> q.ns != x.ns || q.name != x.name);
    assert Filter(s, NotIn(gone)) == (if x in gone then [] else [x]) + rest;
    assert Filter(s, NotIn(gone + {p})) == (if x in gone || x == p then [] else [x]) + rest';
    assert [] + rest == rest && [] + rest' == rest';
    RemoveNamedCons(x, rest, p.ns, p.name);
    if x == p {
      FilterIrrelevant(t, gone, p);
      RemoveAbsent(rest, p.ns, p.name);
    } else {
      assert p in t;
      DeleteOne(t, gone, p);
    }
    hide Filter, RemoveNamed, First;
  }

  lemma {:induction false} FilterSame(s: seq<Pdb>, f: Pdb -> bool, g: Pdb -> bool)
    requires forall p :: p in s ==> f(p) == g(p)
    ensures Filter(s, f) == Filter(s, g)
  {
    if s != [] {
      FilterSame(s[1..], f, g);
    }
  }

  lemma DeleteNamedKeeps(cfg: Config, w: Workload, a: seq<Pdb>, logA: seq<Event>, b: seq<Pdb>, logB: seq<Event>,
                         c: seq<Pdb>, logC: seq<Event>, name: string)
    requires Kept(cfg, w, a, logA, b, logB, None) && Owned(name)
    requires (c == b && logC == logB) || (c == RemoveNamed(b, w.ns, name) && logC == logB + [Deleted(w.ns, name)])
             || (c == RemoveNamed(b, w.ns, name) && logC == logB)
    ensures Kept(cfg, w, a, logA, c, logC, None)
  {
    DeletionKeeps(cfg, w, b, logB, w.ns, name, None);
    NothingHappened(cfg, w, b, logB);
    KeptTrans(cfg, w, a, logA, b, logB, c, logC, None);
  }

  /** Deletes the controller's covering budgets when a CAST Helm-style budget covers too; a failed deletion is
      skipped. `listed` is the state in which the covering budgets were read. */
  method DeleteLeftovers(api: Server, cfg: Config, w: Workload, covering: seq<Pdb>, ghost listed: seq<Pdb>,
                         ghost gone: set<Pdb>)
    returns (ghost gone': set<Pdb>)
    requires Unique(api.pdbs) && Unique(listed)
    requires forall p :: p in covering <==> p in listed && Covers(cfg, w, p)
    requires api.reliable ==> api.pdbs == Filter(listed, NotIn(gone))
    modifies api
    ensures Unique(api.pdbs) && Kept(cfg, w, old(api.pdbs), old(api.log), api.pdbs, api.log, None)
    ensures api.reliable ==> api.pdbs == Filter(listed, NotIn(gone'))
    ensures gone' == if exists p :: p in covering && HelmStyle(p.name)
                     then gone + (set p | p in covering && Owned(p.name)) else gone
  {
    hide Kept, Filter, NotIn;
    gone' := gone;
    NothingHappened(cfg, w, api.pdbs, api.log);
    var hasCastaiHelm := HasCastaiHelm(covering);
    if hasCastaiHelm {
      gone' := DeleteOwned(api, cfg, w, covering, listed, gone);
    }
  }

  method HasCastaiHelm(covering: seq<Pdb>) returns (found: bool)
    ensures found <==> exists p :: p in covering && HelmStyle(p.name)
  {
    for i := 0 to |covering|
      invariant forall k :: 0 <= k < i ==> !HelmStyle(covering[k].name)
    {
      if HelmStyle(covering[i].name) {
        assert covering[i] in covering;
        return true;
      }
    }
    found := false;
  }

  method DeleteOwned(api: Server, cfg: Config, w: Workload, covering: seq<Pdb>, ghost listed: seq<Pdb>,
                     ghost gone: set<Pdb>)
    returns (ghost gone': set<Pdb>)
    requires Unique(api.pdbs) && Unique(listed)
    requires forall p :: p in covering <==> p in listed && Covers(cfg, w, p)
    requires api.reliable ==> api.pdbs == Filter(listed, NotIn(gone))
    modifies api
    ensures Unique(api.pdbs) && Kept(cfg, w, old(api.pdbs), old(api.log), api.pdbs, api.log, None)
    ensures api.reliable ==> api.pdbs == Filter(listed, NotIn(gone'))
    ensures gone' == gone + (set p | p in covering && Owned(p.name))
  {
    hide Kept, HelmStyle, Owned, Covers, Filter, RemoveNamed, NotIn;
    gone' := gone;
    NothingHappened(cfg, w, api.pdbs, api.log);
    for i := 0 to |covering|
      invariant Unique(api.pdbs) && Kept(cfg, w, old(api.pdbs), old(api.log), api.pdbs, api.log, None)
      invariant gone' == gone + (set p | p in covering[..i] && Owned(p.name))
      invariant api.reliable ==> api.pdbs == Filter(listed, NotIn(gone'))
    {
      var p := covering[i];
      assert covering[..i + 1] == covering[..i] + [p];
      if !Owned(p.name) {
        continue;
      }
      assert p in covering;
      ghost var b, logB := api.pdbs, api.log;
      CoverNs(cfg, w, p);
      DeleteOne(listed, gone', p);
      var err := api.Delete(w.ns, p.name);
      DeleteNamedKeeps(cfg, w, old(api.pdbs), old(api.log), b, logB, api.pdbs, api.log, p.name);
      gone' := gone' + {p};
    }
    assert covering[..|covering|] == covering;
  }

  lemma CoverNs(cfg: Config, w: Workload, p: Pdb)
    requires Covers(cfg, w, p)
    ensures p.ns == w.ns
  {}

  /** Everything the covering list shows about the leftovers of one workload. */
  lemma LeftoversAreDropped(cfg: Config, w: Workload, s: seq<Pdb>, covering: seq<Pdb>, gone: set<Pdb>)
    requires forall p :: p in covering <==> p in s && Covers(cfg, w, p)
    requires gone == if exists p :: p in covering && HelmStyle(p.name)
                     then set p | p in covering && Owned(p.name) else {}
    ensures Filter(s, NotIn(gone)) == DropLeftovers(cfg, w, s)
  {
    hide Owned, HelmStyle, Covers;
    FirstExists(s, HelmCover(cfg, w));
    if exists p :: p in covering && HelmStyle(p.name) {
      forall p | p in s ensures NotIn(gone)(p) == NotOwnedCover(cfg, w)(p) {
        assert p in gone <==> OwnedCover(cfg, w)(p);
      }
      FilterSame(s, NotIn(gone), NotOwnedCover(cfg, w));
    } else {
      FilterAll(s, NotIn(gone));
    }
  }

  // ----- the mutually recursive methods -----

  lemma RemoveNamedUnique(s: seq<Pdb>, ns: string, name: string)
    requires Unique(s)
    ensures Unique(RemoveNamed(s, ns, name))
  {
    var i := First(s, Named(ns, name));
    if i < |s| {
      RemoveMembers(s, i);
    }
  }

  /** Names are unique, so looking a budget up by name finds the one that was read. */
  lemma IndexByName(s: seq<Pdb>, i: nat)
    requires Unique(s) && i < |s|
    ensures First(s, Named(s[i].ns, s[i].name)) == i
    ensures RemoveNamed(s, s[i].ns, s[i].name) == Remove(s, i)
  {
    FirstAt(s, Named(s[i].ns, s[i].name), i);
  }

  predicate FixesAs(cfg: Config, w: Workload, spec: PdbSpec, replicas: int32) {
    cfg.fixPoorPDBs && !w.bypass && Poor(spec, replicas)
  }

  /** What a reconciliation from s comes to on a server whose calls do not fail: it returns only where it ends, with
      the final state, and a budget of as many restarts as there are budgets of the controller is enough for that. */
  ghost predicate Returned(cfg: Config, w: Workload, s: seq<Pdb>, final: seq<Pdb>, stopped: bool, budget: nat) {
    && Unique(s)
    && (!stopped ==> !Diverges(cfg, w, s) && final == Reconcile(cfg, w, s))
    && (!Diverges(cfg, w, s) && OwnedCount(s) <= budget ==> !stopped)
  }

  /** What the rest of the reconciliation makes of the outcome of a round. */
  ghost predicate Ends(cfg: Config, w: Workload, o: Outcome, final: seq<Pdb>, stopped: bool, budget: nat) {
    match o
    case Done(r) => !stopped && final == r
    case Again(r) => if budget == 0 then stopped else Returned(cfg, w, r, final, stopped, budget - 1)
  }

  lemma RoundEnds(cfg: Config, w: Workload, s: seq<Pdb>, final: seq<Pdb>, stopped: bool, budget: nat)
    requires Unique(s) && Ends(cfg, w, Round(cfg, w, s), final, stopped, budget)
    ensures Returned(cfg, w, s, final, stopped, budget)
  {
    hide Round, Diverges;
    if Diverges(cfg, w, s) {
      DivergenceStays(cfg, w, s);
    } else if Round(cfg, w, s).Again? {
      AgainShrinks(cfg, w, s);
    }
  }

  predicate NoneNamed(s: seq<Pdb>, ns: string, name: string) {
    forall p :: p in s ==> !Named(ns, name)(p)
  }

  lemma StaysGone(cfg: Config, w: Workload, a: seq<Pdb>, b: seq<Pdb>, logB: seq<Event>, c: seq<Pdb>, logC: seq<Event>,
                  pdb: Pdb)
    requires Unique(a) && b == RemoveNamed(a, pdb.ns, pdb.name) && Kept(cfg, w, b, logB, c, logC, None)
    ensures !Owned(pdb.name) ==> NoneNamed(c, pdb.ns, pdb.name)
  {
    var i := First(a, Named(pdb.ns, pdb.name));
    FirstExists(a, Named(pdb.ns, pdb.name));
    if i < |a| {
      RemoveMembers(a, i);
    }
    assert NoneNamed(b, pdb.ns, pdb.name);
  }

  method DeleteIfUnderReplicated(api: Server, cfg: Config, w: Workload) returns (stop: bool)
    requires Unique(api.pdbs)
    modifies api
    ensures stop <==> UnderReplicated(w)
    ensures !stop ==> api.pdbs == old(api.pdbs) && api.log == old(api.log)
    ensures Unique(api.pdbs) && Kept(cfg, w, old(api.pdbs), old(api.log), api.pdbs, api.log, None)
    ensures api.reliable && stop ==> api.pdbs == RemoveNamed(old(api.pdbs), w.ns, PdbName(w.name))
  {
    NothingHappened(cfg, w, api.pdbs, api.log);
    if w.replicas.Some? && w.replicas.value >= 2 {
      return false;
    }
    hide Kept, Owned, RemoveNamed;
    PdbNameIsOwned(w.name);
    var err := api.Delete(w.ns, PdbName(w.name));
    DeleteNamedKeeps(cfg, w, old(api.pdbs), old(api.log), old(api.pdbs), old(api.log), api.pdbs, api.log, PdbName(w.name));
    stop := true;
  }

  // Each of these methods has a budget of restarts. When it is used up, the process stops where it is; the caller
  // is told so and stops too.

  /** Deletes a poor budget and starts over, when FixPoorPDBs is on and the workload is not bypassed. */
  method LogAndFixPoorPDBConfig(api: Server, cfg: Config, w: Workload, pdb: Pdb, replicas: int32, budget: nat)
    returns (stopped: bool)
    requires Unique(api.pdbs)
    modifies api
    ensures Unique(api.pdbs)
    ensures Kept(cfg, w, old(api.pdbs), old(api.log), api.pdbs, api.log, Some((pdb.ns, pdb.name)))
    ensures !FixesAs(cfg, w, pdb.spec, replicas) ==> !stopped && api.pdbs == old(api.pdbs) && api.log == old(api.log)
    ensures api.reliable && FixesAs(cfg, w, pdb.spec, replicas) ==>
              Ends(cfg, w, Again(RemoveNamed(old(api.pdbs), pdb.ns, pdb.name)), api.pdbs, stopped, budget)
    ensures api.reliable && FixesAs(cfg, w, pdb.spec, replicas) && !Owned(pdb.name) ==>
              NoneNamed(api.pdbs, pdb.ns, pdb.name)
    decreases budget, 0
  {
    stopped := false;
    ghost var a, logA, extra := api.pdbs, api.log, Some((pdb.ns, pdb.name));
    NothingHappened(cfg, w, a, logA);
    KeptTrans(cfg, w, a, logA, a, logA, a, logA, extra);
    if Poor(pdb.spec, replicas) && cfg.fixPoorPDBs {
      if w.bypass {
        return;
      }
      hide Kept, Poor, Diverges, RemoveNamed, Reconcile, Returned;
      RemoveNamedUnique(a, pdb.ns, pdb.name);
      DeletionKeeps(cfg, w, a, logA, pdb.ns, pdb.name, extra);
      var err := api.Delete(pdb.ns, pdb.name);
      if err != Ok && err != NotFound {
        return;
      }
      ghost var b, logB := api.pdbs, api.log;
      NothingHappened(cfg, w, b, logB);
      if budget == 0 {
        StaysGone(cfg, w, a, b, logB, b, logB, pdb);
        return true;
      }
      stopped := CreatePDBForWorkload(api, cfg, w, budget - 1);
      KeptTrans(cfg, w, a, logA, b, logB, api.pdbs, api.log, extra);
      StaysGone(cfg, w, a, b, logB, api.pdbs, api.log, pdb);
    }
  }

  /** Brings an existing budget in line: deletes and starts over when its selector has to change, else updates it. */
  method UpdateExistingPDB(api: Server, cfg: Config, w: Workload, existing: Pdb, ghost i: nat, budget: nat)
    returns (stopped: bool)
    requires Unique(api.pdbs) && Managed(cfg, w) && i < |api.pdbs| && api.pdbs[i] == existing
    requires existing.ns == w.ns && Owned(existing.name)
    modifies api
    ensures Unique(api.pdbs) && Kept(cfg, w, old(api.pdbs), old(api.log), api.pdbs, api.log, None)
    ensures api.reliable ==> Ends(cfg, w, UpdateRound(cfg, w, old(api.pdbs), i), api.pdbs, stopped, budget)
    decreases budget, 2
  {
    stopped := false;
    var stop := DeleteIfUnderReplicated(api, cfg, w);
    if stop {
      return;
    }
    NothingHappened(cfg, w, api.pdbs, api.log);
    var min, max := w.minAnnotation, w.maxAnnotation;
    if min.None? && max.None? {
      min, max := cfg.defaultMin, cfg.defaultMax;
    }
    if min.Some? && max.Some? {
      max := None;
    }
    var basis := existing.spec.selector;
    if basis.None? {
      basis := w.selector;
    }
    var policy := Policy(cfg, w);
    var enriched := EnrichSelector(basis.value, w.template, cfg.extraKeys);
    var changed := existing.spec.selector.None?;
    hide Kept, Returned;
    if !changed {
      if !ValidSelector(existing.spec.selector.value, cfg.ok) {
        stopped := DeleteAndRecreate(api, cfg, w, existing, i, budget);
        return;
      }
      if !ValidSelector(enriched, cfg.ok) {
        return;
      }
      changed := Canon(existing.spec.selector.value) != Canon(enriched);
    }
    if changed {
      stopped := DeleteAndRecreate(api, cfg, w, existing, i, budget);
      return;
    }
    var spec := PdbSpec(Some(enriched), min, max, policy);
    assert spec == UpdateSpec(cfg, w, enriched);
    if NeedsUpdate(existing.spec, spec) {
      stopped := WriteAndFix(api, cfg, w, existing, i, spec, budget);
    }
  }

  /** Delete, wait for the deletion, and start over. */
  method DeleteAndRecreate(api: Server, cfg: Config, w: Workload, existing: Pdb, ghost i: nat, budget: nat)
    returns (stopped: bool)
    requires Unique(api.pdbs) && i < |api.pdbs| && api.pdbs[i] == existing
    requires existing.ns == w.ns && Owned(existing.name)
    modifies api
    ensures Unique(api.pdbs) && Kept(cfg, w, old(api.pdbs), old(api.log), api.pdbs, api.log, None)
    ensures api.reliable ==> Ends(cfg, w, Again(Remove(old(api.pdbs), i)), api.pdbs, stopped, budget)
    decreases budget, 0
  {
    hide Kept, Diverges, RemoveNamed, Reconcile, Owned, Returned;
    stopped := false;
    NothingHappened(cfg, w, api.pdbs, api.log);
    IndexByName(api.pdbs, i);
    RemoveNamedUnique(api.pdbs, existing.ns, existing.name);
    var err := api.Delete(w.ns, existing.name);
    DeleteNamedKeeps(cfg, w, old(api.pdbs), old(api.log), old(api.pdbs), old(api.log), api.pdbs, api.log, existing.name);
    if err != Ok && err != NotFound {
      return;
    }
    ghost var b, logB := api.pdbs, api.log;
    if budget == 0 {
      return true;
    }
    stopped := CreatePDBForWorkload(api, cfg, w, budget - 1);
    KeptTrans(cfg, w, old(api.pdbs), old(api.log), b, logB, api.pdbs, api.log, None);
  }

  /** Writes a budget's specification and hands the result to the poor-configuration check. */
  method WriteAndFix(api: Server, cfg: Config, w: Workload, existing: Pdb, ghost i: nat, spec: PdbSpec, budget: nat)
    returns (stopped: bool)
    requires Unique(api.pdbs) && i < |api.pdbs| && api.pdbs[i] == existing && !UnderReplicated(w)
    requires existing.ns == w.ns && Owned(existing.name)
    modifies api
    ensures Unique(api.pdbs) && Kept(cfg, w, old(api.pdbs), old(api.log), api.pdbs, api.log, None)
    ensures api.reliable ==>
              Ends(cfg, w, AfterWrite(cfg, w, old(api.pdbs)[i := existing.(spec := spec)], i), api.pdbs, stopped, budget)
    decreases budget, 1
  {
    stopped := false;
    ghost var s := api.pdbs;
    var updated := existing.(spec := spec);
    ghost var t := s[i := updated];
    IndexByName(s, i);
    UpdateKeepsUnique(s, i, updated);
    IndexByName(t, i);
    RemoveUpdated(s, i, updated);
    UpdateKeeps(cfg, w, s, api.log, i, spec);
    NothingHappened(cfg, w, s, api.log);
    hide Kept, Diverges, RemoveNamed, Remove, Reconcile, Owned, Poor, Unique, Returned;
    var err := api.UpdateSpec(w.ns, existing.name, spec);
    if err != Ok {
      return;
    }
    ghost var logB := api.log;
    stopped := LogAndFixPoorPDBConfig(api, cfg, w, updated, w.replicas.value, budget);
    DropExtra(cfg, w, t, logB, api.pdbs, api.log, existing.ns, existing.name);
    KeptTrans(cfg, w, s, old(api.log), t, logB, api.pdbs, api.log, None);
  }

  /** Leave to delete one of the controller's own budgets is no extra leave. */
  lemma DropExtra(cfg: Config, w: Workload, a: seq<Pdb>, logA: seq<Event>, b: seq<Pdb>, logB: seq<Event>,
                  ns: string, name: string)
    requires Kept(cfg, w, a, logA, b, logB, Some((ns, name))) && ns == w.ns && Owned(name)
    ensures Kept(cfg, w, a, logA, b, logB, None)
  {}

  predicate Covered(cfg: Config, w: Workload, s: seq<Pdb>) {
    exists p :: p in s && Covers(cfg, w, p)
  }

  lemma CoveredInNs(cfg: Config, w: Workload, s: seq<Pdb>)
    ensures Covered(cfg, w, Filter(s, InNs(w.ns))) <==> Covered(cfg, w, s)
  {
    hide ValidSelector, Matches;
    if Covered(cfg, w, s) {
      var p :| p in s && Covers(cfg, w, p);
      assert p in Filter(s, InNs(w.ns));
    }
  }

  /** Re-lists a few times to catch a budget that another writer created in the meantime. */
  method RaceCheck(api: Server, cfg: Config, w: Workload) returns (covered: bool)
    ensures covered && api.reliable ==> Covered(cfg, w, api.pdbs)
    ensures !covered && api.reliable ==> !Covered(cfg, w, api.pdbs)
  {
    CoveredInNs(cfg, w, api.pdbs);
    hide Covers, Filter;
    for attempt := 0 to 8
      invariant attempt > 0 && api.reliable ==> !Covered(cfg, w, api.pdbs)
    {
      if * {
        // The context was cancelled during the pause.
        if !api.reliable {
          return true;
        }
      }
      var items, ok := api.List(w.ns);
      if !ok {
        continue;
      }
      for i := 0 to |items|
        invariant forall k :: 0 <= k < i ==> !Covers(cfg, w, items[k])
      {
        if Covers(cfg, w, items[i]) {
          assert items[i] in items;
          return true;
        }
      }
    }
    covered := false;
  }

  /** Creates the budget in a state that has none of that name. */
  method CreateAndFix(api: Server, cfg: Config, w: Workload, spec: PdbSpec, budget: nat) returns (stopped: bool)
    requires Unique(api.pdbs) && Managed(cfg, w) && Ready(w) && CreateSpec(cfg, w) == Some(spec)
    requires NoForeign(cfg, w, api.pdbs) && NoneOwned(cfg, w, api.pdbs)
    requires forall q :: q in api.pdbs ==> !Slot(w)(q)
    modifies api
    ensures Unique(api.pdbs) && Kept(cfg, w, old(api.pdbs), old(api.log), api.pdbs, api.log, None)
    ensures api.reliable ==> Ends(cfg, w, CreateAt(cfg, w, old(api.pdbs), spec), api.pdbs, stopped, budget)
    decreases budget, 1
  {
    stopped := false;
    var pdb := Pdb(w.ns, PdbName(w.name), spec, EMPTY_STATUS);
    ghost var s, log0 := api.pdbs, api.log;
    CreationIsAllowed(cfg, w, s, pdb);
    CreationKeeps(cfg, w, s, log0, pdb);
    NothingHappened(cfg, w, s, log0);
    FirstExists(s, Named(pdb.ns, pdb.name));
    CreatedOutcome(cfg, w, s, spec, pdb);
    hide Kept, Allowed, Insert, Position, PdbName, Covers, Owned, Poor, Slot, Managed, Ready, CreateSpec, Returned,
         CreateAt, Unique, RemoveNamed, NoForeign, NoneOwned;
    var err := api.Create(pdb);
    if err == Ok {
      ghost var t, logB := api.pdbs, api.log;
      stopped := LogAndFixPoorPDBConfig(api, cfg, w, pdb, w.replicas.value, budget);
      DropExtra(cfg, w, t, logB, api.pdbs, api.log, pdb.ns, pdb.name);
      KeptTrans(cfg, w, s, log0, t, logB, api.pdbs, api.log, None);
    }
  }

  /** The poor-configuration check after a creation removes just what was created. */
  lemma CreatedOutcome(cfg: Config, w: Workload, s: seq<Pdb>, spec: PdbSpec, pdb: Pdb)
    requires Unique(s) && Managed(cfg, w) && pdb == Pdb(w.ns, PdbName(w.name), spec, EMPTY_STATUS)
    requires forall q :: q in s ==> !Slot(w)(q)
    ensures w.replicas.Some? && Owned(pdb.name)
    ensures CreateAt(cfg, w, s, spec) == if FixesAs(cfg, w, spec, w.replicas.value)
                                         then Again(RemoveNamed(Insert(s, pdb), pdb.ns, pdb.name)) else Done(Insert(s, pdb))
  {
    PdbNameIsOwned(w.name);
    InsertAt(s, pdb);
    InsertKeepsUnique(s, pdb);
    IndexByName(Insert(s, pdb), Position(s, pdb));
    hide PdbName, Poor, Insert, Position, RemoveNamed, Remove, Unique, Owned;
  }

  lemma CreationIsAllowed(cfg: Config, w: Workload, s: seq<Pdb>, p: Pdb)
    requires Managed(cfg, w) && Ready(w) && NoForeign(cfg, w, s) && NoneOwned(cfg, w, s) && CreateSpec(cfg, w) == Some(p.spec)
    requires p == Pdb(w.ns, PdbName(w.name), p.spec, EMPTY_STATUS)
    requires forall q :: q in s ==> !Slot(w)(q)
    ensures Allowed(cfg, w, Created(s, p), None)
  {
    hide CreateSpec, Owned, Managed, Ready;
    forall q | q in s ensures !Covers(cfg, w, q) {
      assert !OwnedCover(cfg, w)(q) && !ForeignCover(cfg, w)(q);
    }
  }

  /** Deleting the budget that has the workload's name brings no covering one. */
  lemma WithoutSlot(cfg: Config, w: Workload, s: seq<Pdb>)
    requires Unique(s) && NoForeign(cfg, w, s) && NoneOwned(cfg, w, s)
    ensures var r := RemoveNamed(s, w.ns, PdbName(w.name));
            && Unique(r) && NoForeign(cfg, w, r) && NoneOwned(cfg, w, r) && forall q :: q in r ==> !Slot(w)(q)
  {
    NoSlotLeft(s, w);
    hide RemoveNamed, PdbName, OwnedCover, ForeignCover;
  }

  /** The create path once nothing covers the pod template. */
  method WriteNew(api: Server, cfg: Config, w: Workload, enriched: Selector, budget: nat) returns (stopped: bool)
    requires Unique(api.pdbs) && Managed(cfg, w) && Ready(w) && NoForeign(cfg, w, api.pdbs)
    requires NoneOwned(cfg, w, api.pdbs) && enriched == Enriched(cfg, w, w.selector.value)
    modifies api
    ensures Unique(api.pdbs) && Kept(cfg, w, old(api.pdbs), old(api.log), api.pdbs, api.log, None)
    ensures api.reliable ==> Ends(cfg, w, CreateRound(cfg, w, old(api.pdbs)), api.pdbs, stopped, budget)
    decreases budget, 4
  {
    stopped := false;
    NothingHappened(cfg, w, api.pdbs, api.log);
    hide Kept, Returned;
    var found := api.Get(w.ns, PdbName(w.name));
    if found.Unavailable? {
      return;
    }
    var min, max := w.minAnnotation, w.maxAnnotation;
    if min.None? && max.None? {
      min, max := cfg.defaultMin, cfg.defaultMax;
    }
    if min.Some? && max.Some? {
      return;
    }
    if min.None? && max.None? {
      min := Some(IntVal(1));
    }
    var spec := PdbSpec(Some(enriched), min, max, Policy(cfg, w));
    assert CreateSpec(cfg, w) == Some(spec);
    stopped := WriteResolved(api, cfg, w, spec, found, budget);
  }

  /** The end of the create path: update, replace or create the budget that has the workload's name. */
  method WriteResolved(api: Server, cfg: Config, w: Workload, spec: PdbSpec, found: Lookup, budget: nat)
    returns (stopped: bool)
    requires Unique(api.pdbs) && Managed(cfg, w) && Ready(w) && NoForeign(cfg, w, api.pdbs)
    requires NoneOwned(cfg, w, api.pdbs) && CreateSpec(cfg, w) == Some(spec)
    requires var j := First(api.pdbs, Slot(w));
             if j < |api.pdbs| then found == Found(api.pdbs[j]) else found == Missing
    modifies api
    ensures Unique(api.pdbs) && Kept(cfg, w, old(api.pdbs), old(api.log), api.pdbs, api.log, None)
    ensures api.reliable ==> Ends(cfg, w, CreateRound(cfg, w, old(api.pdbs)), api.pdbs, stopped, budget)
    decreases budget, 3
  {
    stopped := false;
    ghost var s, log0, j := api.pdbs, api.log, First(api.pdbs, Slot(w));
    NothingHappened(cfg, w, s, log0);
    PdbNameIsOwned(w.name);
    assert spec.selector == Some(Enriched(cfg, w, w.selector.value));
    hide Kept, Returned, ValidSelector, Canon, NeedsUpdate, Owned, PdbName, Poor, Managed, Ready;
    if found.Found? {
      var p := found.pdb;
      if p.spec.selector.Some? {
        if !ValidSelector(p.spec.selector.value, cfg.ok) {
          return;
        }
        if Canon(p.spec.selector.value) == Canon(spec.selector.value) {
          stopped := UpdateSlot(api, cfg, w, p, j, spec, budget);
          return;
        }
        WithoutSlot(cfg, w, s);
        var err := api.Delete(w.ns, PdbName(w.name));
        DeleteNamedKeeps(cfg, w, s, log0, s, log0, api.pdbs, api.log, PdbName(w.name));
        if err != Ok && err != NotFound {
          return;
        }
      } else {
        stopped := UpdateSlot(api, cfg, w, p, j, spec, budget);
        return;
      }
    } else {
      OnlySlot(s, w);
    }
    ghost var b, logB := api.pdbs, api.log;
    stopped := CreateAndFix(api, cfg, w, spec, budget);
    KeptTrans(cfg, w, s, log0, b, logB, api.pdbs, api.log, None);
  }

  /** The budget that has the workload's name keeps its selector, or had none. */
  method UpdateSlot(api: Server, cfg: Config, w: Workload, p: Pdb, ghost j: nat, spec: PdbSpec, budget: nat)
    returns (stopped: bool)
    requires Unique(api.pdbs) && Managed(cfg, w) && CreateSpec(cfg, w) == Some(spec)
    requires j == First(api.pdbs, Slot(w)) && j < |api.pdbs| && api.pdbs[j] == p
    requires p.spec.selector.None? || (ValidSelector(p.spec.selector.value, cfg.ok)
             && Canon(p.spec.selector.value) == Canon(Enriched(cfg, w, w.selector.value)))
    modifies api
    ensures Unique(api.pdbs) && Kept(cfg, w, old(api.pdbs), old(api.log), api.pdbs, api.log, None)
    ensures api.reliable ==> Ends(cfg, w, CreateRound(cfg, w, old(api.pdbs)), api.pdbs, stopped, budget)
    decreases budget, 2
  {
    stopped := false;
    NothingHappened(cfg, w, api.pdbs, api.log);
    PdbNameIsOwned(w.name);
    assert spec.selector == Some(Enriched(cfg, w, w.selector.value));
    if NeedsUpdate(p.spec, spec) {
      hide Kept, Returned, ValidSelector, Canon, NeedsUpdate, Owned, PdbName, Poor, Ready;
      stopped := WriteAndFix(api, cfg, w, p, j, spec, budget);
    }
  }

  /** The whole reconciliation of one workload. */
  method CreatePDBForWorkload(api: Server, cfg: Config, w: Workload, budget: nat) returns (stopped: bool)
    requires Unique(api.pdbs)
    modifies api
    ensures Unique(api.pdbs) && Kept(cfg, w, old(api.pdbs), old(api.log), api.pdbs, api.log, None)
    ensures api.reliable ==> Returned(cfg, w, old(api.pdbs), api.pdbs, stopped, budget)
    decreases budget, 6
  {
    stopped := false;
    ghost var s := api.pdbs;
    NothingHappened(cfg, w, s, api.log);
    hide Kept, Returned, ValidSelector, RemoveNamed, PdbName;
    var stop := DeleteIfUnderReplicated(api, cfg, w);
    if stop {
      if api.reliable {
        RoundEnds(cfg, w, s, api.pdbs, false, budget);
      }
      return;
    }
    if w.bypass || cfg.excluded(w.ns, w.name, w.labels) || w.selector.None? {
      RoundEnds(cfg, w, s, s, false, budget);
      return;
    }
    var enriched := EnrichSelector(w.selector.value, w.template, cfg.extraKeys);
    if !ValidSelector(enriched, cfg.ok) {
      RoundEnds(cfg, w, s, s, false, budget);
      return;
    }
    stopped := ReconcileManaged(api, cfg, w, enriched, budget);
    if api.reliable {
      RoundEnds(cfg, w, s, api.pdbs, stopped, budget);
    }
  }

  /** From the first listing on. */
  method ReconcileManaged(api: Server, cfg: Config, w: Workload, enriched: Selector, budget: nat) returns (stopped: bool)
    requires Unique(api.pdbs) && Managed(cfg, w) && enriched == Enriched(cfg, w, w.selector.value)
    modifies api
    ensures Unique(api.pdbs) && Kept(cfg, w, old(api.pdbs), old(api.log), api.pdbs, api.log, None)
    ensures api.reliable ==> Ends(cfg, w, Round(cfg, w, old(api.pdbs)), api.pdbs, stopped, budget)
    decreases budget, 5
  {
    stopped := false;
    ghost var s := api.pdbs;
    NothingHappened(cfg, w, s, api.log);
    var items, ok := api.List(w.ns);
    if !ok {
      return;
    }
    var existing, foreign, covering := ScanCovering(cfg, w, items);
    ChoiceFiltered(cfg, w, s);
    hide Kept, Returned;
    if foreign {
      CoveringMembers(cfg, w, s);
      DropForForeign(api, cfg, w, covering, budget);
      return;
    }
    PickIsOwned(cfg, w, s);
    if existing.Some? {
      stopped := UpdateChosen(api, cfg, w, existing.value, budget);
      return;
    }
    if !Ready(w) {
      NotReadyRound(cfg, w, s);
      return;
    }
    var covered := RaceCheck(api, cfg, w);
    if covered {
      NothingCovers(cfg, w, s);
      return;
    }
    RoundCreates(cfg, w, s);
    hide Round;
    stopped := WriteNew(api, cfg, w, enriched, budget);
  }

  lemma NoneGoneYet(s: seq<Pdb>)
    ensures Filter(s, NotIn({})) == s
  {
    FilterAll(s, NotIn({}));
  }

  /** A foreign budget covers the workload: nothing is created, and leftovers may go. */
  method DropForForeign(api: Server, cfg: Config, w: Workload, covering: seq<Pdb>, ghost budget: nat)
    requires Unique(api.pdbs) && Managed(cfg, w) && !NoForeign(cfg, w, api.pdbs)
    requires forall p :: p in covering <==> p in api.pdbs && Covers(cfg, w, p)
    modifies api
    ensures Unique(api.pdbs) && Kept(cfg, w, old(api.pdbs), old(api.log), api.pdbs, api.log, None)
    ensures api.reliable ==> Ends(cfg, w, Round(cfg, w, old(api.pdbs)), api.pdbs, false, budget)
  {
    hide Kept, Returned, Round, Managed, DropLeftovers, Filter, Covers, NotIn, Unique, HelmStyle, Owned, NoForeign;
    ghost var s := api.pdbs;
    NoneGoneYet(s);
    RoundDrops(cfg, w, s);
    ghost var gone := DeleteLeftovers(api, cfg, w, covering, s, {});
    LeftoversAreDropped(cfg, w, s, covering, gone);
  }

  lemma CoveringMembers(cfg: Config, w: Workload, s: seq<Pdb>)
    ensures forall p :: p in Filter(Filter(s, InNs(w.ns)), CoverOf(cfg, w)) <==> p in s && Covers(cfg, w, p)
  {
    hide ValidSelector, Matches;
  }

  lemma NothingCovers(cfg: Config, w: Workload, s: seq<Pdb>)
    requires NoForeign(cfg, w, s) && NoneOwned(cfg, w, s)
    ensures forall p :: p in s ==> !Covers(cfg, w, p)
  {
    forall p | p in s ensures !Covers(cfg, w, p) {
      assert !OwnedCover(cfg, w)(p) && !ForeignCover(cfg, w)(p);
    }
  }

  method UpdateChosen(api: Server, cfg: Config, w: Workload, existing: Pdb, budget: nat) returns (stopped: bool)
    requires Unique(api.pdbs) && Managed(cfg, w)
    requires NoForeign(cfg, w, api.pdbs) && Choice(cfg, w, api.pdbs) == Some(existing)
    modifies api
    ensures Unique(api.pdbs) && Kept(cfg, w, old(api.pdbs), old(api.log), api.pdbs, api.log, None)
    ensures api.reliable ==> Ends(cfg, w, Round(cfg, w, old(api.pdbs)), api.pdbs, stopped, budget)
    decreases budget, 3
  {
    ghost var s, i := api.pdbs, Pick(cfg, w, api.pdbs);
    PickIsOwned(cfg, w, s);
    RoundUpdates(cfg, w, s);
    CoverNs(cfg, w, existing);
    hide Kept, Returned, Round, Pick;
    stopped := UpdateExistingPDB(api, cfg, w, existing, i, budget);
  }
}
