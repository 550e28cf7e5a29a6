/** The periodic scan for workloads covered by several budgets. */
module PdbMultiScan {
  import opened Basics
  import opened PdbModel
  import opened PdbTheorems
  import opened PdbServer
  import opened PdbController

  /** The workloads of a namespace as listed; None is a listing that failed. */
  datatype Namespace = Namespace(name: string, deployments: Option<seq<Workload>>, statefulSets: Option<seq<Workload>>)

  function Items(o: Option<seq<Workload>>): seq<Workload> { if o.Some? then o.value else [] }

  function Listed(namespaces: seq<Namespace>): seq<Workload> {
    if namespaces == [] then []
    else
      var last := namespaces[|namespaces| - 1];
      Listed(namespaces[..|namespaces| - 1]) + (Items(last.deployments) + Items(last.statefulSets))
  }

  /** The API server lists a namespace's own workloads. */
  predicate Consistent(n: Namespace) {
    forall w :: w in Items(n.deployments) + Items(n.statefulSets) ==> w.ns == n.name
  }

  /** The controller's budget covers a workload that has a CAST Helm-style budget too and is not bypassed. */
  predicate RedundantFor(cfg: Config, w: Workload, s: seq<Pdb>, p: Pdb) {
    !w.bypass && OwnedCover(cfg, w)(p) && exists q :: q in s && HelmCover(cfg, w)(q)
  }

  predicate Redundant(cfg: Config, ws: seq<Workload>, s: seq<Pdb>, p: Pdb) {
    exists w :: w in ws && RedundantFor(cfg, w, s, p)
  }

  function NotRedundant(cfg: Config, ws: seq<Workload>, s: seq<Pdb>): Pdb -> bool {
    (p: Pdb) => !Redundant(cfg, ws, s, p)
  }

  /** `gone` is what the workloads `ws` make redundant in the state `s`. */
  ghost predicate GoneFor(cfg: Config, ws: seq<Workload>, s: seq<Pdb>, gone: set<Pdb>) {
    forall p: Pdb :: p in gone <==> p in s && Redundant(cfg, ws, s, p)
  }

  lemma {:induction false} FilterFilter(s: seq<Pdb>, a: set<Pdb>, b: set<Pdb>)
    requires a <= b
    ensures Filter(Filter(s, NotIn(a)), NotIn(b)) == Filter(s, NotIn(b))
  {
    if s != [] {
      var x, t := s[0], s[1..];
      FilterFilter(t, a, b);
      var ft := Filter(t, NotIn(a));
      if x !in a {
        assert Filter(s, NotIn(a)) == [x] + ft;
        assert ([x] + ft)[1..] == ft;
      } else {
        assert Filter(s, NotIn(a)) == ft;
      }
    }
  }

  /** A workload's redundant budgets can be read off a state from which only controller's budgets are missing. */
  lemma GoneGrows(cfg: Config, ws: seq<Workload>, w: Workload, s: seq<Pdb>, was: set<Pdb>, gone: set<Pdb>, gone': set<Pdb>,
                  covering: seq<Pdb>)
    requires GoneFor(cfg, ws, s, gone) && was <= gone && !w.bypass
    requires forall p :: p in covering <==> p in Filter(s, NotIn(was)) && Covers(cfg, w, p)
    requires gone' == if exists p :: p in covering && HelmStyle(p.name)
                      then gone + (set p | p in covering && Owned(p.name)) else gone
    ensures GoneFor(cfg, ws + [w], s, gone')
  {
    RedundantAppend(cfg, ws, w, s);
    GoneAreOwned(cfg, ws, s, gone);
    HelmSurvives(cfg, w, s, was, covering);
    hide Covers, Owned, HelmStyle, RedundantFor, Redundant, Filter;
    forall p: Pdb ensures p in gone' <==> p in s && Redundant(cfg, ws + [w], s, p) {
      RedundantForCover(cfg, w, s, p);
    }
  }

  lemma RedundantForCover(cfg: Config, w: Workload, s: seq<Pdb>, p: Pdb)
    ensures RedundantFor(cfg, w, s, p) <==>
            !w.bypass && Covers(cfg, w, p) && Owned(p.name) && exists q :: q in s && Covers(cfg, w, q) && HelmStyle(q.name)
  {
    hide Covers, Owned, HelmStyle;
    if exists q :: q in s && HelmCover(cfg, w)(q) {
      var q :| q in s && HelmCover(cfg, w)(q);
      assert Covers(cfg, w, q) && HelmStyle(q.name);
    }
    if exists q :: q in s && Covers(cfg, w, q) && HelmStyle(q.name) {
      var q :| q in s && Covers(cfg, w, q) && HelmStyle(q.name);
      assert HelmCover(cfg, w)(q);
    }
  }

  lemma HelmSurvives(cfg: Config, w: Workload, s: seq<Pdb>, was: set<Pdb>, covering: seq<Pdb>)
    requires forall p :: p in covering <==> p in Filter(s, NotIn(was)) && Covers(cfg, w, p)
    requires forall p :: p in was ==> Owned(p.name)
    ensures (exists q :: q in covering && HelmStyle(q.name)) <==> exists q :: q in s && Covers(cfg, w, q) && HelmStyle(q.name)
  {
    hide Covers;
    if exists q :: q in s && Covers(cfg, w, q) && HelmStyle(q.name) {
      var q :| q in s && Covers(cfg, w, q) && HelmStyle(q.name);
      assert NotIn(was)(q);
      assert q in covering;
    }
  }

  lemma GoneAreOwned(cfg: Config, ws: seq<Workload>, s: seq<Pdb>, gone: set<Pdb>)
    requires GoneFor(cfg, ws, s, gone)
    ensures forall p :: p in gone ==> Owned(p.name)
  {
    hide Covers, Owned;
  }

  lemma RedundantAppend(cfg: Config, ws: seq<Workload>, w: Workload, s: seq<Pdb>)
    ensures forall p: Pdb :: Redundant(cfg, ws + [w], s, p) <==> Redundant(cfg, ws, s, p) || RedundantFor(cfg, w, s, p)
  {
    hide RedundantFor;
    assert forall v :: v in ws + [w] <==> v in ws || v == w;
  }

  /** A bypassed workload makes nothing redundant. */
  lemma GoneUnchanged(cfg: Config, ws: seq<Workload>, w: Workload, s: seq<Pdb>, gone: set<Pdb>)
    requires GoneFor(cfg, ws, s, gone) && w.bypass
    ensures GoneFor(cfg, ws + [w], s, gone)
  {
    RedundantAppend(cfg, ws, w, s);
    hide Redundant;
  }

  lemma FewCovering(covering: seq<Pdb>)
    requires |covering| <= 1
    ensures (exists p :: p in covering && HelmStyle(p.name)) ==> forall p :: p in covering ==> !Owned(p.name)
  {
    if exists p :: p in covering && HelmStyle(p.name) {
      var p :| p in covering && HelmStyle(p.name);
      assert covering == [p];
    }
  }

  /** One workload, against a listing that may be stale: `listed` is the state that was listed, from which the
      budgets in `gone` have gone since. */
  method CleanupMultiplePDBsForWorkload(api: Server, cfg: Config, w: Workload, pdbs: seq<Pdb>, ghost listed: seq<Pdb>,
                                        ghost start: seq<Pdb>, ghost was: set<Pdb>, ghost gone: set<Pdb>,
                                        ghost ws: seq<Workload>)
    returns (ghost gone': set<Pdb>)
    requires Unique(api.pdbs) && Unique(start) && pdbs == Filter(listed, InNs(w.ns)) && Unique(listed)
    requires api.reliable ==> listed == Filter(start, NotIn(was)) && was <= gone && GoneFor(cfg, ws, start, gone)
                              && api.pdbs == Filter(start, NotIn(gone))
    modifies api
    ensures Unique(api.pdbs) && ForeignKept(old(api.pdbs), api.pdbs, None)
    ensures api.reliable ==> gone <= gone' && GoneFor(cfg, ws + [w], start, gone') && api.pdbs == Filter(start, NotIn(gone'))
  {
    gone' := gone;
    if w.bypass {
      if api.reliable { GoneUnchanged(cfg, ws, w, start, gone); }
      return;
    }
    var covering := CoveringAmong(cfg, w, pdbs);
    CoveringListed(cfg, w, listed);
    hide Filter, NotIn, Covers, GoneFor, ForeignKept, Unique;
    if |covering| <= 1 {
      KeptNothing(api.pdbs);
      if api.reliable { FewGone(cfg, ws, w, start, was, gone, covering); }
      return;
    }
    gone' := DropCovering(api, cfg, w, covering, listed, start, was, gone, ws);
  }

  lemma FewGone(cfg: Config, ws: seq<Workload>, w: Workload, s: seq<Pdb>, was: set<Pdb>, gone: set<Pdb>, covering: seq<Pdb>)
    requires GoneFor(cfg, ws, s, gone) && was <= gone && !w.bypass && |covering| <= 1
    requires forall p :: p in covering <==> p in Filter(s, NotIn(was)) && Covers(cfg, w, p)
    ensures GoneFor(cfg, ws + [w], s, gone)
  {
    FewCovering(covering);
    hide Filter, NotIn, Covers, Owned, HelmStyle, GoneFor;
    GoneGrows(cfg, ws, w, s, was, gone, gone, covering);
  }

  /** Several budgets cover the workload. */
  method DropCovering(api: Server, cfg: Config, w: Workload, covering: seq<Pdb>, ghost listed: seq<Pdb>,
                      ghost start: seq<Pdb>, ghost was: set<Pdb>, ghost gone: set<Pdb>, ghost ws: seq<Workload>)
    returns (ghost gone': set<Pdb>)
    requires Unique(api.pdbs) && Unique(start) && Unique(listed) && !w.bypass
    requires forall p :: p in covering <==> p in listed && Covers(cfg, w, p)
    requires api.reliable ==> listed == Filter(start, NotIn(was)) && was <= gone && GoneFor(cfg, ws, start, gone)
                              && api.pdbs == Filter(start, NotIn(gone))
    modifies api
    ensures Unique(api.pdbs) && ForeignKept(old(api.pdbs), api.pdbs, None)
    ensures api.reliable ==> gone <= gone' && GoneFor(cfg, ws + [w], start, gone') && api.pdbs == Filter(start, NotIn(gone'))
  {
    hide Filter, NotIn, Covers, Owned, HelmStyle, GoneFor, Kept, ForeignKept, Unique;
    ghost var before, logBefore := api.pdbs, api.log;
    if api.reliable { FilterFilter(start, was, gone); }
    gone' := DeleteLeftovers(api, cfg, w, covering, listed, gone);
    KeptForeign(cfg, w, before, logBefore, api.pdbs, api.log);
    if api.reliable {
      FilterFilter(start, was, gone');
      GoneGrows(cfg, ws, w, start, was, gone, gone', covering);
    }
  }

  method CoveringAmong(cfg: Config, w: Workload, pdbs: seq<Pdb>) returns (covering: seq<Pdb>)
    ensures forall p :: p in covering <==> p in pdbs && Covers(cfg, w, p)
  {
    hide Covers;
    covering := [];
    for i := 0 to |pdbs|
      invariant forall p :: p in covering <==> p in pdbs[..i] && Covers(cfg, w, p)
    {
      assert pdbs[..i + 1] == pdbs[..i] + [pdbs[i]];
      if Covers(cfg, w, pdbs[i]) {
        covering := covering + [pdbs[i]];
      }
    }
    assert pdbs[..|pdbs|] == pdbs;
  }

  lemma KeptNothing(s: seq<Pdb>)
    ensures ForeignKept(s, s, None)
  {}

  lemma KeptForeign(cfg: Config, w: Workload, a: seq<Pdb>, logA: seq<Event>, b: seq<Pdb>, logB: seq<Event>)
    requires Kept(cfg, w, a, logA, b, logB, None)
    ensures ForeignKept(a, b, None)
  {}

  lemma ForeignTrans(a: seq<Pdb>, b: seq<Pdb>, c: seq<Pdb>)
    requires ForeignKept(a, b, None) && ForeignKept(b, c, None)
    ensures ForeignKept(a, c, None)
  {}

  lemma CoveringListed(cfg: Config, w: Workload, s: seq<Pdb>)
    ensures forall p :: p in Filter(s, InNs(w.ns)) && Covers(cfg, w, p) <==> p in s && Covers(cfg, w, p)
  {}

  /** The workloads of one kind in one namespace, all against the same listing. */
  method CleanupWorkloads(api: Server, cfg: Config, ns: string, workloads: seq<Workload>, pdbs: seq<Pdb>,
                          ghost listed: seq<Pdb>, ghost start: seq<Pdb>, ghost was: set<Pdb>, ghost gone: set<Pdb>,
                          ghost ws: seq<Workload>)
    returns (ghost gone': set<Pdb>)
    requires Unique(api.pdbs) && Unique(start) && pdbs == Filter(listed, InNs(ns)) && Unique(listed)
    requires forall w :: w in workloads ==> w.ns == ns
    requires api.reliable ==> listed == Filter(start, NotIn(was)) && was <= gone && GoneFor(cfg, ws, start, gone)
                              && api.pdbs == Filter(start, NotIn(gone))
    modifies api
    ensures Unique(api.pdbs) && ForeignKept(old(api.pdbs), api.pdbs, None)
    ensures api.reliable ==> gone <= gone' && GoneFor(cfg, ws + workloads, start, gone')
                             && api.pdbs == Filter(start, NotIn(gone'))
  {
    hide Filter, GoneFor, ForeignKept, Unique;
    gone' := gone;
    KeptNothing(api.pdbs);
    assert ws + workloads[..0] == ws;
    for i := 0 to |workloads|
      invariant Unique(api.pdbs) && ForeignKept(old(api.pdbs), api.pdbs, None)
      invariant api.reliable ==> gone <= gone' && GoneFor(cfg, ws + workloads[..i], start, gone')
                                 && api.pdbs == Filter(start, NotIn(gone'))
    {
      assert ws + workloads[..i + 1] == (ws + workloads[..i]) + [workloads[i]];
      ghost var before := api.pdbs;
      gone' := CleanupMultiplePDBsForWorkload(api, cfg, workloads[i], pdbs, listed, start, was, gone', ws + workloads[..i]);
      ForeignTrans(old(api.pdbs), before, api.pdbs);
    }
    assert workloads[..|workloads|] == workloads;
  }

  /** One namespace, with one listing of its budgets for all its workloads. */
  method ScanNamespace(api: Server, cfg: Config, n: Namespace, ghost start: seq<Pdb>, ghost gone: set<Pdb>,
                       ghost ws: seq<Workload>)
    returns (ghost gone': set<Pdb>)
    requires Unique(api.pdbs) && Unique(start) && Consistent(n)
    requires api.reliable ==> GoneFor(cfg, ws, start, gone) && api.pdbs == Filter(start, NotIn(gone))
    modifies api
    ensures Unique(api.pdbs) && ForeignKept(old(api.pdbs), api.pdbs, None)
    ensures api.reliable ==> GoneFor(cfg, ws + (Items(n.deployments) + Items(n.statefulSets)), start, gone')
                             && api.pdbs == Filter(start, NotIn(gone'))
  {
    hide Filter, GoneFor, ForeignKept, Unique;
    gone' := gone;
    KeptNothing(api.pdbs);
    var pdbs, ok := api.List(n.name);
    if !ok {
      return;
    }
    ghost var listed := api.pdbs;
    ghost var ws' := ws + Items(n.deployments);
    assert ws' + Items(n.statefulSets) == ws + (Items(n.deployments) + Items(n.statefulSets));
    assert n.deployments.None? ==> ws' == ws;
    assert n.statefulSets.None? ==> ws' + Items(n.statefulSets) == ws';
    if n.deployments.Some? {
      gone' := CleanupWorkloads(api, cfg, n.name, n.deployments.value, pdbs, listed, start, gone, gone', ws);
    }
    ghost var before := api.pdbs;
    if n.statefulSets.Some? {
      gone' := CleanupWorkloads(api, cfg, n.name, n.statefulSets.value, pdbs, listed, start, gone, gone', ws');
      ForeignTrans(listed, before, api.pdbs);
    }
  }

  lemma NothingGone(cfg: Config, s: seq<Pdb>)
    ensures GoneFor(cfg, [], s, {})
  {}

  /** The whole scan. Without failing calls to the budgets' API it removes exactly the redundant budgets. */
  method ScanAllPDBsForMultiplePDBs(api: Server, cfg: Config, namespaces: seq<Namespace>)
    requires Unique(api.pdbs) && forall n :: n in namespaces ==> Consistent(n)
    modifies api
    ensures Unique(api.pdbs) && ForeignKept(old(api.pdbs), api.pdbs, None)
    ensures api.reliable ==> api.pdbs == Filter(old(api.pdbs), NotRedundant(cfg, Listed(namespaces), old(api.pdbs)))
  {
    ghost var start, gone := api.pdbs, {};
    FilterAll(start, NotIn({}));
    KeptNothing(start);
    hide Filter, ForeignKept, Unique, GoneFor, Consistent;
    assert namespaces[..0] == [];
    NothingGone(cfg, start);
    for i := 0 to |namespaces|
      invariant Unique(api.pdbs) && ForeignKept(start, api.pdbs, None)
      invariant api.reliable ==> GoneFor(cfg, Listed(namespaces[..i]), start, gone) && api.pdbs == Filter(start, NotIn(gone))
    {
      ghost var before := api.pdbs;
      assert namespaces[..i + 1][..i] == namespaces[..i];
      gone := ScanNamespace(api, cfg, namespaces[i], start, gone, Listed(namespaces[..i]));
      ForeignTrans(start, before, api.pdbs);
    }
    assert namespaces[..|namespaces|] == namespaces;
    if api.reliable {
      GoneIsRedundant(cfg, Listed(namespaces), start, gone);
    }
  }

  lemma GoneIsRedundant(cfg: Config, ws: seq<Workload>, s: seq<Pdb>, gone: set<Pdb>)
    requires GoneFor(cfg, ws, s, gone)
    ensures Filter(s, NotIn(gone)) == Filter(s, NotRedundant(cfg, ws, s))
  {
    hide Redundant;
    FilterSame(s, NotIn(gone), NotRedundant(cfg, ws, s));
  }
}
