/** Garbage collection of the controller's budgets. */
module PdbGarbage {
  import opened Basics
  import opened PdbModel
  import opened PdbTheorems
  import opened PdbServer
  import PdbController

  /** The answer to looking a Deployment or StatefulSet up by name. */
  datatype WorkloadLookup = Exists(replicas: Option<int32>) | Absent | Error

  type Directory = (string, string) -> WorkloadLookup

  function TrimPrefix(s: string, p: string): string { if HasPrefix(s, p) then s[|p|..] else s }

  function TrimSuffix(s: string, p: string): string { if HasSuffix(s, p) then s[..|s| - |p|] else s }

  function WorkloadName(pdb: string): string { TrimSuffix(TrimPrefix(pdb, "castai-"), "-pdb") }

  /** Decoding the budget's name gives back the workload it was created for. */
  lemma DecodeName(workload: string)
    ensures WorkloadName(PdbName(workload)) == workload
  {
    var n := PdbName(workload);
    assert n == "castai-" + (workload + "-pdb");
    assert TrimPrefix(n, "castai-") == workload + "-pdb";
  }

  /** Every name the controller considers its own encodes a workload, except the one where prefix and suffix
      overlap. */
  lemma EncodeName(pdb: string)
    requires Owned(pdb)
    ensures PdbName(WorkloadName(pdb)) == pdb <==> pdb != "castai-pdb"
    ensures pdb == "castai-pdb" ==> WorkloadName(pdb) == "pdb"
  {
    var rest := TrimPrefix(pdb, "castai-");
    assert pdb == "castai-" + rest;
    if |pdb| >= 11 {
      assert rest[|rest| - 4..] == pdb[|pdb| - 4..];
      assert rest == rest[..|rest| - 4] + "-pdb";
      assert |pdb| != |"castai-pdb"|;
      assert PdbName(WorkloadName(pdb)) == "castai-" + (WorkloadName(pdb) + "-pdb");
    } else {
      assert |PdbName(WorkloadName(pdb))| >= 11;
      assert pdb[..7] == "castai-" && pdb[|pdb| - 4..] == "-pdb";
      assert pdb[..7][3] == 't' && pdb[..7][4] == 'a' && pdb[..7][5] == 'i' && pdb[|pdb| - 4..][0] == '-';
      assert |pdb| == 10;
      assert pdb[6..] == "-pdb";
      assert pdb == pdb[..6] + pdb[6..];
      assert pdb[..6] == pdb[..7][..6] == "castai";
      assert "castai" + "-pdb" == "castai-pdb";
    }
  }

  /** A budget stays unless its workload is known to be gone or to have fewer than two replicas. */
  predicate Keeps(deployments: Directory, statefulSets: Directory, p: Pdb) {
    var d, s := deployments(p.ns, WorkloadName(p.name)), statefulSets(p.ns, WorkloadName(p.name));
    || !Owned(p.name) || d.Error? || s.Error?
    || (d.Exists? && d.replicas.Some? && d.replicas.value >= 2)
    || (d.Absent? && s.Exists? && s.replicas.Some? && s.replicas.value >= 2)
  }

  function KeepFilter(deployments: Directory, statefulSets: Directory): Pdb -> bool {
    (p: Pdb) => Keeps(deployments, statefulSets, p)
  }

  /** One pass. Without failing calls it keeps exactly the budgets that are to be kept; with failing calls it may
      leave more, but never fewer. */
  method GarbageCollectOrphanedPDBs(api: Server, deployments: Directory, statefulSets: Directory)
    requires Unique(api.pdbs)
    modifies api
    ensures Unique(api.pdbs)
    ensures forall p :: p in api.pdbs ==> p in old(api.pdbs)
    ensures forall p :: p in old(api.pdbs) && Keeps(deployments, statefulSets, p) ==> p in api.pdbs
    ensures api.reliable ==> api.pdbs == Filter(old(api.pdbs), KeepFilter(deployments, statefulSets))
  {
    var pdbs, ok := api.ListAll();
    if !ok {
      return;
    }
    ghost var start := api.pdbs;
    CollectionStarts(start, deployments, statefulSets, api.reliable);
    assert pdbs[..0] == [];
    hide Filter, Collected, Doomed, Unique;
    for i := 0 to |pdbs|
      invariant Collected(start, Doomed(deployments, statefulSets, pdbs[..i]), api.pdbs, api.reliable)
    {
      assert pdbs[..i + 1] == pdbs[..i] + [pdbs[i]];
      assert pdbs[i] in pdbs;
      CollectOne(api, deployments, statefulSets, pdbs[i], start, pdbs[..i]);
    }
    assert pdbs[..|pdbs|] == pdbs;
    CollectionEnds(start, deployments, statefulSets, api.pdbs, api.reliable);
  }

  /** The listed budgets that are not to be kept. */
  function Doomed(deployments: Directory, statefulSets: Directory, pdbs: seq<Pdb>): set<Pdb> {
    set p | p in pdbs && !Keeps(deployments, statefulSets, p)
  }

  /** Of the state listed at the start, at most the budgets `gone` are missing, and just those without failing calls. */
  ghost predicate Collected(start: seq<Pdb>, gone: set<Pdb>, now: seq<Pdb>, reliable: bool) {
    && Unique(now) && (forall p :: p in now ==> p in start) && (forall p :: p in start && p !in gone ==> p in now)
    && (reliable ==> now == Filter(start, PdbController.NotIn(gone)))
  }

  lemma CollectionStarts(s: seq<Pdb>, deployments: Directory, statefulSets: Directory, reliable: bool)
    requires Unique(s)
    ensures Collected(s, Doomed(deployments, statefulSets, []), s, reliable)
  {
    hide Keeps, Unique;
    FilterAll(s, PdbController.NotIn(Doomed(deployments, statefulSets, [])));
  }

  lemma CollectionEnds(start: seq<Pdb>, deployments: Directory, statefulSets: Directory, now: seq<Pdb>, reliable: bool)
    requires Collected(start, Doomed(deployments, statefulSets, start), now, reliable)
    ensures Unique(now)
    ensures forall p :: p in now ==> p in start
    ensures forall p :: p in start && Keeps(deployments, statefulSets, p) ==> p in now
    ensures reliable ==> now == Filter(start, KeepFilter(deployments, statefulSets))
  {
    hide Keeps, Unique;
    var gone := Doomed(deployments, statefulSets, start);
    forall p | p in start ensures PdbController.NotIn(gone)(p) == KeepFilter(deployments, statefulSets)(p) {}
    PdbController.FilterSame(start, PdbController.NotIn(gone), KeepFilter(deployments, statefulSets));
  }

  /** The body of the loop. */
  method CollectOne(api: Server, deployments: Directory, statefulSets: Directory, pdb: Pdb, ghost start: seq<Pdb>,
                    ghost before: seq<Pdb>)
    requires Unique(start) && pdb in start
    requires Collected(start, Doomed(deployments, statefulSets, before), api.pdbs, api.reliable)
    modifies api
    ensures Collected(start, Doomed(deployments, statefulSets, before + [pdb]), api.pdbs, api.reliable)
  {
    ghost var gone := Doomed(deployments, statefulSets, before);
    NextDoomed(deployments, statefulSets, before, pdb);
    hide Doomed, Collected, WorkloadName, Owned;
    if !Owned(pdb.name) {
      return;
    }
    var workload := WorkloadName(pdb.name);
    var deploy, sts := deployments(pdb.ns, workload), statefulSets(pdb.ns, workload);
    if deploy.Error? || sts.Error? {
      return;
    }
    if deploy.Absent? && sts.Absent? {
      DeleteGone(api, pdb, start, gone);
      return;
    }
    var replicas := if deploy.Exists? then deploy.replicas else sts.replicas;
    if replicas.None? || replicas.value < 2 {
      DeleteGone(api, pdb, start, gone);
    }
  }

  lemma NextDoomed(deployments: Directory, statefulSets: Directory, before: seq<Pdb>, pdb: Pdb)
    ensures Doomed(deployments, statefulSets, before + [pdb])
         == if Keeps(deployments, statefulSets, pdb) then Doomed(deployments, statefulSets, before)
            else Doomed(deployments, statefulSets, before) + {pdb}
  {
    hide Keeps;
  }

  /** Deletes one listed budget by name; `start` is the state that was listed. */
  method DeleteGone(api: Server, pdb: Pdb, ghost start: seq<Pdb>, ghost gone: set<Pdb>)
    requires Unique(start) && pdb in start && Collected(start, gone, api.pdbs, api.reliable)
    modifies api
    ensures Collected(start, gone + {pdb}, api.pdbs, api.reliable)
  {
    hide Filter;
    ghost var before := api.pdbs;
    PdbController.DeleteOne(start, gone, pdb);
    var i := First(before, Named(pdb.ns, pdb.name));
    if i < |before| {
      RemoveMembers(before, i);
      SameName(start, before[i], pdb);
    }
    hide PdbController.NotIn;
    var err := api.Delete(pdb.ns, pdb.name);
  }

  lemma SameName(s: seq<Pdb>, p: Pdb, q: Pdb)
    requires Unique(s) && p in s && q in s && p.ns == q.ns && p.name == q.name
    ensures p == q
  {}
}

/** How long a budget has been blocking disruptions. */
module DisruptionTracker {
  import opened PdbModel

  type Key = (string, string)

  function KeyOf(p: Pdb): Key { (p.ns, p.name) }

  /** A controller's budget with populated status that allows no disruption. */
  predicate Blocked(p: Pdb) {
    Owned(p.name) && (p.status.expectedPods > 0 || p.status.desiredHealthy > 0) && p.status.disruptionsAllowed <= 0
  }

  predicate BlockedIn(pdbs: seq<Pdb>, k: Key) {
    exists i :: 0 <= i < |pdbs| && KeyOf(pdbs[i]) == k && Blocked(pdbs[i])
  }

  /** The tracker after one scan. */
  function Scanned(since: map<Key, int>, pdbs: seq<Pdb>, now: int): map<Key, int> {
    map i | 0 <= i < |pdbs| && Blocked(pdbs[i])
      :: KeyOf(pdbs[i]) := if KeyOf(pdbs[i]) in since then since[KeyOf(pdbs[i])] else now
  }

  class Tracker {
    var since: map<Key, int>

    constructor ()
      ensures since == map[]
    {
      since := map[];
    }

    method Reset()
      modifies this
      ensures since == map[]
    {
      since := map[];
    }

    /** One scan over a successful listing: each of the controller's budgets, then the keys that are gone. */
    method Scan(pdbs: seq<Pdb>, now: int)
      requires Unique(pdbs)
      modifies this
      ensures since == Scanned(old(since), pdbs, now)
    {
      ghost var before := since;
      var seen: set<Key> := {};
      assert pdbs[..0] == [];
      for i := 0 to |pdbs|
        invariant since == Observed(before, pdbs[..i], now)
        invariant seen == set j | 0 <= j < i && Owned(pdbs[j].name) :: KeyOf(pdbs[j])
      {
        hide Owned;
        var pdb := pdbs[i];
        assert pdbs[..i + 1][..i] == pdbs[..i];
        if !Owned(pdb.name) {
          continue;
        }
        var key := KeyOf(pdb);
        seen := seen + {key};
        var populated := pdb.status.expectedPods > 0 || pdb.status.desiredHealthy > 0;
        if !populated || pdb.status.disruptionsAllowed > 0 {
          since := since - {key};
          continue;
        }
        if key !in since {
          since := since[key := now];
        }
      }
      assert pdbs[..|pdbs|] == pdbs;
      var keys := since.Keys;
      since := map k | k in keys && k in seen :: since[k];
      forall k ensures k in since <==> k in Scanned(before, pdbs, now)
               ensures k in since ==> since[k] == Scanned(before, pdbs, now)[k]
      {
        ObservedKey(before, pdbs, now, k);
        ScannedKey(before, pdbs, now, k);
        assert k in seen <==> SeenIn(pdbs, k);
      }
    }
  }

  predicate SeenIn(pdbs: seq<Pdb>, k: Key) {
    exists i :: 0 <= i < |pdbs| && KeyOf(pdbs[i]) == k && Owned(pdbs[i].name)
  }

  /** The tracker after the budgets of a listing, before the keys that are gone are dropped. */
  function Observed(since: map<Key, int>, pdbs: seq<Pdb>, now: int): map<Key, int> {
    if pdbs == [] then since
    else
      var m, p := Observed(since, pdbs[..|pdbs| - 1], now), pdbs[|pdbs| - 1];
      if !Owned(p.name) then m
      else if !Blocked(p) then m - {KeyOf(p)}
      else if KeyOf(p) in m then m
      else m[KeyOf(p) := now]
  }

  lemma {:induction false} ObservedKey(since: map<Key, int>, pdbs: seq<Pdb>, now: int, k: Key)
    requires Unique(pdbs)
    ensures
      var m := Observed(since, pdbs, now);
      && (k in m <==> if SeenIn(pdbs, k) then BlockedIn(pdbs, k) else k in since)
      && (k in m ==> m[k] == if k in since then since[k] else now)
  {
    if pdbs != [] {
      var n := |pdbs| - 1;
      var front, p := pdbs[..n], pdbs[n];
      ObservedKey(since, front, now, k);
      assert SeenIn(pdbs, k) <==> SeenIn(front, k) || (KeyOf(p) == k && Owned(p.name));
      assert BlockedIn(pdbs, k) <==> BlockedIn(front, k) || (KeyOf(p) == k && Blocked(p));
      if KeyOf(p) == k {
        assert forall i :: 0 <= i < n ==> KeyOf(front[i]) != k;
        assert !SeenIn(front, k) && !BlockedIn(front, k);
      }
      hide Owned, SeenIn, BlockedIn;
    }
  }

  lemma ScannedKey(since: map<Key, int>, pdbs: seq<Pdb>, now: int, k: Key)
    ensures k in Scanned(since, pdbs, now) <==> BlockedIn(pdbs, k)
    ensures k in Scanned(since, pdbs, now) ==> Scanned(since, pdbs, now)[k] == if k in since then since[k] else now
  {}

  datatype Observation = Observation(pdbs: seq<Pdb>, time: int)

  /** The tracker after a sequence of successful scans since the last reset. */
  function TrackedAfter(history: seq<Observation>): map<Key, int> {
    if history == [] then map[]
    else
      var last := history[|history| - 1];
      Scanned(TrackedAfter(history[..|history| - 1]), last.pdbs, last.time)
  }

  /** The unbroken run of scans, up to the latest, in which k was blocked starts at scan j. */
  predicate StreakFrom(history: seq<Observation>, k: Key, j: nat) {
    && j < |history|
    && (forall i :: j <= i < |history| ==> BlockedIn(history[i].pdbs, k))
    && (j > 0 ==> !BlockedIn(history[j - 1].pdbs, k))
  }

  /** After any history the tracker holds exactly the budgets blocked in the latest scan, each with the time of
      the first scan of its current streak. */
  lemma {:induction false} TrackerAgreesWithHistory(history: seq<Observation>, k: Key)
    ensures k in TrackedAfter(history) <==> history != [] && BlockedIn(history[|history| - 1].pdbs, k)
    ensures k in TrackedAfter(history) ==> exists j: nat :: StreakFrom(history, k, j) && TrackedAfter(history)[k] == history[j].time
  {
    hide BlockedIn;
    if history != [] {
      var n := |history| - 1;
      var before, last := history[..n], history[n];
      TrackerAgreesWithHistory(before, k);
      ScannedKey(TrackedAfter(before), last.pdbs, last.time, k);
      if k in TrackedAfter(history) {
        if k in TrackedAfter(before) {
          var j: nat :| StreakFrom(before, k, j) && TrackedAfter(before)[k] == before[j].time;
          assert StreakFrom(history, k, j);
        } else {
          assert StreakFrom(history, k, n);
        }
      }
    }
  }
}
