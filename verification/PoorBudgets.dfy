/** What a poor budget is: one that allows no disruption, as far as the controller notices. */
module PoorBudgets {
  import opened Basics
  import opened PdbModel
  import opened PdbTheorems
  import opened PdbContents
  import opened PdbPoorScan

  /** A number of pods, or a percentage by its digits. */
  datatype Amount = Count(k: nat) | Share(digits: string)

  /** Unicode white space by code point. */
  predicate Blank(c: char) {
    var u := c as int;
    || 9 <= u <= 13 || 0x2000 <= u <= 0x200A
    || u in {0x20, 0x85, 0xA0, 0x1680, 0x2028, 0x2029, 0x202F, 0x205F, 0x3000}
  }

  lemma BlankIsSpace(c: char)
    ensures Blank(c) <==> IsSpace(c)
  {}

  /** s is the core with white space around it. */
  ghost predicate Surrounded(s: string, core: string) {
    exists i: nat :: CoreAt(s, core, i)
  }

  predicate CoreAt(s: string, core: string, i: nat) {
    && i + |core| <= |s| && s[i..i + |core|] == core
    && forall j :: 0 <= j < |s| && !(i <= j < i + |core|) ==> Blank(s[j])
  }

  /** A well-formed, non-negative value. */
  ghost predicate Means(v: IntOrString, m: Amount) {
    match v
    case IntVal(n) => n >= 0 && m == Count(n)
    case StrVal(s) => m.Share? && AllDigits(m.digits) && Surrounded(s, m.digits + "%")
  }

  ghost predicate AllMeant(v: Option<IntOrString>, m: Option<Amount>) {
    (v.Some? <==> m.Some?) && (v.Some? ==> Means(v.value, m.value))
  }

  /** Of n pods, rounded up. */
  function Percent(p: nat, n: nat): nat { (p * n + 99) / 100 }

  /** Less than one pod is left out. */
  predicate LeavesNone(p: nat, n: nat) { (100 - p) * n < 100 }

  function Pods(m: Amount, n: nat): nat
    requires m.Share? ==> AllDigits(m.digits)
  {
    match m case Count(k) => k case Share(d) => Percent(DecimalValue(d), n)
  }

  /** How many of n pods, all of them healthy, may be disrupted. */
  function Allowed(min: Option<Amount>, max: Option<Amount>, n: nat): int
    requires (min.Some? && min.value.Share? ==> AllDigits(min.value.digits))
             && (max.Some? && max.value.Share? ==> AllDigits(max.value.digits))
  {
    var byMin := if min.Some? then n - Pods(min.value, n) else n;
    var byMax := if max.Some? then Pods(max.value, n) else n;
    if byMin < byMax then byMin else byMax
  }

  /** More pods than there are, a percentage other than 100 that rounds up to all of them, or a zero percentage with
      more than one digit. */
  predicate Unnoticed(min: Option<Amount>, max: Option<Amount>, n: nat)
    requires (min.Some? && min.value.Share? ==> AllDigits(min.value.digits))
             && (max.Some? && max.value.Share? ==> AllDigits(max.value.digits))
  {
    || (min.Some? && match min.value case Count(k) => k > n
                     case Share(d) => d != "100" && LeavesNone(DecimalValue(d), n))
    || (max.Some? && max.value.Share? && max.value.digits != "0" && DecimalValue(max.value.digits) == 0)
  }

  lemma {:induction false} TrimFinds(s: string, core: string, i: nat)
    requires CoreAt(s, core, i) && core != "" && !Blank(core[0]) && !Blank(core[|core| - 1])
    ensures Trim(s) == core
    decreases |s|
  {
    if s != "" {
      BlankIsSpace(s[0]);
      BlankIsSpace(s[|s| - 1]);
    }
    hide IsSpace, Blank;
    if i > 0 {
      assert s[1..][i - 1..i - 1 + |core|] == core;
      TrimFinds(s[1..], core, i - 1);
    } else {
      assert s[0] == core[0];
      if |s| > |core| {
        var t := s[..|s| - 1];
        assert t[..|core|] == core;
        TrimFinds(t, core, 0);
      } else {
        assert s == core;
      }
    }
  }

  lemma TrimReads(s: string, digits: string)
    requires AllDigits(digits) && Surrounded(s, digits + "%")
    ensures Trim(s) == digits + "%"
  {
    var core := digits + "%";
    var i: nat :| CoreAt(s, core, i);
    assert IsDigit(core[0]) && core[|core| - 1] == '%';
    TrimFinds(s, core, i);
    hide Trim, CoreAt;
  }

  lemma SameDigits(a: string, b: string)
    ensures a + "%" == b + "%" <==> a == b
  {
    assert (a + "%")[..|a|] == a && (b + "%")[..|b|] == b;
  }

  lemma Hundred()
    ensures DecimalValue("100") == 100 && DecimalValue("0") == 0
  {
    assert "100"[..2] == "10" && "10"[..1] == "1" && "1"[..0] == "" && "0"[..0] == "";
    assert DecimalValue("1") == 1;
    assert DecimalValue("10") == 10;
  }

  /** A percentage rounds up to all n pods. */
  lemma RoundsToAll(p: nat, n: nat)
    requires n > 0
    ensures Percent(p, n) >= n <==> LeavesNone(p, n)
    ensures Percent(p, n) == 0 <==> p == 0
    ensures LeavesNone(100, n)
  {
    assert (100 - p) * n == 100 * n - p * n;
    var x := p * n;
    if p > 0 {
      assert x >= n;
    }
  }

  /** minAvailable alone. */
  lemma PoorMin(v: IntOrString, m: Amount, n: int32)
    requires n > 0 && Means(v, m)
    ensures Pods(m, n) >= n <==> Poor(PdbSpec(None, Some(v), None, None), n) || Unnoticed(Some(m), None, n)
    ensures !(Poor(PdbSpec(None, Some(v), None, None), n) && Unnoticed(Some(m), None, n))
  {
    if v.StrVal? {
      TrimReads(v.s, m.digits);
      SameDigits(m.digits, "100");
      assert "100" + "%" == "100%";
      Hundred();
      RoundsToAll(DecimalValue(m.digits), n);
    }
    hide Trim, Surrounded, DecimalValue, AllDigits, Percent, LeavesNone;
  }

  /** maxUnavailable alone. */
  lemma PoorMax(v: IntOrString, m: Amount, n: int32)
    requires n > 0 && Means(v, m)
    ensures Pods(m, n) == 0 <==> Poor(PdbSpec(None, None, Some(v), None), n) || Unnoticed(None, Some(m), n)
    ensures !(Poor(PdbSpec(None, None, Some(v), None), n) && Unnoticed(None, Some(m), n))
  {
    if v.StrVal? {
      TrimReads(v.s, m.digits);
      SameDigits(m.digits, "0");
      assert "0" + "%" == "0%";
      Hundred();
      RoundsToAll(DecimalValue(m.digits), n);
    }
    hide Trim, Surrounded, DecimalValue, AllDigits, Percent, LeavesNone;
  }

  /** For well-formed, non-negative values: a budget allows no disruption if and only if it is poor or one of the three
      unnoticed cases; with one value set it is never both. Numbers up to the replica count, 100% and 0% are never
      unnoticed. */
  lemma PoorIffBlocking(spec: PdbSpec, n: int32, min: Option<Amount>, max: Option<Amount>)
    requires n > 0 && AllMeant(spec.minAvailable, min) && AllMeant(spec.maxUnavailable, max)
    ensures Allowed(min, max, n) <= 0 <==> Poor(spec, n) || Unnoticed(min, max, n)
    ensures min.None? || max.None? ==> !(Poor(spec, n) && Unnoticed(min, max, n))
    ensures (min.Some? ==> (min.value.Count? && min.value.k <= n) || min.value == Share("100"))
            && (max.Some? ==> max.value.Count? || max.value == Share("0")) ==>
              (Poor(spec, n) <==> Allowed(min, max, n) <= 0)
  {
    if min.Some? {
      PoorMin(spec.minAvailable.value, min.value, n);
    }
    if max.Some? {
      PoorMax(spec.maxUnavailable.value, max.value, n);
    }
    hide Trim, Means, Pods, DecimalValue, AllDigits, LeavesNone;
  }

  /** What is unnoticed does occur: 75% of three pods rounds up to all three. */
  lemma UnnoticedHappens()
    ensures
      var spec := PdbSpec(None, Some(StrVal("75%")), None, None);
      AllMeant(spec.minAvailable, Some(Share("75"))) && Allowed(Some(Share("75")), None, 3) == 0 && !Poor(spec, 3)
  {
    var s := "75%";
    assert "75"[..1] == "7" && "7"[..0] == "";
    assert DecimalValue("7") == 7;
    assert DecimalValue("75") == 75;
    assert "75" + "%" == s;
    assert CoreAt(s, "75" + "%", 0);
    assert AllDigits("75");
    PoorMin(StrVal(s), Share("75"), 3);
    hide Trim, DecimalValue, CoreAt;
  }

  /** With FixPoorPDBs on, a budget that a reconciliation has written allows a disruption, or is unnoticed. */
  lemma WrittenBudgetsAllow(cfg: Config, w: Workload, s: seq<Pdb>, p: Pdb, min: Option<Amount>, max: Option<Amount>)
    requires Unique(s) && !Diverges(cfg, w, s) && p in Reconcile(cfg, w, s) && p !in s && cfg.fixPoorPDBs
    requires AllMeant(p.spec.minAvailable, min) && AllMeant(p.spec.maxUnavailable, max)
    ensures w.replicas.Some? && w.replicas.value >= 2
    ensures Allowed(min, max, w.replicas.value) > 0 || Unnoticed(min, max, w.replicas.value)
  {
    WrittenBudgets(cfg, w, s, p);
    hide Reconcile, Diverges, CreatedFor, UpdateOf, Poor, Allowed, Unnoticed, AllMeant, Unique;
    PoorIffBlocking(p.spec, w.replicas.value, min, max);
  }

  /** The scan takes a workload without a replica count for one replica. What it counts as poor blocks such a workload,
      and what blocks it is poor unless it is unnoticed, the workload is bypassed or the selectors differ. */
  lemma ScannedPoor(cfg: Config, w: Workload, p: Pdb, n: int32, min: Option<Amount>, max: Option<Amount>)
    requires n > 0 && (w.replicas.Some? ==> n == w.replicas.value) && (w.replicas.None? ==> n == 1)
    requires AllMeant(p.spec.minAvailable, min) && AllMeant(p.spec.maxUnavailable, max)
    ensures PoorFor(cfg, w, p) ==> Allowed(min, max, n) <= 0 && cfg.fixPoorPDBs && !w.bypass && SelectorsAgree(cfg, w, p)
    ensures Allowed(min, max, n) <= 0 && cfg.fixPoorPDBs && !w.bypass && SelectorsAgree(cfg, w, p) ==>
              PoorFor(cfg, w, p) || Unnoticed(min, max, n)
  {
    PoorIffBlocking(p.spec, n, min, max);
    hide Poor, Allowed, Unnoticed, AllMeant, SelectorsAgree;
  }
}
