/** Conditions on a snapshot's status. */
module Conditions {
  import opened Basics

  datatype Status = True | False | Unknown

  datatype Condition = Condition(kind: string, status: Status, reason: string, message: string,
                                 observedGeneration: int, lastTransition: int)

  const READY := "Ready"
  const ROLLED_BACK := "RolledBack"

  /** Index of the first condition of a kind, or the length. */
  function Index(cs: seq<Condition>, kind: string): (i: nat)
    ensures i <= |cs|
    ensures i < |cs| ==> cs[i].kind == kind
    ensures forall k :: 0 <= k < i ==> cs[k].kind != kind
  {
    if cs == [] || cs[0].kind == kind then 0 else 1 + Index(cs[1..], kind)
  }

  function Find(cs: seq<Condition>, kind: string): Option<Condition> {
    if Index(cs, kind) < |cs| then Some(cs[Index(cs, kind)]) else None
  }

  function StatusOf(cs: seq<Condition>, kind: string): Status {
    match Find(cs, kind) case Some(c) => c.status case None => Unknown
  }

  predicate IsReady(cs: seq<Condition>) { StatusOf(cs, READY) == True }

  predicate IsRolledBack(cs: seq<Condition>) { StatusOf(cs, ROLLED_BACK) == True }

  /** The entry that setting c leaves: a new status takes over everything, the same status keeps its time. */
  function Entry(was: Option<Condition>, c: Condition, now: int): Condition {
    if was.None? || was.value.status != c.status then c.(lastTransition := now)
    else was.value.(reason := c.reason, message := c.message, observedGeneration := c.observedGeneration)
  }

  function Set(cs: seq<Condition>, c: Condition, now: int): seq<Condition> {
    var i := Index(cs, c.kind);
    if i == |cs| then cs + [Entry(None, c, now)] else cs[i := Entry(Some(cs[i]), c, now)]
  }

  /** The loop over the conditions, which overwrites the entry it finds in place and otherwise appends. */
  method SetCondition(conditions: array<Condition>, c: Condition, now: int) returns (result: array<Condition>)
    modifies conditions
    ensures result[..] == Set(old(conditions[..]), c, now)
    ensures Find(old(conditions[..]), c.kind).Some? ==> result == conditions
    ensures Find(old(conditions[..]), c.kind).None? ==> fresh(result) && conditions[..] == old(conditions[..])
  {
    var stamped := c.(lastTransition := now);
    ghost var cs := conditions[..];
    for i := 0 to conditions.Length
      invariant conditions[..] == cs
      invariant forall k :: 0 <= k < i ==> cs[k].kind != c.kind
    {
      var existing := conditions[i];
      if existing.kind == stamped.kind {
        FirstIs(cs, c.kind, i);
        if existing.status != stamped.status {
          conditions[i] := stamped;
        } else {
          conditions[i] := existing.(reason := stamped.reason, message := stamped.message,
                                     observedGeneration := stamped.observedGeneration);
        }
        assert conditions[..] == cs[i := Entry(Some(cs[i]), c, now)];
        return conditions;
      }
    }
    FirstIs(cs, c.kind, |cs|);
    result := new Condition[conditions.Length + 1](k requires 0 <= k <= conditions.Length reads conditions =>
      if k < conditions.Length then conditions[k] else stamped);
    assert result[..] == cs + [stamped];
  }

  lemma {:induction false} FirstIs(cs: seq<Condition>, kind: string, i: nat)
    requires i <= |cs| && (i < |cs| ==> cs[i].kind == kind)
    requires forall k :: 0 <= k < i ==> cs[k].kind != kind
    ensures Index(cs, kind) == i
  {}

  /** The loop that reads a status. */
  method GetConditionStatus(conditions: array<Condition>, kind: string) returns (status: Status)
    ensures status == StatusOf(conditions[..], kind)
  {
    for i := 0 to conditions.Length
      invariant forall k :: 0 <= k < i ==> conditions[k].kind != kind
    {
      if conditions[i].kind == kind {
        FirstIs(conditions[..], kind, i);
        return conditions[i].status;
      }
    }
    FirstIs(conditions[..], kind, conditions.Length);
    status := Unknown;
  }

  predicate OnePerKind(cs: seq<Condition>) {
    forall i, j :: 0 <= i < j < |cs| ==> cs[i].kind != cs[j].kind
  }

  /** Setting a condition decides what is found for its kind, and only for its kind. */
  lemma SetIsLocal(cs: seq<Condition>, c: Condition, now: int, kind: string)
    ensures Find(Set(cs, c, now), kind) == if kind == c.kind then Some(Entry(Find(cs, kind), c, now)) else Find(cs, kind)
    ensures OnePerKind(cs) ==> OnePerKind(Set(cs, c, now))
  {
    var i, r := Index(cs, c.kind), Set(cs, c, now);
    if kind == c.kind {
      FirstIs(r, kind, i);
    } else {
      var k := Index(cs, kind);
      FirstIs(r, kind, if k < |cs| then k else |r|);
    }
  }

  // ----- histories -----

  datatype Call = Call(c: Condition, now: int)

  function Replay(history: seq<Call>): seq<Condition> {
    if history == [] then []
    else
      var n := |history| - 1;
      Set(Replay(history[..n]), history[n].c, history[n].now)
  }

  /** The condition says what c does, whatever the time. */
  predicate Tells(found: Option<Condition>, c: Condition) {
    && found.Some? && found.value.kind == c.kind && found.value.status == c.status && found.value.reason == c.reason
    && found.value.message == c.message && found.value.observedGeneration == c.observedGeneration
  }

  /** The latest call for a kind. */
  predicate Latest(history: seq<Call>, kind: string, j: nat) {
    && j < |history| && history[j].c.kind == kind
    && forall i :: j < i < |history| ==> history[i].c.kind != kind
  }

  /** Call j gave the kind a status that it did not have before, and no later call gave it another one. */
  predicate LastChange(history: seq<Call>, kind: string, j: nat) {
    && j < |history| && history[j].c.kind == kind
    && (forall i :: j <= i < |history| && history[i].c.kind == kind ==> history[i].c.status == history[j].c.status)
    && (forall i :: 0 <= i < j && Latest(history[..j], kind, i) ==> history[i].c.status != history[j].c.status)
  }

  /** After any calls there is at most one condition of a kind, it has the status, reason, message and generation written
      last, and its transition time is that of the last call that changed the status. */
  lemma {:induction false} ConditionHistory(history: seq<Call>, kind: string)
    ensures OnePerKind(Replay(history))
    ensures Find(Replay(history), kind).Some? <==> exists j: nat :: Latest(history, kind, j)
    ensures forall j: nat :: Latest(history, kind, j) ==> Tells(Find(Replay(history), kind), history[j].c)
    ensures Find(Replay(history), kind).Some? ==>
      exists j: nat :: LastChange(history, kind, j) && Find(Replay(history), kind).value.lastTransition == history[j].now
  {
    if history != [] {
      var n := |history| - 1;
      var before, last := history[..n], history[n];
      ConditionHistory(before, kind);
      SetIsLocal(Replay(before), last.c, last.now, kind);
      LatestStep(before, last, kind);
      assert history == before + [last];
      var was, now := Find(Replay(before), kind), Find(Replay(history), kind);
      if now.Some? {
        if last.c.kind != kind || (was.Some? && was.value.status == last.c.status) {
          var j: nat :| LastChange(before, kind, j) && was.value.lastTransition == before[j].now;
          KeepsChange(before, last, kind, j);
          assert history[j] == before[j];
        } else {
          NewChange(before, last, kind, was);
          assert history[n] == last;
        }
      }
      hide Index, Set, Find, LastChange, Latest;
    }
  }

  lemma LatestStep(before: seq<Call>, last: Call, kind: string)
    ensures forall j: nat :: Latest(before + [last], kind, j) <==>
              if last.c.kind == kind then j == |before| else Latest(before, kind, j)
    ensures last.c.kind == kind ==> Latest(before + [last], kind, |before|)
  {
    var h := before + [last];
    assert h[|before|] == last;
    assert forall j :: 0 <= j < |before| ==> h[j] == before[j];
    if last.c.kind != kind {
      forall j: nat ensures Latest(h, kind, j) <==> Latest(before, kind, j) {}
    }
  }

  lemma NewChange(before: seq<Call>, last: Call, kind: string, was: Option<Condition>)
    requires last.c.kind == kind && (was.Some? ==> was.value.status != last.c.status)
    requires was.Some? <==> exists j: nat :: Latest(before, kind, j)
    requires forall j: nat :: Latest(before, kind, j) ==> was.Some? && was.value.status == before[j].c.status
    ensures LastChange(before + [last], kind, |before|)
  {
    var h := before + [last];
    assert h[..|before|] == before;
  }

  lemma KeepsChange(before: seq<Call>, last: Call, kind: string, j: nat)
    requires LastChange(before, kind, j)
    requires last.c.kind == kind ==> last.c.status == before[j].c.status
    ensures LastChange(before + [last], kind, j)
  {
    var h := before + [last];
    assert h[..j] == before[..j];
  }
}

/** Finalizer lists. */
module Finalizers {
  /** The list without a name, in order. */
  function Without(fs: seq<string>, name: string): seq<string> {
    if fs == [] then []
    else Without(fs[..|fs| - 1], name) + (if fs[|fs| - 1] == name then [] else [fs[|fs| - 1]])
  }

  function With(fs: seq<string>, name: string): seq<string> { if name in fs then fs else fs + [name] }

  lemma {:induction false} WithoutMembers(fs: seq<string>, name: string)
    ensures multiset(Without(fs, name)) == multiset(fs)[name := 0]
    ensures name !in fs ==> Without(fs, name) == fs
    ensures |Without(fs, name)| <= |fs|
  {
    if fs != [] {
      var n := |fs| - 1;
      assert fs == fs[..n] + [fs[n]];
      WithoutMembers(fs[..n], name);
    }
  }

  /** Removing undoes adding. */
  lemma AddThenRemove(fs: seq<string>, name: string)
    requires name !in fs
    ensures Without(With(fs, name), name) == fs
  {
    assert (fs + [name])[..|fs|] == fs;
    WithoutMembers(fs, name);
  }

  /** The filter that compacts the list into its own backing array: the first `kept` elements are what is left. */
  method RemoveInPlace(finalizers: array<string>, name: string) returns (kept: nat, found: bool)
    modifies finalizers
    ensures kept <= finalizers.Length && finalizers[..kept] == Without(old(finalizers[..]), name)
    ensures finalizers[kept..] == old(finalizers[kept..])
    ensures found <==> name in old(finalizers[..])
  {
    ghost var fs := finalizers[..];
    kept, found := 0, false;
    assert fs[..0] == [];
    for i := 0 to finalizers.Length
      invariant kept <= i && finalizers[..kept] == Without(fs[..i], name)
      invariant finalizers[kept..] == fs[kept..]
      invariant found <==> name in fs[..i]
    {
      var f := finalizers[i];
      assert f == finalizers[kept..][i - kept] == fs[i];
      assert fs[..i + 1][..i] == fs[..i];
      if f == name {
        found := true;
        continue;
      }
      finalizers[kept] := f;
      kept := kept + 1;
    }
    assert fs[..|fs|] == fs;
  }

  method Add(finalizers: seq<string>, name: string) returns (result: seq<string>, changed: bool)
    ensures result == With(finalizers, name) && (changed <==> name !in finalizers)
  {
    for i := 0 to |finalizers|
      invariant name !in finalizers[..i]
    {
      if finalizers[i] == name {
        return finalizers, false;
      }
    }
    return finalizers + [name], true;
  }
}
