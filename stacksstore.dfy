/**
 * The pure parts of `stacksStore.ts`: the per-stack counts derived from a
 * container snapshot and the equality test that decides whether the stacks
 * snapshot changed.
 */
module StacksStore {
  import opened Wrappers
  import opened OrderedMaps
  import opened DockerCli

  /** `StackInfo`: a stack's name, its running containers and all its containers. */
  datatype StackInfo = StackInfo(name: string, running: nat, total: nat)

  /** The stack of a container: its compose project label, else its stack namespace label; none when both are absent or empty. */
  function StackName(it: PsItem): (r: Option<string>)
    ensures r.Some? ==> r.value != "" && r.value in StackLabels(it)
    ensures r.None? ==> StackLabels(it) == {}
  {
    var project := LabelOf(it, COMPOSE_PROJECT_LABEL);
    var namespace := LabelOf(it, STACK_NAMESPACE_LABEL);
    if project.Some? && project.value != "" then project
    else if namespace.Some? && namespace.value != "" then namespace
    else None
  }

  /** Whether a container counts as running. */
  predicate IsRunning(it: PsItem) {
    it.state == Some(CONTAINER_STATUS_RUNNING)
  }

  /** The containers of stack `n`. */
  function CountIn(items: seq<PsItem>, n: string): nat {
    if items == [] then 0
    else CountIn(items[..|items| - 1], n) + (if StackName(items[|items| - 1]) == Some(n) then 1 else 0)
  }

  /** The running containers of stack `n`. */
  function RunningIn(items: seq<PsItem>, n: string): nat {
    if items == [] then 0
    else
      var it := items[|items| - 1];
      RunningIn(items[..|items| - 1], n) + (if StackName(it) == Some(n) && IsRunning(it) then 1 else 0)
  }

  /** One turn of the `aggregateStacks` loop: a labelled container adds one to its stack's counts. */
  function Tally(m: JsMap<string, StackInfo>, it: PsItem): (r: JsMap<string, StackInfo>)
    requires m.Valid()
    ensures r.Valid()
    ensures StackName(it).None? ==> r == m
    ensures StackName(it).Some? ==>
      var n := StackName(it).value;
      var before := m.Get(n).GetOr(StackInfo(n, 0, 0));
      r.vals == m.vals[n := StackInfo(n, before.running + (if IsRunning(it) then 1 else 0), before.total + 1)]
  {
    match StackName(it)
    case None => m
    case Some(n) =>
      var entry := m.Get(n).GetOr(StackInfo(n, 0, 0));
      m.Set(n, StackInfo(n, entry.running + (if IsRunning(it) then 1 else 0), entry.total + 1))
  }

  /** `aggregateStacks` over the containers in iteration order. */
  function Aggregate(items: seq<PsItem>): (m: JsMap<string, StackInfo>)
    ensures m.Valid()
  {
    if items == [] then Empty() else Tally(Aggregate(items[..|items| - 1]), items[|items| - 1])
  }

  /**
   * A stack appears exactly when some container carries its label, and it
   * counts those containers and the running ones among them.
   */
  lemma {:induction false} AggregateCounts(items: seq<PsItem>, n: string)
    ensures n in Aggregate(items).vals <==> CountIn(items, n) > 0
    ensures n in Aggregate(items).vals ==>
      Aggregate(items).vals[n] == StackInfo(n, RunningIn(items, n), CountIn(items, n))
  {
    if items != [] {
      var init := items[..|items| - 1];
      AggregateCounts(init, n);
      RunningAtMostTotal(init, n);
    }
  }

  /** No stack has more running containers than containers. */
  lemma {:induction false} RunningAtMostTotal(items: seq<PsItem>, n: string)
    ensures RunningIn(items, n) <= CountIn(items, n)
  {
    if items != [] {
      RunningAtMostTotal(items[..|items| - 1], n);
    }
  }

  /** Every stack listed has at least one container, and at most that many running. */
  lemma AggregateBounds(items: seq<PsItem>, n: string)
    requires n in Aggregate(items).vals
    ensures 1 <= Aggregate(items).vals[n].total
    ensures Aggregate(items).vals[n].running <= Aggregate(items).vals[n].total
  {
    AggregateCounts(items, n);
    RunningAtMostTotal(items, n);
  }

  /** `aggregateStacks(containers)`. */
  method AggregateStacks(containers: JsMap<string, PsItem>) returns (m: JsMap<string, StackInfo>)
    requires containers.Valid()
    ensures m == Aggregate(containers.Values()) && m.Valid()
  {
    var items := containers.Values();
    m := Empty();
    var i := 0;
    while i < |containers.order|
      invariant 0 <= i <= |items|
      invariant m == Aggregate(items[..i])
    {
      var it := containers.vals[containers.order[i]];
      assert it == items[i];
      assert items[..i + 1][..i] == items[..i];
      m := Tally(m, it);
      i := i + 1;
    }
    assert items[..i] == items;
  }

  /** The test of `areEqual`: the same size, and every stack of `a` in `b` with the same counts. */
  predicate SameCounts(a: JsMap<string, StackInfo>, b: JsMap<string, StackInfo>) {
    && a.Size() == b.Size()
    && forall i :: 0 <= i < |a.order| ==>
         a.order[i] in a.vals && a.order[i] in b.vals
         && b.vals[a.order[i]].running == a.vals[a.order[i]].running
         && b.vals[a.order[i]].total == a.vals[a.order[i]].total
  }

  /** `areEqual(a, b)`, which returns at the first stack that differs. */
  method AreEqual(a: JsMap<string, StackInfo>, b: JsMap<string, StackInfo>) returns (eq: bool)
    requires a.Valid()
    ensures eq == SameCounts(a, b)
  {
    if a.Size() != b.Size() {
      return false;
    }
    var i := 0;
    while i < |a.order|
      invariant 0 <= i <= |a.order|
      invariant forall j :: 0 <= j < i ==>
        a.order[j] in a.vals && a.order[j] in b.vals
        && b.vals[a.order[j]].running == a.vals[a.order[j]].running
        && b.vals[a.order[j]].total == a.vals[a.order[j]].total
    {
      var k := a.order[i];
      var other := b.Get(k);
      if other.None? || other.value.running != a.vals[k].running || other.value.total != a.vals[k].total {
        return false;
      }
      i := i + 1;
    }
    return true;
  }

  /**
   * Two stacks snapshots are equal exactly when they list the same stacks with
   * the same counts: the order and the `name` fields play no part.
   */
  lemma SameCountsIff(a: JsMap<string, StackInfo>, b: JsMap<string, StackInfo>)
    requires a.Valid() && b.Valid()
    ensures SameCounts(a, b) <==>
      (a.vals.Keys == b.vals.Keys && forall n :: n in a.vals ==>
         a.vals[n].running == b.vals[n].running && a.vals[n].total == b.vals[n].total)
  {
    SizeIsKeyCount(a);
    SizeIsKeyCount(b);
    if SameCounts(a, b) {
      forall n | n in a.vals
        ensures n in b.vals
      {
        var i :| 0 <= i < |a.order| && a.order[i] == n;
      }
      SubsetSameSize(a.vals.Keys, b.vals.Keys);
    }
    if a.vals.Keys == b.vals.Keys {
      assert a.Size() == b.Size();
    }
  }
}
