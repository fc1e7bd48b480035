/** The scheduled cleanup from end to end: every ecosystem plans, then one pass
    retires and sweeps. */
module ScheduledCleanup {
  import opened Records
  import opened GraphWalk
  import opened References
  import opened Sorting
  import SweepPlan
  import opened Stores
  import opened PackagePlan
  import opened PackageApply
  import opened PackagePass
  import opened ContainerGraph
  import ContainerPlan
  import ArtifactPlan

  /** The container planner's tests and the artifact ecosystems. */
  datatype Ecosystems = Ecosystems(container: Manifest -> bool, valid: string -> bool,
                                   artifacts: seq<ArtifactPlan.Naming>)

  function PlannerOf(e: Ecosystems, mode: Mode, w: World): Planner {
    Planner(mode.env, e.container, e.valid, w.objects)
  }

  /** The collector's walk reads every reference that the container planner reads,
      and the empty string is no digest. */
  ghost predicate ReadsAlike(e: Ecosystems, mode: Mode, w: World) {
    ContainerPlan.AllWalked(PlannerOf(e, mode, w), w.meta, mode.flaky) && !e.valid("")
  }

  ghost predicate AllPlanned(graph: Graph, inv: Snapshot, groups: seq<Group>) {
    forall g :: g in groups ==> Planned(graph, inv, g)
  }

  /** One plan per artifact ecosystem, one after the other. */
  ghost predicate ArtifactPlans(artifacts: seq<ArtifactPlan.Naming>, inv: Snapshot, groups: seq<Group>)
    decreases artifacts
  {
    if artifacts == [] then groups == []
    else
      var n := |artifacts| - 1;
      exists k :: 0 <= k <= |groups| && ArtifactPlans(artifacts[..n], inv, groups[..k]) &&
        ArtifactPlan.IsPlan(artifacts[n], inv, groups[k..])
  }

  /** The container plan, then the plans of the artifact ecosystems. */
  ghost predicate IsPlan(e: Ecosystems, mode: Mode, w: World, groups: seq<Group>) {
    var p := Planner(mode.env, e.container, e.valid, w.objects);
    exists k :: 0 <= k <= |groups| && ContainerPlan.IsPlan(p, w.meta, groups[..k]) &&
      ArtifactPlans(e.artifacts, w.meta, groups[k..])
  }

  lemma ArtifactPlansMore(artifacts: seq<ArtifactPlan.Naming>, inv: Snapshot, groups: seq<Group>, i: nat,
                          more: seq<Group>)
    requires i < |artifacts| && ArtifactPlans(artifacts[..i], inv, groups) &&
      ArtifactPlan.IsPlan(artifacts[i], inv, more)
    ensures ArtifactPlans(artifacts[..i + 1], inv, groups + more)
  {
    var all := artifacts[..i + 1];
    assert all[..i] == artifacts[..i] && all[i] == artifacts[i];
    assert (groups + more)[..|groups|] == groups && (groups + more)[|groups|..] == more;
  }

  lemma {:induction false} ArtifactsPlanned(artifacts: seq<ArtifactPlan.Naming>, inv: Snapshot, groups: seq<Group>,
                                            graph: Graph)
    requires ArtifactPlans(artifacts, inv, groups)
    ensures AllPlanned(graph, inv, groups)
    decreases artifacts
  {
    if artifacts != [] {
      var n := |artifacts| - 1;
      var k :| 0 <= k <= |groups| && ArtifactPlans(artifacts[..n], inv, groups[..k]) &&
        ArtifactPlan.IsPlan(artifacts[n], inv, groups[k..]);
      ArtifactsPlanned(artifacts[..n], inv, groups[..k], graph);
      forall g | g in groups[k..] ensures Planned(graph, inv, g) {
        ArtifactPlan.ListedPlanned(artifacts[n], inv, groups[k..], graph, g);
      }
      assert groups == groups[..k] + groups[k..];
    }
  }

  /** Every planned group is one that the collector keeps whole when it is retained. */
  lemma PlanPlanned(e: Ecosystems, mode: Mode, w: World, groups: seq<Group>)
    requires !mode.prune && IsPlan(e, mode, w, groups)
    ensures ReadsAlike(e, mode, w) ==> AllPlanned(GraphOf(mode, w), w.meta, groups)
    ensures FromInventory(w.meta, groups)
  {
    var p := PlannerOf(e, mode, w);
    var k :| 0 <= k <= |groups| && ContainerPlan.IsPlan(p, w.meta, groups[..k]) &&
      ArtifactPlans(e.artifacts, w.meta, groups[k..]);
    assert groups == groups[..k] + groups[k..];
    ArtifactsPlanned(e.artifacts, w.meta, groups[k..], GraphOf(mode, w));
    PlannedFromInventory(GraphOf(mode, w), w.meta, groups[k..]);
    ContainerPlan.DepictedFromInventory(p, w.meta, groups[..k]);
    if ReadsAlike(e, mode, w) {
      ImagesPlanned(e, mode, w, groups[..k]);
    }
  }

  lemma ImagesPlanned(e: Ecosystems, mode: Mode, w: World, images: seq<Group>)
    requires !mode.prune && ReadsAlike(e, mode, w) && ContainerPlan.IsPlan(PlannerOf(e, mode, w), w.meta, images)
    ensures AllPlanned(GraphOf(mode, w), w.meta, images)
  {
    var p := PlannerOf(e, mode, w);
    assert ContainerPlan.WalkGraph(p, w.meta, mode.flaky) == GraphOf(mode, w);
    forall g | g in images ensures Planned(GraphOf(mode, w), w.meta, g) {
      ContainerPlan.ListedPlanned(p, w.meta, images, mode.flaky, g);
    }
  }

  lemma PlannedFromInventory(graph: Graph, inv: Snapshot, groups: seq<Group>)
    requires AllPlanned(graph, inv, groups)
    ensures FromInventory(inv, groups)
  {
    forall g | g in groups
      ensures (forall t :: t in g.tags ==> t in inv.tags) && (forall m :: m in g.manifests ==> m in inv.manifests)
      ensures forall l :: l in g.links ==> l in inv.links
    {
      assert Planned(graph, inv, g);
    }
  }

  /** `planPackageCleanup`: the groups of all planners, one after the other. The store
      may fail while the inventory is loaded. */
  method PlanPackageCleanup(e: Ecosystems, mode: Mode, w: World) returns (r: Result<seq<Group>>)
    requires ValidSnapshot(w.meta)
    ensures r.Ok? ==> IsPlan(e, mode, w, r.value)
    ensures r.Err? && r.error !in {Canceled, StoreFailed} ==> ContainerPlan.AnyDefective(PlannerOf(e, mode, w), w.meta)
  {
    var failed: bool := *;
    if failed { return Err(StoreFailed); }
    r := ContainerPlan.PlanCacheCleanup(PlannerOf(e, mode, w), w.meta);
    if r.Err? { return; }
    var container, groups := r.value, [];
    for i := 0 to |e.artifacts|
      invariant ArtifactPlans(e.artifacts[..i], w.meta, groups)
    {
      var more := ArtifactPlan.PlanCacheCleanup(e.artifacts[i], w.meta);
      ArtifactPlansMore(e.artifacts, w.meta, groups, i, more);
      groups := groups + more;
    }
    assert e.artifacts[..|e.artifacts|] == e.artifacts;
    ghost var all, k := container + groups, |container|;
    assert all[..k] == container && all[k..] == groups;
    return Ok(container + groups);
  }

  /** Every package that was not selected is whole, and no tag dangles anew. */
  ghost predicate Keeps(inv: World, groups: seq<Group>, s: Selection, w: World) {
    && (TagsResolve(inv) ==> TagsResolve(w))
    && (forall i :: 0 <= i < |groups| && i !in s.selected ==> Whole(groups[i], inv, w))
  }

  /** Every world written from `from` on keeps the packages that were not selected. */
  ghost predicate AllKept(inv: World, groups: seq<Group>, s: Selection, trace: seq<World>, from: nat) {
    forall j :: from <= j < |trace| ==> Keeps(inv, groups, s, trace[j])
  }

  /** The pass over the planners' own groups. In every world it writes, wherever it
      stops, every package it did not select has all its rows and all its objects. A
      failed plan writes nothing. */
  method RunScheduledCleanup(store: Store, mode: Mode, e: Ecosystems, opts: PlanOptions, scope: Scope, maxBytes: int,
                             targetBytes: int)
    returns (r: Result<SweepPlan.Report>, ghost planned: Result<seq<Group>>, ghost s: Selection)
    requires ValidSnapshot(store.world.meta)
    requires !mode.prune && mode.cutoff == opts.now - opts.unusedFor
    modifies store
    ensures planned.Err? ==>
      r == Err(planned.error) && store.world == old(store.world) && store.trace == old(store.trace)
    ensures planned.Err? && planned.error !in {Canceled, StoreFailed} ==>
      ContainerPlan.AnyDefective(PlannerOf(e, mode, store.world), store.world.meta)
    ensures planned.Ok? ==>
      && IsPlan(e, mode, old(store.world), planned.value) &&
        s == ChosenFor(old(store.world), scope, planned.value, opts)
    ensures old(store.trace) <= store.trace
    ensures planned.Ok? && ReadsAlike(e, mode, old(store.world)) ==>
      AllKept(old(store.world), Sort(planned.value, GroupLess), s, store.trace, |old(store.trace)|)
    ensures planned.Ok? && r.Ok? ==>
      PassReports(mode, old(store.world), scope, planned.value, opts, maxBytes, targetBytes, store.world, r.value)
    ensures planned.Ok? && r.Err? ==>
      PassAborts(mode, old(store.world), scope, planned.value, opts, store.world, r.error)
    ensures opts.dryRun ==> store.world == old(store.world) && store.trace == old(store.trace)
  {
    ghost var inv, from := store.world, |store.trace|;
    var groups := PlanPackageCleanup(e, mode, store.world);
    planned, s := groups, NOTHING_SELECTED;
    if groups.Err? { return Err(groups.error), groups, NOTHING_SELECTED; }
    PlanPlanned(e, mode, store.world, groups.value);
    r, s := RunPackageCleanup(store, mode, groups.value, opts, scope, maxBytes, targetBytes);
    if ReadsAlike(e, mode, inv) {
      SafeKept(mode, inv, groups.value, s, store.trace, from);
    }
  }

  lemma SafeKept(mode: Mode, inv: World, groups: seq<Group>, s: Selection, trace: seq<World>, from: nat)
    requires AllSafe(mode, inv, Sort(groups, GroupLess), s, trace, from) &&
      AllPlanned(GraphOf(mode, inv), inv.meta, groups)
    ensures AllKept(inv, Sort(groups, GroupLess), s, trace, from)
  {
    forall j | from <= j < |trace| ensures Keeps(inv, Sort(groups, GroupLess), s, trace[j]) {
      SafeKeeps(mode, inv, Sort(groups, GroupLess), s, trace[j]);
    }
  }

  lemma SafeKeeps(mode: Mode, inv: World, groups: seq<Group>, s: Selection, w: World)
    requires Safe(mode, inv, groups, s, w) && AllPlanned(GraphOf(mode, inv), inv.meta, groups)
    ensures Keeps(inv, groups, s, w)
  {
  }
}
