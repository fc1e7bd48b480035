/** A whole scheduled pass: select packages, retire their metadata, sweep. */
module PackagePass {
  import opened Records
  import opened Reachability
  import opened GraphWalk
  import opened References
  import opened Sorting
  import SweepPlan
  import opened Stores
  import opened Sweep
  import opened PackagePlan
  import opened PackageApply

  // ---------------------------------------------------------------------------
  // Crash points: no tag ever dangles

  /** The tag's manifest row exists and so does the object it is read from. */
  ghost predicate Resolves(w: World, t: Tag) {
    exists m :: m in w.meta.manifests && ManifestTriple(m) == TagTarget(t) && BodyKey(m) in w.objects
  }

  ghost predicate TagsResolve(w: World) {
    forall t :: t in w.meta.tags ==> Resolves(w, t)
  }

  /** A retirement in which no kept tag's manifest is retired. */
  ghost predicate KeepsTargets(inv: Snapshot, k: Keys) {
    k.manifests !! KeptTargets(inv.tags, k.tags)
  }

  lemma RetiringResolves(inv: World, k: Keys, w: World)
    requires TagsResolve(inv) && KeepsTargets(inv.meta, k) && Retiring(inv, k, w)
    ensures TagsResolve(w)
  {
    var done :| RetiredSoFar(inv, k, done, w);
    forall t | t in w.meta.tags ensures Resolves(w, t) {
      assert t in inv.meta.tags && TagKey(t) !in done.tags;
      var m :| m in inv.meta.manifests && ManifestTriple(m) == TagTarget(t) && BodyKey(m) in inv.objects;
      assert ManifestKey(m) == TargetKey(t);
      if done.manifests != {} {
        assert TargetKey(t) in KeptTargets(inv.meta.tags, k.tags);
      }
      assert m in w.meta.manifests;
    }
  }

  /** In a sweep that does not prune, every manifest and its body are protected. */
  lemma ManifestsGuarded(mode: Mode, w: World, m: Manifest)
    requires !mode.prune && ValidSnapshot(w.meta) && m in w.meta.manifests
    ensures m.digest in Guarded(mode, w) && BodyKey(m) in Guarded(mode, w)
  {
    RootsGuarded(mode, w);
    assert m.digest in AllManifestRoots(w.meta.manifests);
    if m.objectKey != "" {
      assert m.objectKey in AllManifestRoots(w.meta.manifests);
    }
  }

  lemma IntactResolves(mode: Mode, guarded: set<string>, start: World, w: World)
    requires !mode.prune && ValidSnapshot(start.meta) && guarded == Guarded(mode, start)
    requires TagsResolve(start) && Intact(mode, guarded, start, w)
    ensures TagsResolve(w)
  {
    forall t | t in w.meta.tags ensures Resolves(w, t) {
      assert t in start.meta.tags;
      var m :| m in start.meta.manifests && ManifestTriple(m) == TagTarget(t) && BodyKey(m) in start.objects;
      ManifestsGuarded(mode, start, m);
      assert ManifestDigest(m) in guarded;
      assert m in w.meta.manifests;
    }
  }

  // ---------------------------------------------------------------------------
  // Retained packages

  /** A group as the planners build it: its rows come from the inventory, its
      tags resolve to its manifests, its links carry its digests and lie in
      repositories where it has a manifest, and each of its digests is a
      manifest's or a descriptor the collector's own walk reads. */
  ghost predicate Planned(g: Graph, inv: Snapshot, group: Group) {
    && (forall t :: t in group.tags ==>
      t in inv.tags && exists m :: m in group.manifests && ManifestTriple(m) == TagTarget(t))
    && (forall m :: m in group.manifests ==> m in inv.manifests)
    && (forall l :: l in group.links ==> l in inv.links && l.digest in group.digests)
    && (forall l :: l in group.links ==>
      exists m :: m in group.manifests && m.alias == l.alias && m.repository == l.repository)
    && (forall d :: d in group.digests && d != "" ==>
      exists m :: m in group.manifests && (d == m.digest || d in ChildSet(g, m)))
  }

  /** Everything the group owned in `before` is still there. */
  ghost predicate Whole(group: Group, before: World, after: World) {
    && (forall t :: t in group.tags ==> t in after.meta.tags)
    && (forall m :: m in group.manifests ==> m in after.meta.manifests)
    && (forall l :: l in group.links ==> l in after.meta.links)
    && (forall d :: d in group.digests && d != "" && d in before.objects ==> d in after.objects)
  }

  lemma UnselectedKept(inv: Snapshot, groups: seq<Group>, s: Selection, cutoff: int, i: nat, g: Graph)
    requires i < |groups| && i !in s.selected && Planned(g, inv, groups[i])
    ensures var k := RetiredKeys(inv, groups, s, cutoff);
      && (forall t :: t in groups[i].tags ==> TagKey(t) !in k.tags)
      && (forall m :: m in groups[i].manifests ==> ManifestKey(m) !in k.manifests)
      && (forall l :: l in groups[i].links ==> LinkKey(l) !in RetiredLinks(groups, s.selected))
  {
    forall t | t in groups[i].tags ensures TagKey(t) in TagKeys(groups, |groups|, s.selected, false) {
    }
    forall m | m in groups[i].manifests ensures ManifestKey(m) in ManifestKeys(groups, |groups|, s.selected, false) {
    }
    forall l | l in groups[i].links ensures LinkKey(l) in LinkKeys(groups, |groups|, s.selected, false) {
    }
  }

  /** The orphan sweep of links cannot take a retained group's link: the
      repository still has the group's manifest. */
  lemma UnselectedLinksKept(inv: Snapshot, groups: seq<Group>, s: Selection, cutoff: int, i: nat, g: Graph, l: Link)
    requires ValidSnapshot(inv) && i < |groups| && i !in s.selected && Planned(g, inv, groups[i]) &&
      l in groups[i].links
    ensures LinkKey(l) !in RetiredKeys(inv, groups, s, cutoff).links
  {
    UnselectedKept(inv, groups, s, cutoff, i, g);
    var manifests := RetiredManifests(inv, groups, s.selected);
    var kept := KeptRepos(inv.manifests, manifests);
    var m :| m in groups[i].manifests && m.alias == l.alias && m.repository == l.repository;
    assert (m.alias, m.repository) in kept;
    forall q | q in inv.links && LinkKey(q) == LinkKey(l) ensures q == l {
      UniqueRow(inv.links, LinkKey, l, q);
    }
  }

  lemma RetiringWhole(inv: World, groups: seq<Group>, s: Selection, cutoff: int, i: nat, g: Graph, w: World)
    requires ValidSnapshot(inv.meta) && i < |groups| && i !in s.selected && Planned(g, inv.meta, groups[i])
    requires Retiring(inv, RetiredKeys(inv.meta, groups, s, cutoff), w)
    ensures Whole(groups[i], inv, w)
  {
    var k := RetiredKeys(inv.meta, groups, s, cutoff);
    var done :| RetiredSoFar(inv, k, done, w);
    UnselectedKept(inv.meta, groups, s, cutoff, i, g);
    forall l | l in groups[i].links ensures l in w.meta.links {
      UnselectedLinksKept(inv.meta, groups, s, cutoff, i, g, l);
    }
  }

  lemma ChildGuarded(mode: Mode, inv: World, w: World, m: Manifest, d: string)
    requires !mode.prune && ValidSnapshot(w.meta) && w.objects == inv.objects
    requires m in w.meta.manifests && d in ChildSet(GraphOf(mode, inv), m) && d != ""
    ensures d in Guarded(mode, w)
  {
    ManifestsGuarded(mode, w, m);
    TargetsGuarded(mode, w, m);
    assert ReadManifest(w.objects, m) == ReadManifest(inv.objects, m);
    assert ChildSet(GraphOf(mode, w), m) == ChildSet(GraphOf(mode, inv), m);
  }

  lemma TargetsGuarded(mode: Mode, w: World, m: Manifest)
    requires m in w.meta.manifests && m.digest in Guarded(mode, w)
    ensures Targets(GraphOf(mode, w), m) <= Guarded(mode, w)
  {
    var g := GraphOf(mode, w);
    EdgesLink(g);
    ClosureIsLeast(EdgesOf(g), Roots(mode, w.meta));
    assert Targets(g, m) <= Succ(EdgesOf(g), m.digest) <= Guarded(mode, w);
  }

  /** A retained group's digests are protected in the retired world, even those
      that a selected group shares. */
  lemma RetainedGuarded(mode: Mode, inv: World, group: Group, w: World)
    requires !mode.prune && ValidSnapshot(w.meta) && w.objects == inv.objects
    requires Planned(GraphOf(mode, inv), inv.meta, group) && Whole(group, inv, w)
    ensures forall d :: d in group.digests && d != "" ==> d in Guarded(mode, w)
  {
    forall d | d in group.digests && d != "" ensures d in Guarded(mode, w) {
      var m :| m in group.manifests && (d == m.digest || d in ChildSet(GraphOf(mode, inv), m));
      if d == m.digest {
        ManifestsGuarded(mode, w, m);
      } else {
        ChildGuarded(mode, inv, w, m, d);
      }
    }
  }

  lemma IntactWhole(mode: Mode, guarded: set<string>, inv: World, group: Group, start: World, w: World)
    requires !mode.prune && ValidSnapshot(inv.meta) && ValidSnapshot(start.meta) && start.objects == inv.objects
    requires Planned(GraphOf(mode, inv), inv.meta, group) && Whole(group, inv, start)
    requires guarded == Guarded(mode, start) && Intact(mode, guarded, start, w)
    ensures Whole(group, inv, w)
  {
    RetainedGuarded(mode, inv, group, start);
    forall m | m in group.manifests ensures m in w.meta.manifests {
      ManifestsGuarded(mode, start, m);
      assert ManifestDigest(m) in guarded;
    }
    forall t | t in group.tags ensures t in w.meta.tags {
      var m :| m in group.manifests && ManifestTriple(m) == TagTarget(t);
      ManifestsGuarded(mode, start, m);
      assert TagDigest(t) in guarded;
    }
    forall l | l in group.links ensures l in w.meta.links {
      assert LinkDigest(l) in guarded;
    }
  }

  // ---------------------------------------------------------------------------
  // The pass

  predicate ValidPlanOptions(opts: PlanOptions) {
    opts.unusedFor > 0 && opts.maxDeletes >= 0 && opts.maxScan >= 0
  }

  function ContextOf(w: World, scope: Scope, opts: PlanOptions): Context {
    Context(w, w.meta.blobs, scope, opts.now - opts.unusedFor)
  }

  ghost function ChosenFor(w: World, scope: Scope, groups: seq<Group>, opts: PlanOptions): Selection {
    Choose(ContextOf(w, scope, opts), opts, Sort(groups, GroupLess))
  }

  /** A selected package was last used before the retention began, and nothing of it was
      pulled or has changed since. */
  lemma SelectedAreStale(w: World, scope: Scope, groups: seq<Group>, opts: PlanOptions, i: nat)
    requires i in ChosenFor(w, scope, groups, opts).selected
    ensures i < |Sort(groups, GroupLess)|
    ensures 0 < Sort(groups, GroupLess)[i].lastAccessAt < opts.now - opts.unusedFor
    ensures Unchanged(Context(w, w.meta.blobs, scope, opts.now - opts.unusedFor), Sort(groups, GroupLess)[i])
  {
    ChosenStale(ContextOf(w, scope, opts), opts, Sort(groups, GroupLess), i);
  }

  ghost function KeysFor(w: World, scope: Scope, groups: seq<Group>, opts: PlanOptions): Keys {
    RetiredKeys(w.meta, Sort(groups, GroupLess), ChosenFor(w, scope, groups, opts), opts.now - opts.unusedFor)
  }

  function Viewed(w: World, k: Keys): World {
    w.(meta := View(w.meta, k))
  }

  /** Sort, select, add orphans, then collect what to retire. */
  method PlanRetirement(w: World, groups: seq<Group>, opts: PlanOptions, scope: Scope)
    returns (s: Selection, retired: Retired)
    requires ValidSnapshot(w.meta) && FromInventory(w.meta, groups)
    ensures s == ChosenFor(w, scope, groups, opts)
    ensures KeysOf(retired) == KeysFor(w, scope, groups, opts) && Stored(w.meta, retired)
  {
    var sorted, cutoff := Sort(groups, GroupLess), opts.now - opts.unusedFor;
    s := SelectPackages(ContextOf(w, scope, opts), opts, sorted);
    s := AddOrphanCandidates(opts, cutoff, sorted, w.meta.blobs, s);
    SortedFromInventory(w.meta, groups);
    retired := CollectRetired(w.meta, sorted, s, cutoff);
  }

  lemma SortedFromInventory(inv: Snapshot, groups: seq<Group>)
    requires FromInventory(inv, groups)
    ensures FromInventory(inv, Sort(groups, GroupLess))
  {
  }

  method CollectRetired(inv: Snapshot, groups: seq<Group>, s: Selection, cutoff: int) returns (retired: Retired)
    requires FromInventory(inv, groups)
    ensures KeysOf(retired) == RetiredKeys(inv, groups, s, cutoff) && Stored(inv, retired)
  {
    retired := PackageRetirements(inv, groups, s.selected);
    retired := RetireOrphanLinks(inv, s.candidates, cutoff, retired);
  }

  /** Selects and retires. A dry run leaves the stores alone and returns a view;
      a real run returns the stores, which are then equal to that view. The store
      may fail while packages are rechecked, before anything is retired. */
  method ApplyCleanupPlan(store: Store, groups: seq<Group>, opts: PlanOptions, scope: Scope)
    returns (r: Result<(Selection, Store)>, ghost k: Keys)
    requires ValidSnapshot(store.world.meta) && FromInventory(store.world.meta, groups)
    modifies store
    ensures k == KeysFor(old(store.world), scope, groups, opts)
    ensures r.Err? && r.error == Invalid <==> !ValidPlanOptions(opts)
    ensures r.Err? && r.error == Invalid <==> opts.unusedFor <= 0 || opts.maxDeletes < 0 || opts.maxScan < 0
    ensures r.Err? ==> r.error in {Invalid, StoreFailed} && store.world.objects == old(store.world).objects
    ensures !ValidPlanOptions(opts) ==> store.world == old(store.world)
    ensures r.Ok? ==> r.value.0 == ChosenFor(old(store.world), scope, groups, opts)
    ensures r.Ok? ==> r.value.1.world == Viewed(old(store.world), k)
    ensures opts.dryRun ==> store.world == old(store.world) && store.trace == old(store.trace)
    ensures r.Ok? ==> if opts.dryRun then fresh(r.value.1) && r.value.1 != store else r.value.1 == store
    ensures old(store.trace) <= store.trace && AllRetiring(old(store.world), k, store.trace, |old(store.trace)|)
  {
    k := KeysFor(store.world, scope, groups, opts);
    if !ValidPlanOptions(opts) { return Err(Invalid), k; }
    var failed: bool := *;
    if failed { return Err(StoreFailed), k; }
    var s, retired := PlanRetirement(store.world, groups, opts, scope);
    if opts.dryRun {
      var view := new Store(Viewed(store.world, KeysOf(retired)));
      return Ok((s, view)), k;
    }
    var applied := RetirePackageMetadata(store, retired);
    if applied.Err? { return Err(applied.error), k; }
    return Ok((s, store)), k;
  }

  /** Whatever point a pass has reached: no tag dangles that did not before, and
      every retained package is whole. */
  ghost predicate Safe(mode: Mode, inv: World, groups: seq<Group>, s: Selection, w: World) {
    && (TagsResolve(inv) ==> TagsResolve(w))
    && (forall i :: 0 <= i < |groups| && i !in s.selected && Planned(GraphOf(mode, inv), inv.meta, groups[i]) ==>
      Whole(groups[i], inv, w))
  }

  lemma RetiringSafe(mode: Mode, inv: World, groups: seq<Group>, s: Selection, cutoff: int, w: World)
    requires ValidSnapshot(inv.meta) && Retiring(inv, RetiredKeys(inv.meta, groups, s, cutoff), w)
    ensures Safe(mode, inv, groups, s, w)
  {
    if TagsResolve(inv) {
      RetiringResolves(inv, RetiredKeys(inv.meta, groups, s, cutoff), w);
    }
    forall i | 0 <= i < |groups| && i !in s.selected && Planned(GraphOf(mode, inv), inv.meta, groups[i])
      ensures Whole(groups[i], inv, w)
    {
      RetiringWhole(inv, groups, s, cutoff, i, GraphOf(mode, inv), w);
    }
  }

  lemma FullyRetired(inv: World, k: Keys)
    ensures Retiring(inv, k, Viewed(inv, k))
  {
    assert RetiredSoFar(inv, k, k, Viewed(inv, k));
  }

  lemma SweepingSafe(mode: Mode, inv: World, groups: seq<Group>, s: Selection, cutoff: int, guarded: set<string>,
                     start: World, w: World)
    requires !mode.prune && ValidSnapshot(inv.meta)
    requires start == Viewed(inv, RetiredKeys(inv.meta, groups, s, cutoff))
    requires guarded == Guarded(mode, start) && Intact(mode, guarded, start, w)
    ensures Safe(mode, inv, groups, s, w)
  {
    var k := RetiredKeys(inv.meta, groups, s, cutoff);
    FullyRetired(inv, k);
    ViewValid(inv.meta, k);
    RetiringSafe(mode, inv, groups, s, cutoff, start);
    if TagsResolve(inv) {
      IntactResolves(mode, guarded, start, w);
    }
    forall i | 0 <= i < |groups| && i !in s.selected && Planned(GraphOf(mode, inv), inv.meta, groups[i])
      ensures Whole(groups[i], inv, w)
    {
      IntactWhole(mode, guarded, inv, groups[i], start, w);
    }
  }

  ghost predicate AllSafe(mode: Mode, inv: World, groups: seq<Group>, s: Selection, trace: seq<World>, from: nat) {
    forall i :: from <= i < |trace| ==> Safe(mode, inv, groups, s, trace[i])
  }

  lemma TraceSafe(mode: Mode, inv: World, groups: seq<Group>, s: Selection, cutoff: int, guarded: set<string>,
                  start: World, trace: seq<World>, from: nat, mid: nat)
    requires !mode.prune && ValidSnapshot(inv.meta) && from <= mid <= |trace|
    requires start == Viewed(inv, RetiredKeys(inv.meta, groups, s, cutoff)) && guarded == Guarded(mode, start)
    requires AllRetiring(inv, RetiredKeys(inv.meta, groups, s, cutoff), trace[..mid], from)
    requires AllIntact(mode, guarded, start, trace, mid)
    ensures AllSafe(mode, inv, groups, s, trace, from)
  {
    forall i | from <= i < |trace| ensures Safe(mode, inv, groups, s, trace[i]) {
      if i < mid {
        assert trace[..mid][i] == trace[i];
        RetiringSafe(mode, inv, groups, s, cutoff, trace[i]);
      } else {
        SweepingSafe(mode, inv, groups, s, cutoff, guarded, start, trace[i]);
      }
    }
  }

  function SweepOptions(s: Selection, maxBytes: int, targetBytes: int, dryRun: bool): SweepPlan.Options {
    SweepPlan.Options(0, 0, maxBytes, targetBytes, dryRun, Some(s.candidates))
  }

  lemma {:induction false} DryRunPlansAlike(mode: Mode, opts: SweepPlan.Options, dry: bool, guarded: set<string>,
                                            blobs: seq<Blob>, r: SweepPlan.Report)
    ensures SweepPlan.SweepFrom(mode, opts, guarded, blobs, r) ==
      SweepPlan.SweepFrom(mode, opts.(dryRun := dry), guarded, blobs, r)
  {
    if blobs != [] {
      var next :=
        if SweepPlan.IsCandidate(opts, blobs[0]) then SweepPlan.Visit(mode, opts, guarded, blobs[0], r).report else r;
      DryRunPlansAlike(mode, opts, dry, guarded, blobs[1..], next);
    }
  }

  lemma {:induction false} DryRunWeighsAlike(opts: SweepPlan.Options, dry: bool, blobs: seq<Blob>)
    ensures SweepPlan.CandidateBytes(opts, blobs) == SweepPlan.CandidateBytes(opts.(dryRun := dry), blobs)
  {
    if blobs != [] {
      DryRunWeighsAlike(opts, dry, blobs[1..]);
    }
  }

  /** The report that both a dry and a real pass over `w` are measured against. */
  ghost function PassPlan(mode: Mode, w: World, scope: Scope, groups: seq<Group>, opts: PlanOptions, maxBytes: int,
                          targetBytes: int): SweepPlan.Report
  {
    var viewed := Viewed(w, KeysFor(w, scope, groups, opts));
    SweepPlan.SweepAll(mode, SweepOptions(ChosenFor(w, scope, groups, opts), maxBytes, targetBytes, true),
                       Guarded(mode, viewed), viewed.meta.blobs).report
  }

  lemma PlanIgnoresDryRun(mode: Mode, s: Selection, maxBytes: int, targetBytes: int, dry: bool, guarded: set<string>,
                          blobs: seq<Blob>)
    ensures SweepPlan.SweepAll(mode, SweepOptions(s, maxBytes, targetBytes, dry), guarded, blobs) ==
      SweepPlan.SweepAll(mode, SweepOptions(s, maxBytes, targetBytes, true), guarded, blobs)
  {
    var opts := SweepOptions(s, maxBytes, targetBytes, true);
    DryRunWeighsAlike(opts, dry, blobs);
    var start := SweepPlan.InitialReport(opts, blobs);
    DryRunPlansAlike(mode, opts, dry, guarded, SweepPlan.Order(blobs, start.capacityExceeded), start);
  }

  /** What a finished pass did: nothing in a dry run, otherwise it deleted from the
      retired stores exactly the digests it reports. In steady mode the report is the
      plan, exactly in a dry run and up to measured bytes in a real one. */
  ghost predicate PassReports(mode: Mode, inv: World, scope: Scope, groups: seq<Group>, opts: PlanOptions,
                              maxBytes: int, targetBytes: int, after: World, report: SweepPlan.Report)
  {
    var plan := PassPlan(mode, inv, scope, groups, opts, maxBytes, targetBytes);
    var viewed := Viewed(inv, KeysFor(inv, scope, groups, opts));
    && Walkable(mode, viewed)
    && (if opts.dryRun then after == inv
        else Deleted(mode, viewed, after, report.deletedDigests) && Measured(inv.objects, report))
    && (Steady(mode) ==> Agrees(report, plan) && (opts.dryRun ==> report == plan))
  }

  /** What an aborted pass left. Over a graph that cannot be walked no object is gone;
      and unless the context ended or a store operation failed, the stores are exactly
      the retired ones: the rows went before the walk looked at the graph. */
  ghost predicate PassAborts(mode: Mode, inv: World, scope: Scope, groups: seq<Group>, opts: PlanOptions,
                             after: World, error: Fault)
  {
    var viewed := Viewed(inv, KeysFor(inv, scope, groups, opts));
    && (!Walkable(mode, viewed) || !ValidPlanOptions(opts) ==> after.objects == inv.objects)
    && (opts.dryRun || !ValidPlanOptions(opts) ==> after == inv)
    && (Steady(mode) && error !in {Canceled, StoreFailed} && !opts.dryRun && ValidPlanOptions(opts) ==> after == viewed)
  }

  lemma PassFinished(mode: Mode, inv: World, scope: Scope, groups: seq<Group>, opts: PlanOptions,
                     maxBytes: int, targetBytes: int, end: World, report: SweepPlan.Report)
    requires var viewed := Viewed(inv, KeysFor(inv, scope, groups, opts));
      && Walkable(mode, viewed)
      && Completed(mode, SweepOptions(ChosenFor(inv, scope, groups, opts), maxBytes, targetBytes, opts.dryRun),
                   Guarded(mode, viewed), viewed, end, report)
    ensures PassReports(mode, inv, scope, groups, opts, maxBytes, targetBytes, if opts.dryRun then inv else end, report)
  {
    var viewed := Viewed(inv, KeysFor(inv, scope, groups, opts));
    PlanIgnoresDryRun(mode, ChosenFor(inv, scope, groups, opts), maxBytes, targetBytes, opts.dryRun,
                      Guarded(mode, viewed), viewed.meta.blobs);
  }

  lemma SweepFailed(mode: Mode, inv: World, scope: Scope, groups: seq<Group>, opts: PlanOptions, end: World,
                    error: Fault)
    requires ValidPlanOptions(opts)
    requires var viewed := Viewed(inv, KeysFor(inv, scope, groups, opts));
      && (!Walkable(mode, viewed) ==> end == viewed)
      && (Steady(mode) && error !in {Canceled, StoreFailed} ==> end == viewed)
    ensures PassAborts(mode, inv, scope, groups, opts, if opts.dryRun then inv else end, error)
  {
  }

  lemma PlanFailed(mode: Mode, inv: World, scope: Scope, groups: seq<Group>, opts: PlanOptions, end: World,
                   error: Fault)
    requires error in {Invalid, StoreFailed} && (error == Invalid <==> !ValidPlanOptions(opts))
    requires end.objects == inv.objects && (opts.dryRun || !ValidPlanOptions(opts) ==> end == inv)
    ensures PassAborts(mode, inv, scope, groups, opts, end, error)
  {
  }

  /** Sweeps the retired stores, or the view that a dry run made of them. */
  method SweepRetired(metadata: Store, mode: Mode, s: Selection, scope: Scope, groups: seq<Group>, opts: PlanOptions,
                      maxBytes: int, targetBytes: int, ghost inv: World)
    returns (r: Result<SweepPlan.Report>)
    requires ValidSnapshot(metadata.world.meta) && ValidPlanOptions(opts)
    requires s == ChosenFor(inv, scope, groups, opts)
    requires metadata.world == Viewed(inv, KeysFor(inv, scope, groups, opts))
    modifies metadata
    ensures old(metadata.trace) <= metadata.trace
    ensures AllIntact(mode, Guarded(mode, old(metadata.world)), old(metadata.world), metadata.trace,
                      |old(metadata.trace)|)
    ensures r.Ok? ==> PassReports(mode, inv, scope, groups, opts, maxBytes, targetBytes,
                                  if opts.dryRun then inv else metadata.world, r.value)
    ensures r.Err? ==> PassAborts(mode, inv, scope, groups, opts, if opts.dryRun then inv else metadata.world, r.error)
  {
    ghost var guarded;
    r, guarded := Cleanup(metadata, mode, SweepOptions(s, maxBytes, targetBytes, opts.dryRun));
    if r.Ok? {
      PassFinished(mode, inv, scope, groups, opts, maxBytes, targetBytes, metadata.world, r.value);
    } else {
      SweepFailed(mode, inv, scope, groups, opts, metadata.world, r.error);
    }
  }

  /** The whole pass. Every world it writes is safe. */
  method RunPackageCleanup(store: Store, mode: Mode, groups: seq<Group>, opts: PlanOptions, scope: Scope, maxBytes: int,
                           targetBytes: int)
    returns (r: Result<SweepPlan.Report>, ghost s: Selection)
    requires ValidSnapshot(store.world.meta) && FromInventory(store.world.meta, groups)
    requires !mode.prune && mode.cutoff == opts.now - opts.unusedFor
    modifies store
    ensures s == ChosenFor(old(store.world), scope, groups, opts)
    ensures old(store.trace) <= store.trace
    ensures AllSafe(mode, old(store.world), Sort(groups, GroupLess), s, store.trace, |old(store.trace)|)
    ensures opts.dryRun ==> store.world == old(store.world) && store.trace == old(store.trace)
    ensures r.Ok? ==>
      PassReports(mode, old(store.world), scope, groups, opts, maxBytes, targetBytes, store.world, r.value)
    ensures r.Err? ==> PassAborts(mode, old(store.world), scope, groups, opts, store.world, r.error)
  {
    ghost var inv, base := store.world, store.trace;
    s := ChosenFor(store.world, scope, groups, opts);
    var applied; ghost var k;
    applied, k := ApplyCleanupPlan(store, groups, opts, scope);
    ghost var retiring := store.trace;
    if applied.Err? {
      ErrorSafe(mode, inv, Sort(groups, GroupLess), s, mode.cutoff, store.trace, |base|);
      PlanFailed(mode, inv, scope, groups, opts, store.world, applied.error);
      return Err(applied.error), s;
    }
    var (chosen, metadata) := applied.value;
    ViewValid(inv.meta, k);
    r := SweepRetired(metadata, mode, chosen, scope, groups, opts, maxBytes, targetBytes, inv);
    if !opts.dryRun {
      SweptSafe(mode, inv, Sort(groups, GroupLess), s, mode.cutoff, k, retiring, store.trace, |base|);
    }
  }

  lemma SweptSafe(mode: Mode, inv: World, groups: seq<Group>, s: Selection, cutoff: int, k: Keys,
                  retiring: seq<World>, trace: seq<World>, from: nat)
    requires !mode.prune && ValidSnapshot(inv.meta) && from <= |retiring| && retiring <= trace
    requires k == RetiredKeys(inv.meta, groups, s, cutoff) && AllRetiring(inv, k, retiring, from)
    requires AllIntact(mode, Guarded(mode, Viewed(inv, k)), Viewed(inv, k), trace, |retiring|)
    ensures AllSafe(mode, inv, groups, s, trace, from)
  {
    assert trace[..|retiring|] == retiring;
    TraceSafe(mode, inv, groups, s, cutoff, Guarded(mode, Viewed(inv, k)), Viewed(inv, k), trace, from, |retiring|);
  }

  lemma ErrorSafe(mode: Mode, inv: World, groups: seq<Group>, s: Selection, cutoff: int, trace: seq<World>, from: nat)
    requires ValidSnapshot(inv.meta) && AllRetiring(inv, RetiredKeys(inv.meta, groups, s, cutoff), trace, from)
    ensures AllSafe(mode, inv, groups, s, trace, from)
  {
    forall i | from <= i < |trace| ensures Safe(mode, inv, groups, s, trace[i]) {
      RetiringSafe(mode, inv, groups, s, cutoff, trace[i]);
    }
  }

  /** A dry run and then a real run on the same stores. The dry run's report names
      exactly what the real run then deletes, in the same order, with the same
      counters and the same bytes left. */
  method DryRunThenRun(store: Store, mode: Mode, groups: seq<Group>, opts: PlanOptions, scope: Scope, maxBytes: int,
                       targetBytes: int)
    returns (dry: Result<SweepPlan.Report>, actual: Result<SweepPlan.Report>)
    requires ValidSnapshot(store.world.meta) && FromInventory(store.world.meta, groups)
    requires !mode.prune && mode.cutoff == opts.now - opts.unusedFor
    modifies store
    ensures dry.Ok? && actual.Ok? && Steady(mode) ==>
      && Agrees(actual.value, dry.value)
      && actual.value.deletedDigests == dry.value.deletedDigests && actual.value.bytesAfter == dry.value.bytesAfter
      && Deleted(mode, Viewed(old(store.world), KeysFor(old(store.world), scope, groups, opts)), store.world,
                 dry.value.deletedDigests)
  {
    ghost var inv := store.world;
    ghost var s;
    dry, s := RunPackageCleanup(store, mode, groups, opts.(dryRun := true), scope, maxBytes, targetBytes);
    actual, s := RunPackageCleanup(store, mode, groups, opts.(dryRun := false), scope, maxBytes, targetBytes);
    if dry.Ok? && actual.Ok? && Steady(mode) {
      ReportsAgree(mode, inv, scope, groups, opts, maxBytes, targetBytes, store.world, dry.value, actual.value);
    }
  }

  lemma ReportsAgree(mode: Mode, inv: World, scope: Scope, groups: seq<Group>, opts: PlanOptions, maxBytes: int,
                     targetBytes: int, after: World, dry: SweepPlan.Report, actual: SweepPlan.Report)
    requires Steady(mode)
    requires PassReports(mode, inv, scope, groups, opts.(dryRun := true), maxBytes, targetBytes, inv, dry)
    requires PassReports(mode, inv, scope, groups, opts.(dryRun := false), maxBytes, targetBytes, after, actual)
    ensures Agrees(actual, dry)
    ensures Deleted(mode, Viewed(inv, KeysFor(inv, scope, groups, opts)), after, dry.deletedDigests)
  {
    PassPlanIgnoresDryRun(mode, inv, scope, groups, opts, maxBytes, targetBytes);
    KeysIgnoreDryRun(inv, scope, groups, opts);
    assert opts == opts.(dryRun := true) || opts == opts.(dryRun := false);
  }

  /** Without a byte limit a pass plans to delete exactly the candidates that the
      retired metadata does not protect and whose blob is stale. */
  lemma PassDeletesExactly(mode: Mode, w: World, scope: Scope, groups: seq<Group>, opts: PlanOptions, targetBytes: int,
                           d: string)
    requires !mode.prune
    ensures d in PassPlan(mode, w, scope, groups, opts, 0, targetBytes).deletedDigests <==>
      PassTakes(mode, w, scope, groups, opts, d)
  {
    var viewed := Viewed(w, KeysFor(w, scope, groups, opts));
    var sweep := SweepOptions(ChosenFor(w, scope, groups, opts), 0, targetBytes, true);
    var guarded, blobs := Guarded(mode, viewed), viewed.meta.blobs;
    var start := SweepPlan.InitialReport(sweep, blobs);
    SweepPlan.SweepDeletesExactly(mode, sweep, guarded, SweepPlan.Order(blobs, false), start);
    TakesIff(mode, sweep, guarded, blobs, SweepPlan.Order(blobs, false), d);
  }

  ghost predicate AllTaken(blobs: seq<Blob>, candidates: set<string>, guarded: set<string>, gone: seq<string>) {
    forall b :: b in blobs && b.digest in candidates && b.digest !in guarded ==> b.digest in gone
  }

  /** With a byte limit that the candidates outweigh, a pass plans to get down to its
      target, or to the limit without one, or deletes every unprotected candidate. */
  lemma PassMeetsTarget(mode: Mode, w: World, scope: Scope, groups: seq<Group>, opts: PlanOptions, maxBytes: int,
                        targetBytes: int)
    requires !mode.prune
    requires var candidates := ChosenFor(w, scope, groups, opts).candidates;
      0 < maxBytes < SweepPlan.CandidateBytes(
        SweepPlan.Options(0, 0, maxBytes, targetBytes, true, Some(candidates)), w.meta.blobs)
    ensures var plan := PassPlan(mode, w, scope, groups, opts, maxBytes, targetBytes);
      || plan.bytesAfter <= (if targetBytes > 0 then targetBytes else maxBytes)
      || AllTaken(w.meta.blobs, ChosenFor(w, scope, groups, opts).candidates,
                  Guarded(mode, Viewed(w, KeysFor(w, scope, groups, opts))), plan.deletedDigests)
  {
    var viewed := Viewed(w, KeysFor(w, scope, groups, opts));
    var sweep := SweepOptions(ChosenFor(w, scope, groups, opts), maxBytes, targetBytes, true);
    var guarded, blobs := Guarded(mode, viewed), w.meta.blobs;
    var start := SweepPlan.InitialReport(sweep, blobs);
    SweepPlan.SweepWithinLimits(mode, sweep, guarded, SweepPlan.Order(blobs, start.capacityExceeded), start);
    SweepPlan.CapacitySweepMeetsTarget(mode, sweep, guarded, blobs);
  }

  lemma TakesIff(mode: Mode, opts: SweepPlan.Options, guarded: set<string>, blobs: seq<Blob>, ordered: seq<Blob>,
                 d: string)
    requires !mode.prune && opts.candidates.Some? && forall b :: b in ordered <==> b in blobs
    ensures (exists b :: b in ordered && b.digest == d && SweepPlan.IsCandidate(opts, b) &&
               SweepPlan.Classify(mode, guarded, b) == SweepPlan.Eligible) <==>
      d in opts.candidates.value && d !in guarded && StaleBlob(mode, blobs, d)
  {
    forall b: Blob | b.digest == d
      ensures SweepPlan.IsCandidate(opts, b) && SweepPlan.Classify(mode, guarded, b) == SweepPlan.Eligible <==>
        d in opts.candidates.value && d !in guarded && 0 < b.lastAccessAt < mode.cutoff
    {
    }
    if StaleBlob(mode, blobs, d) {
      var b :| b in blobs && b.digest == d && 0 < b.lastAccessAt < mode.cutoff;
      assert b in ordered;
    }
  }

  ghost predicate StaleBlob(mode: Mode, blobs: seq<Blob>, d: string) {
    exists b :: b in blobs && b.digest == d && 0 < b.lastAccessAt < mode.cutoff
  }

  ghost predicate PassTakes(mode: Mode, w: World, scope: Scope, groups: seq<Group>, opts: PlanOptions, d: string) {
    && d in ChosenFor(w, scope, groups, opts).candidates
    && d !in Guarded(mode, Viewed(w, KeysFor(w, scope, groups, opts)))
    && StaleBlob(mode, w.meta.blobs, d)
  }

  /** So an object is gone after a finished real pass exactly under that condition,
      whichever group owns it. */
  lemma ObjectLostIff(mode: Mode, inv: World, scope: Scope, groups: seq<Group>, opts: PlanOptions, targetBytes: int,
                      after: World, report: SweepPlan.Report, d: string)
    requires !mode.prune && Steady(mode) && !opts.dryRun && d in inv.objects
    requires PassReports(mode, inv, scope, groups, opts, 0, targetBytes, after, report)
    ensures d !in after.objects <==> PassTakes(mode, inv, scope, groups, opts, d)
  {
    PassDeletesExactly(mode, inv, scope, groups, opts, targetBytes, d);
    assert report.deletedDigests == PassPlan(mode, inv, scope, groups, opts, 0, targetBytes).deletedDigests;
  }

  /** So a package that the pass did not select loses an object exactly when a selected
      package shares it, nothing protects it and its blob is stale. */
  lemma RetainedLosesIff(mode: Mode, inv: World, scope: Scope, groups: seq<Group>, opts: PlanOptions, targetBytes: int,
                         after: World, report: SweepPlan.Report, g: Group, d: string)
    requires !mode.prune && Steady(mode) && !opts.dryRun
    requires PassReports(mode, inv, scope, groups, opts, 0, targetBytes, after, report)
    requires g in groups && d in g.digests && d != "" && d in inv.objects
    ensures d !in after.objects <==>
      && Evicted(Sort(groups, GroupLess), ChosenFor(inv, scope, groups, opts).selected, d)
      && d !in Guarded(mode, Viewed(inv, KeysFor(inv, scope, groups, opts)))
      && StaleBlob(mode, inv.meta.blobs, d)
  {
    ObjectLostIff(mode, inv, scope, groups, opts, targetBytes, after, report, d);
    OwnedCandidateIff(ContextOf(inv, scope, opts), opts, Sort(groups, GroupLess), d);
  }

  lemma ChosenIgnoresDryRun(w: World, scope: Scope, groups: seq<Group>, opts: PlanOptions)
    ensures ChosenFor(w, scope, groups, opts.(dryRun := true)) == ChosenFor(w, scope, groups, opts.(dryRun := false))
  {
    var c := ContextOf(w, scope, opts);
    assert ContextOf(w, scope, opts.(dryRun := true)) == c == ContextOf(w, scope, opts.(dryRun := false));
    ChoiceIgnoresDryRun(c, opts, Sort(groups, GroupLess));
  }

  lemma KeysIgnoreDryRun(w: World, scope: Scope, groups: seq<Group>, opts: PlanOptions)
    ensures KeysFor(w, scope, groups, opts.(dryRun := true)) == KeysFor(w, scope, groups, opts.(dryRun := false))
  {
    ChosenIgnoresDryRun(w, scope, groups, opts);
  }

  lemma PassPlanIgnoresDryRun(mode: Mode, w: World, scope: Scope, groups: seq<Group>, opts: PlanOptions, maxBytes: int,
                              targetBytes: int)
    ensures PassPlan(mode, w, scope, groups, opts.(dryRun := true), maxBytes, targetBytes) ==
      PassPlan(mode, w, scope, groups, opts.(dryRun := false), maxBytes, targetBytes)
  {
    ChosenIgnoresDryRun(w, scope, groups, opts);
    KeysIgnoreDryRun(w, scope, groups, opts);
  }

  lemma ChoiceIgnoresDryRun(c: Context, opts: PlanOptions, groups: seq<Group>)
    ensures Choose(c, opts.(dryRun := true), groups) == Choose(c, opts.(dryRun := false), groups)
  {
    var dry, actual := opts.(dryRun := true), opts.(dryRun := false);
    SelectionIgnoresDryRun(c, dry, actual, groups, 0, NOTHING_SELECTED);
    OrphansIgnoreDryRun(dry, actual, c.cutoff, OwnedDigests(groups), c.inventory,
                        SelectFrom(c, actual, groups, 0, NOTHING_SELECTED));
  }

  lemma {:induction false} SelectionIgnoresDryRun(c: Context, dry: PlanOptions, actual: PlanOptions, groups: seq<Group>,
                                                  i: nat, s: Selection)
    requires i <= |groups| && dry == actual.(dryRun := true)
    ensures SelectFrom(c, dry, groups, i, s) == SelectFrom(c, actual, groups, i, s)
    decreases |groups| - i
  {
    if i < |groups| {
      SelectionIgnoresDryRun(c, dry, actual, groups, i + 1, SelectGroup(c, actual.maxDeletes, groups[i], i, s));
    }
  }

  lemma {:induction false} OrphansIgnoreDryRun(dry: PlanOptions, actual: PlanOptions, cutoff: int, owned: set<string>,
                                               blobs: seq<Blob>, s: Selection)
    requires dry == actual.(dryRun := true)
    ensures AddOrphans(dry, cutoff, owned, blobs, s) == AddOrphans(actual, cutoff, owned, blobs, s)
  {
    if blobs != [] {
      OrphansIgnoreDryRun(dry, actual, cutoff, owned, blobs[1..], s);
      OrphansIgnoreDryRun(dry, actual, cutoff, owned, blobs[1..],
                          s.(scanned := s.scanned + 1, candidates := s.candidates + {blobs[0].digest}));
    }
  }
}
