/** How a retained image can lose a layer. The planner reads untyped manifest rows of
    every size, the collector's walk only those up to 4 MiB and above size 0. */
module ContainerLoss {
  import opened Records
  import opened Reachability
  import opened GraphWalk
  import opened References
  import opened PackagePlan
  import opened PackageApply
  import opened PackagePass
  import opened Sorting
  import opened ContainerGraph
  import opened ContainerPlan
  import SweepPlan

  /** Where the two readings differ, the row of an image does not protect a descriptor
      that the planner counts into the image. */
  lemma UntypedChildUnprotected(p: Planner, mode: Mode, w: World, m: Manifest, d: string)
    requires mode.env == p.env && w.objects == p.objects && !mode.prune && w.meta.manifests == [m]
    requires m.mediaType == "" && !NeedsTraversal(p.env, m)
    requires d in RefSet(p, m) && d != m.digest && d != m.objectKey
    ensures d !in Guarded(mode, w)
  {
    var g := GraphOf(mode, w);
    var kept := {m.digest, m.objectKey} - {""};
    EdgesLink(g);
    forall x, t | t in Succ(EdgesOf(g), x) ensures t in kept {
      var row :| row in g.rows && row.digest == x && t in Targets(g, row);
    }
    assert Encloses(EdgesOf(g), Roots(mode, w.meta), kept);
    ClosureIsLeast(EdgesOf(g), Roots(mode, w.meta));
  }

  // An inventory in which it happens: a recent untyped row of unknown size and a stale
  // typed row of the same repository, both naming the layer `d`.

  const ENV :=
    Env((mediaType: string) => mediaType == "oci", (mediaType: string, body: string) => Parsed.References(["d"]))
  const OBJECTS: Objects := map["k" := "body", "s" := "body", "d" := "layer"]
  const PLANNER := Planner(ENV, (m: Manifest) => true, (digest: string) => digest != "", OBJECTS)

  const KEPT := Manifest("h", "r", "new", "", "k", "", 0, "", 900, 900)
  const STALE := Manifest("h", "r", "old", "", "s", "oci", 1, "", 100, 100)
  const KEPT_BLOB := Blob("k", 4, "", 100, 100, 100)
  const STALE_BLOB := Blob("s", 4, "", 100, 100, 100)
  const LAYER_BLOB := Blob("d", 5, "", 100, 100, 100)

  const INVENTORY := Snapshot([KEPT, STALE], [], [KEPT_BLOB, STALE_BLOB, LAYER_BLOB], [], [])
  const WORLD := World(INVENTORY, OBJECTS)

  /** The group that the planner makes of a row. */
  function ImageOf(u: Manifest): Group {
    Group("container", u.alias, u.repository + "@" + u.digest, u.updatedAt, [u], [], [], [u.digest, "d"])
  }

  const STALE_IMAGE := ImageOf(STALE)
  const KEPT_IMAGE := ImageOf(KEPT)
  const IMAGES := [STALE_IMAGE, KEPT_IMAGE]

  const MODE := Mode(ENV, Limits(100, 1000), 500, false, {})
  const OPTIONS := PlanOptions(1000, 500, 0, 0, false)
  const SCOPE: Scope := (ecosystem: string, alias: string) => alias

  lemma InventoryValid()
    ensures ValidSnapshot(INVENTORY)
  {
    assert ManifestKey(KEPT) == "h/r@k" && ManifestKey(STALE) == "h/r@s";
  }

  lemma Rows(m: Manifest, root: Triple, d: string)
    ensures m in INVENTORY.manifests <==> m == KEPT || m == STALE
    ensures m in INVENTORY.manifests ==> RefSet(PLANNER, m) == {"d"} && OCIReferences(PLANNER, m).Ok?
  {
  }

  lemma ImageReach(u: Manifest)
    requires u in INVENTORY.manifests
    ensures DescriptorReach(PLANNER, INVENTORY, ManifestTriple(u)) == {u.digest, "d"}
  {
    var root := ManifestTriple(u);
    Rows(u, root, u.digest);
    RootReached(PLANNER, INVENTORY, root);
    OwnRow(PLANNER, INVENTORY, u);
    ChildReached(PLANNER, INVENTORY, root, u, "d");
    forall d, m, c | d in {u.digest, "d"} && RowAt(PLANNER, INVENTORY, root, d, m) && c in RefSet(PLANNER, m)
      ensures c in {u.digest, "d"}
    {
      Rows(m, root, d);
    }
    ReachInduction(PLANNER, INVENTORY, root, {u.digest, "d"});
  }

  lemma NoTags(root: Triple, m: Manifest)
    ensures !TaggedRoot(PLANNER, INVENTORY, root) && !TaggedOwned(PLANNER, INVENTORY, m)
  {
  }

  lemma BothLoose(u: Manifest)
    requires u in INVENTORY.manifests
    ensures LooseRow(PLANNER, INVENTORY, u)
  {
    NoTags(ManifestTriple(u), u);
    forall q | Unowned(PLANNER, INVENTORY, q) ensures u.digest !in RefSet(PLANNER, q) {
      Rows(q, ManifestTriple(u), u.digest);
    }
  }

  lemma HeldRows(u: Manifest, m: Manifest)
    requires u in INVENTORY.manifests
    ensures Holds(PLANNER, INVENTORY, ManifestTriple(u), m) <==> m == u
  {
    ImageReach(u);
    Rows(m, ManifestTriple(u), m.digest);
    OwnRow(PLANNER, INVENTORY, u);
  }

  lemma OwnTime(u: Manifest)
    requires u in INVENTORY.manifests
    ensures Newest(u.updatedAt, (t: Time) => StandaloneTime(PLANNER, INVENTORY, u, t))
  {
    var root := ManifestTriple(u);
    assert RowAt(PLANNER, INVENTORY, root, u.digest, u);
    assert RowCounts(PLANNER, INVENTORY, root, u.updatedAt);
    forall t: Time | StandaloneTime(PLANNER, INVENTORY, u, t) ensures t <= u.updatedAt {
      var m :| RowAt(PLANNER, INVENTORY, root, root.name, m) && t in {m.updatedAt, m.createdAt};
      Rows(m, root, root.name);
    }
  }

  lemma ImageDepicts(u: Manifest)
    requires u in INVENTORY.manifests
    ensures Depicts(PLANNER, INVENTORY, ManifestTriple(u), ImageOf(u))
  {
    ImageReach(u);
    Rows(u, ManifestTriple(u), u.digest);
    forall m ensures m in [u] <==> Holds(PLANNER, INVENTORY, ManifestTriple(u), m) {
      HeldRows(u, m);
    }
  }

  lemma IsImage(u: Manifest)
    requires u in INVENTORY.manifests
    ensures IsLooseImage(PLANNER, INVENTORY, u, ImageOf(u))
  {
    BothLoose(u);
    OwnTime(u);
    ImageDepicts(u);
  }

  lemma ImagesDiffer()
    ensures UniqueKeys(IMAGES, GroupKey)
  {
    assert GroupKey(STALE_IMAGE) == "h/r@s" && GroupKey(KEPT_IMAGE) == "h/r@k";
  }

  /** The inventory is valid and the two groups are a plan of it. */
  lemma ImagesArePlanned()
    ensures ValidSnapshot(INVENTORY) && IsPlan(PLANNER, INVENTORY, IMAGES)
  {
    InventoryValid();
    IsImage(STALE);
    IsImage(KEPT);
    ImagesDiffer();
    forall root ensures !TaggedRoot(PLANNER, INVENTORY, root) {
      NoTags(root, KEPT);
    }
    forall m ensures InSomeGroup(IMAGES, m) <==> Rooted(PLANNER, INVENTORY, m) {
      RootedRows(m);
      assert STALE_IMAGE in IMAGES && KEPT_IMAGE in IMAGES;
    }
  }

  lemma RootedRows(m: Manifest)
    ensures Rooted(PLANNER, INVENTORY, m) <==> m == KEPT || m == STALE
  {
    if m in INVENTORY.manifests {
      BothLoose(m);
      OwnRow(PLANNER, INVENTORY, m);
    }
    NoTags(ManifestTriple(m), m);
  }

  lemma ImagesSorted()
    ensures Sort(IMAGES, GroupLess) == IMAGES
  {
    assert Sort([KEPT_IMAGE], GroupLess) == [KEPT_IMAGE];
    assert IMAGES[1..] == [KEPT_IMAGE];
  }

  lemma StaleUnchanged(c: Context)
    requires c == ContextOf(WORLD, SCOPE, OPTIONS)
    ensures Unchanged(c, STALE_IMAGE)
  {
    InventoryValid();
    FindsRow(INVENTORY.manifests, ManifestKey, STALE);
    FindsRow(INVENTORY.blobs, BlobKey, STALE_BLOB);
    FindsRow(INVENTORY.blobs, BlobKey, LAYER_BLOB);
    forall k ensures !PullIsRecent(c, k) {
    }
  }

  lemma FirstSelected(c: Context, s: PackagePlan.Selection)
    requires OnlyStale(c, IMAGES, s) && Covered(IMAGES, s.selected, s.candidates)
    requires 0 in s.selected && 1 !in s.selected
    ensures s.selected == {0} && "d" in s.candidates
  {
    assert forall i: nat :: i in s.selected ==> i < 2;
    assert IMAGES[0] == STALE_IMAGE && "d" in STALE_IMAGE.digests;
    assert "d" in Digests(STALE_IMAGE);
  }

  /** Only the stale image is selected, and the layer becomes a candidate. */
  lemma StaleSelected()
    ensures ChosenFor(WORLD, SCOPE, IMAGES, OPTIONS).selected == {0}
    ensures "d" in ChosenFor(WORLD, SCOPE, IMAGES, OPTIONS).candidates
  {
    var c := ContextOf(WORLD, SCOPE, OPTIONS);
    var s := SelectFrom(c, OPTIONS, IMAGES, 0, NOTHING_SELECTED);
    ImagesSorted();
    StaleUnchanged(c);
    SelectedIff(c, OPTIONS, IMAGES, 0);
    SelectedIff(c, OPTIONS, IMAGES, 1);
    SelectFromSound(c, OPTIONS, IMAGES, 0, NOTHING_SELECTED);
    FirstSelected(c, s);
    OrphansWithinBudget(OPTIONS, c.cutoff, OwnedDigests(IMAGES), c.inventory, s);
  }

  lemma StaleRetired()
    ensures var k := RetiredManifests(INVENTORY, IMAGES, {0}); ManifestKey(STALE) in k && ManifestKey(KEPT) !in k
  {
    assert ManifestKey(KEPT) == "h/r@k" && ManifestKey(STALE) == "h/r@s";
    assert IMAGES[0] == STALE_IMAGE && IMAGES[1] == KEPT_IMAGE;
  }

  lemma KeptLeft(k: set<string>)
    requires ManifestKey(STALE) in k && ManifestKey(KEPT) !in k
    ensures Except([KEPT, STALE], ManifestKey, k) == [KEPT]
  {
    assert [KEPT, STALE][1..] == [STALE];
    assert Except([STALE], ManifestKey, k) == [];
  }

  /** Retiring the stale image leaves the kept image's row alone. */
  lemma Retirement()
    ensures Viewed(WORLD, KeysFor(WORLD, SCOPE, IMAGES, OPTIONS)).meta.manifests == [KEPT]
  {
    StaleSelected();
    ImagesSorted();
    StaleRetired();
    KeptLeft(RetiredManifests(INVENTORY, IMAGES, {0}));
  }

  lemma LayerTaken()
    ensures PassTakes(MODE, WORLD, SCOPE, IMAGES, OPTIONS, "d")
    ensures "d" in PassPlan(MODE, WORLD, SCOPE, IMAGES, OPTIONS, 0, 0).deletedDigests
  {
    PassDeletesExactly(MODE, WORLD, SCOPE, IMAGES, OPTIONS, 0, "d");
    StaleSelected();
    Retirement();
    Rows(KEPT, ManifestTriple(KEPT), "k");
    UntypedChildUnprotected(PLANNER, MODE, Viewed(WORLD, KeysFor(WORLD, SCOPE, IMAGES, OPTIONS)), KEPT, "d");
    assert LAYER_BLOB in WORLD.meta.blobs;
  }

  /** After any finished pass over that inventory the layer is gone. */
  lemma LayerLost(after: World, report: SweepPlan.Report)
    ensures PassReports(MODE, WORLD, SCOPE, IMAGES, OPTIONS, 0, 0, after, report) ==> "d" !in after.objects
  {
    if PassReports(MODE, WORLD, SCOPE, IMAGES, OPTIONS, 0, 0, after, report) {
      LayerTaken();
      ObjectLostIff(MODE, WORLD, SCOPE, IMAGES, OPTIONS, 0, after, report, "d");
    }
  }

  /** The pass deletes the layer `d` of an image that it does not select: a stale image
      shares the layer, and the kept image's row does not protect it. */
  lemma RetainedImageLosesLayer()
    ensures Sort(IMAGES, GroupLess) == IMAGES && "d" in IMAGES[1].digests && "d" in WORLD.objects
    ensures 1 !in ChosenFor(WORLD, SCOPE, IMAGES, OPTIONS).selected
    ensures PassTakes(MODE, WORLD, SCOPE, IMAGES, OPTIONS, "d")
    ensures "d" in PassPlan(MODE, WORLD, SCOPE, IMAGES, OPTIONS, 0, 0).deletedDigests
  {
    ImagesSorted();
    StaleSelected();
    LayerTaken();
  }
}
