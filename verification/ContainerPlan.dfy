/** The container ecosystem's cleanup planner: one group per tagged image and one
    per untagged root, each with its complete descriptor graph. */
module ContainerPlan {
  import opened Records
  import opened GraphWalk
  import opened References
  import opened PackagePlan
  import opened PackageApply
  import opened PackagePass
  import opened Sorting
  import opened ContainerGraph

  // ---------------------------------------------------------------------------
  // Roots

  ghost predicate TaggedRoot(p: Planner, inv: Snapshot, root: Triple) {
    exists t :: TagsImage(p, inv, root, t)
  }

  /** Some tagged image has the row. */
  ghost predicate TaggedOwned(p: Planner, inv: Snapshot, m: Manifest) {
    exists root :: TaggedRoot(p, inv, root) && Holds(p, inv, root, m)
  }

  ghost predicate Unowned(p: Planner, inv: Snapshot, m: Manifest) {
    m in inv.manifests && p.container(m) && !TaggedOwned(p, inv, m)
  }

  /** An unowned row whose digest no unowned row references. */
  ghost predicate LooseRow(p: Planner, inv: Snapshot, m: Manifest) {
    Unowned(p, inv, m) && forall q :: Unowned(p, inv, q) ==> m.digest !in RefSet(p, q)
  }

  /** The image of a tagged root or of a loose row has the row. */
  ghost predicate Rooted(p: Planner, inv: Snapshot, m: Manifest) {
    TaggedOwned(p, inv, m) || exists u :: LooseRow(p, inv, u) && Holds(p, inv, ManifestTriple(u), m)
  }

  // ---------------------------------------------------------------------------
  // Groups

  /** The group has the complete image of a root: exactly the reachable digests,
      each once, exactly the rows at them, and its own repository's links. */
  ghost predicate Depicts(p: Planner, inv: Snapshot, root: Triple, g: Group) {
    && g.ecosystem == "container" && g.alias == root.alias && g.package == root.repository + "@" + root.name
    && NoRepeats(g.digests) && (forall d :: d in g.digests <==> d in DescriptorReach(p, inv, root))
    && (forall m :: m in g.manifests <==> Holds(p, inv, root, m))
    && (forall m :: m in g.manifests ==> OCIReferences(p, m).Ok?)
    && (forall l :: l in g.links <==>
          l in inv.links && l.alias == root.alias && l.repository == root.repository && l.digest in g.digests)
  }

  ghost predicate IsTaggedImage(p: Planner, inv: Snapshot, root: Triple, g: Group) {
    && TaggedRoot(p, inv, root) && Depicts(p, inv, root, g)
    && (forall t :: t in g.tags <==> TagsImage(p, inv, root, t))
    && Newest(g.lastAccessAt, (t: Time) => TaggedTime(p, inv, root, t))
  }

  ghost predicate IsLooseImage(p: Planner, inv: Snapshot, u: Manifest, g: Group) {
    && LooseRow(p, inv, u) && Depicts(p, inv, ManifestTriple(u), g) && g.tags == []
    && Newest(g.lastAccessAt, (t: Time) => StandaloneTime(p, inv, u, t))
  }

  function ImageGroup(x: Index, root: Triple, tags: seq<Tag>, image: Image, activity: Time): Group {
    Group("container", root.alias, root.repository + "@" + root.name, activity,
          image.manifests, tags, LinksForImage(x.links, root, image.digests), image.digests)
  }

  function KeysOfRows(rows: seq<Manifest>): set<string> {
    set m | m in rows :: ManifestKey(m)
  }

  ghost function OwnedKeys(groups: seq<Group>): set<string> {
    set g, m | g in groups && m in g.manifests :: ManifestKey(m)
  }

  lemma OwnedOneMore(groups: seq<Group>, g: Group)
    ensures OwnedKeys(groups + [g]) == OwnedKeys(groups) + KeysOfRows(g.manifests)
  {
  }

  /** Some container row cannot be read. */
  ghost predicate AnyDefective(p: Planner, inv: Snapshot) {
    exists m :: m in inv.manifests && p.container(m) && Defective(p, m)
  }

  lemma FailsOnDefective(p: Planner, inv: Snapshot, m: Manifest)
    requires m in inv.manifests && p.container(m) && OCIReferences(p, m).Err?
    ensures AnyDefective(p, inv)
  {
    OCIReferencesIff(p, m);
  }

  lemma BlockedDefective(p: Planner, inv: Snapshot, root: Triple)
    ensures (exists m :: Blocks(p, inv, root, DescriptorReach(p, inv, root), m)) ==> AnyDefective(p, inv)
  {
    if m :| Blocks(p, inv, root, DescriptorReach(p, inv, root), m) {
      FailsOnDefective(p, inv, m);
    }
  }

  // ---------------------------------------------------------------------------
  // Tagged images

  ghost predicate TaggedBuilt(p: Planner, inv: Snapshot, roots: seq<Triple>, groups: seq<Group>) {
    && |roots| == |groups| && (forall i, j :: 0 <= i < j < |roots| ==> roots[i] != roots[j])
    && forall i :: 0 <= i < |groups| ==> IsTaggedImage(p, inv, roots[i], groups[i])
  }

  method PlanTaggedImage(p: Planner, inv: Snapshot, x: Index, root: Triple) returns (r: Result<Group>)
    requires Indexes(p, inv, x) && root in x.tagsByImage
    ensures r.Ok? ==> IsTaggedImage(p, inv, root, r.value)
    ensures r.Err? && r.error !in {Canceled, StoreFailed} ==> AnyDefective(p, inv)
  {
    assert x.tagsByImage[root][0] in At(x.tagsByImage, root);
    var image := AddImageGraph(p, inv, x, root);
    if image.Err? {
      BlockedDefective(p, inv, root);
      return Err(image.error);
    }
    TaggedActivityIsNewest(p, inv, x, root);
    return Ok(ImageGroup(x, root, At(x.tagsByImage, root), image.value, TaggedActivity(x, inv.pulls, root)));
  }

  /** One group per tagged image and nothing else. */
  method PlanTaggedImages(p: Planner, inv: Snapshot, x: Index) returns (r: Result<seq<Group>>, ghost roots: seq<Triple>)
    requires Indexes(p, inv, x)
    ensures r.Ok? ==> TaggedBuilt(p, inv, roots, r.value) && forall k :: k in roots <==> TaggedRoot(p, inv, k)
    ensures r.Err? && r.error !in {Canceled, StoreFailed} ==> AnyDefective(p, inv)
  {
    var todo, groups := x.tagsByImage.Keys, [];
    roots := [];
    while todo != {}
      invariant todo <= x.tagsByImage.Keys
      invariant forall k :: k in roots <==> k in x.tagsByImage && k !in todo
      invariant TaggedBuilt(p, inv, roots, groups)
    {
      var canceled: bool := *;
      if canceled { return Err(Canceled), roots; }
      var root :| root in todo;
      todo := todo - {root};
      var planned := PlanTaggedImage(p, inv, x, root);
      if planned.Err? { return Err(planned.error), roots; }
      groups, roots := groups + [planned.value], roots + [root];
    }
    TaggedKeys(p, inv, x);
    return Ok(groups), roots;
  }

  lemma TaggedKeys(p: Planner, inv: Snapshot, x: Index)
    requires Indexes(p, inv, x)
    ensures forall k :: k in x.tagsByImage <==> TaggedRoot(p, inv, k)
  {
    forall k ensures k in x.tagsByImage <==> TaggedRoot(p, inv, k) {
      if k in x.tagsByImage {
        assert x.tagsByImage[k][0] in At(x.tagsByImage, k);
      }
      if t :| TagsImage(p, inv, k, t) {
        assert t in At(x.tagsByImage, k);
      }
    }
  }

  method OwnedCleanupManifests(groups: seq<Group>) returns (owned: set<string>)
    ensures owned == OwnedKeys(groups)
  {
    owned := {};
    for i := 0 to |groups|
      invariant owned == OwnedKeys(groups[..i])
    {
      assert groups[..i + 1] == groups[..i] + [groups[i]];
      OwnedOneMore(groups[..i], groups[i]);
      owned := owned + KeysOfRows(groups[i].manifests);
    }
    assert groups[..|groups|] == groups;
  }

  /** The keys say which rows the tagged images have. */
  ghost predicate KeysExact(p: Planner, inv: Snapshot, keys: set<string>) {
    forall m :: m in inv.manifests && p.container(m) ==> (ManifestKey(m) in keys <==> TaggedOwned(p, inv, m))
  }

  lemma TaggedKeysExact(p: Planner, inv: Snapshot, roots: seq<Triple>, groups: seq<Group>)
    requires ValidSnapshot(inv) && TaggedBuilt(p, inv, roots, groups)
    requires forall k :: k in roots <==> TaggedRoot(p, inv, k)
    ensures KeysExact(p, inv, OwnedKeys(groups))
  {
    forall m | m in inv.manifests && p.container(m)
      ensures ManifestKey(m) in OwnedKeys(groups) <==> TaggedOwned(p, inv, m)
    {
      if ManifestKey(m) in OwnedKeys(groups) {
        var g, q :| g in groups && q in g.manifests && ManifestKey(q) == ManifestKey(m);
        var i :| 0 <= i < |groups| && groups[i] == g;
        assert Holds(p, inv, roots[i], q);
        UniqueRow(inv.manifests, ManifestKey, m, q);
        assert TaggedRoot(p, inv, roots[i]);
      }
      if k :| TaggedRoot(p, inv, k) && Holds(p, inv, k, m) {
        var i :| 0 <= i < |roots| && roots[i] == k;
        assert m in groups[i].manifests && groups[i] in groups;
      }
    }
  }

  // ---------------------------------------------------------------------------
  // Untagged images

  /** Every digest that an unowned container row references. */
  ghost predicate ChildDigests(p: Planner, rows: seq<Manifest>, owned: set<string>, children: set<string>) {
    forall d :: d in children <==>
      exists m :: m in rows && p.container(m) && ManifestKey(m) !in owned && d in RefSet(p, m)
  }

  method UntaggedChildDigests(p: Planner, rows: seq<Manifest>, owned: set<string>) returns (r: Result<set<string>>)
    ensures r.Ok? ==> ChildDigests(p, rows, owned, r.value)
    ensures r.Ok? ==> forall m :: m in rows && p.container(m) && ManifestKey(m) !in owned ==> OCIReferences(p, m).Ok?
    ensures r.Err? && r.error != StoreFailed ==> exists m :: m in rows && p.container(m) && OCIReferences(p, m).Err?
  {
    var children: set<string> := {};
    for i := 0 to |rows|
      invariant ChildDigests(p, rows[..i], owned, children)
      invariant forall m :: m in rows[..i] && p.container(m) && ManifestKey(m) !in owned ==> OCIReferences(p, m).Ok?
    {
      assert rows[..i + 1] == rows[..i] + [rows[i]];
      if p.container(rows[i]) && ManifestKey(rows[i]) !in owned {
        var failed: bool := *;
        if failed { return Err(StoreFailed); }
        var refs := OCIReferences(p, rows[i]);
        if refs.Err? {
          assert rows[i] in rows;
          return Err(refs.error);
        }
        children := children + RefSet(p, rows[i]);
      }
    }
    assert rows[..|rows|] == rows;
    return Ok(children);
  }

  /** The planner's two tests find the loose rows. */
  lemma LooseIff(p: Planner, inv: Snapshot, tagged: set<string>, children: set<string>, m: Manifest)
    requires KeysExact(p, inv, tagged) && ChildDigests(p, inv.manifests, tagged, children)
    requires m in inv.manifests && p.container(m)
    ensures LooseRow(p, inv, m) <==> ManifestKey(m) !in tagged && m.digest !in children
  {
    if m.digest in children {
      var q :| q in inv.manifests && p.container(q) && ManifestKey(q) !in tagged && m.digest in RefSet(p, q);
      assert Unowned(p, inv, q);
    } else {
      forall q | Unowned(p, inv, q) ensures m.digest !in RefSet(p, q) {
        assert ManifestKey(q) !in tagged;
      }
    }
  }

  method PlanStandaloneImage(p: Planner, inv: Snapshot, x: Index, m: Manifest) returns (r: Result<Group>)
    requires Indexes(p, inv, x) && LooseRow(p, inv, m)
    ensures r.Ok? ==> IsLooseImage(p, inv, m, r.value) && m in r.value.manifests
    ensures r.Err? && r.error !in {Canceled, StoreFailed} ==> AnyDefective(p, inv)
  {
    var root := ManifestTriple(m);
    var image := AddImageGraph(p, inv, x, root);
    if image.Err? {
      BlockedDefective(p, inv, root);
      return Err(image.error);
    }
    var links := LinksForImage(x.links, root, image.value.digests);
    OwnRow(p, inv, m);
    StandaloneActivityIsNewest(p, inv, x, m, image.value.digests);
    return Ok(ImageGroup(x, root, [], image.value, StandaloneActivity(x, inv.pulls, m, links)));
  }

  lemma OwnRow(p: Planner, inv: Snapshot, m: Manifest)
    requires m in inv.manifests && p.container(m)
    ensures Holds(p, inv, ManifestTriple(m), m)
  {
    RootReached(p, inv, ManifestTriple(m));
  }

  ghost predicate LooseBuilt(p: Planner, inv: Snapshot, picked: seq<Manifest>, groups: seq<Group>) {
    && |picked| == |groups| && UniqueKeys(picked, ManifestKey)
    && forall i :: 0 <= i < |groups| ==> IsLooseImage(p, inv, picked[i], groups[i])
  }

  /** Every loose row among `rows` is in a group. */
  ghost predicate LoosePlaced(p: Planner, inv: Snapshot, rows: seq<Manifest>, groups: seq<Group>) {
    forall m :: m in rows && LooseRow(p, inv, m) ==> ManifestKey(m) in OwnedKeys(groups)
  }

  ghost predicate UntaggedSoFar(p: Planner, inv: Snapshot, rows: seq<Manifest>, tagged: set<string>, owned: set<string>,
                                picked: seq<Manifest>, groups: seq<Group>)
  {
    && LooseBuilt(p, inv, picked, groups) && LoosePlaced(p, inv, rows, groups)
    && owned == tagged + OwnedKeys(groups) && (forall u :: u in picked ==> ManifestKey(u) in owned)
  }

  lemma UntaggedOneMore(p: Planner, inv: Snapshot, rows: seq<Manifest>, tagged: set<string>, owned: set<string>,
                        picked: seq<Manifest>, groups: seq<Group>, m: Manifest, g: Group)
    requires UntaggedSoFar(p, inv, rows, tagged, owned, picked, groups) && ManifestKey(m) !in owned
    requires IsLooseImage(p, inv, m, g) && m in g.manifests
    ensures UntaggedSoFar(p, inv, rows + [m], tagged, owned + KeysOfRows(g.manifests), picked + [m], groups + [g])
  {
    OwnedOneMore(groups, g);
    LooseBuiltMore(p, inv, picked, groups, m, g);
    LoosePlacedMore(p, inv, rows, groups, m, g);
  }

  lemma LooseBuiltMore(p: Planner, inv: Snapshot, picked: seq<Manifest>, groups: seq<Group>, m: Manifest, g: Group)
    requires LooseBuilt(p, inv, picked, groups) && IsLooseImage(p, inv, m, g)
    requires forall u :: u in picked ==> ManifestKey(u) != ManifestKey(m)
    ensures LooseBuilt(p, inv, picked + [m], groups + [g])
  {
  }

  lemma LoosePlacedMore(p: Planner, inv: Snapshot, rows: seq<Manifest>, groups: seq<Group>, m: Manifest, g: Group)
    requires LoosePlaced(p, inv, rows, groups) && m in g.manifests
    ensures LoosePlaced(p, inv, rows + [m], groups + [g])
  {
    OwnedOneMore(groups, g);
  }

  lemma UntaggedSkips(p: Planner, inv: Snapshot, rows: seq<Manifest>, tagged: set<string>, owned: set<string>,
                      picked: seq<Manifest>, groups: seq<Group>, m: Manifest)
    requires UntaggedSoFar(p, inv, rows, tagged, owned, picked, groups)
    requires LooseRow(p, inv, m) ==> ManifestKey(m) in owned && ManifestKey(m) !in tagged
    ensures UntaggedSoFar(p, inv, rows + [m], tagged, owned, picked, groups)
  {
  }

  /** One group per loose row, unless an earlier one already has the row. */
  method PlanUntaggedManifests(p: Planner, inv: Snapshot, x: Index, tagged: set<string>)
    returns (r: Result<seq<Group>>, ghost picked: seq<Manifest>)
    requires Indexes(p, inv, x) && KeysExact(p, inv, tagged)
    ensures r.Ok? ==> LooseBuilt(p, inv, picked, r.value) && LoosePlaced(p, inv, inv.manifests, r.value)
    ensures r.Ok? ==> forall m :: Unowned(p, inv, m) ==> OCIReferences(p, m).Ok?
    ensures r.Err? && r.error !in {Canceled, StoreFailed} ==> AnyDefective(p, inv)
  {
    picked := [];
    var childDigests := UntaggedChildDigests(p, inv.manifests, tagged);
    if childDigests.Err? {
      if m :| m in inv.manifests && p.container(m) && OCIReferences(p, m).Err? {
        FailsOnDefective(p, inv, m);
      }
      return Err(childDigests.error), picked;
    }
    var children := childDigests.value;
    var groups, owned := [], tagged;
    for i := 0 to |inv.manifests|
      invariant UntaggedSoFar(p, inv, inv.manifests[..i], tagged, owned, picked, groups)
    {
      var canceled: bool := *;
      if canceled { return Err(Canceled), picked; }
      var m := inv.manifests[i];
      assert inv.manifests[..i + 1] == inv.manifests[..i] + [m];
      if p.container(m) {
        LooseIff(p, inv, tagged, children, m);
      }
      if p.container(m) && ManifestKey(m) !in owned && m.digest !in children {
        var planned := PlanStandaloneImage(p, inv, x, m);
        if planned.Err? { return Err(planned.error), picked; }
        UntaggedOneMore(p, inv, inv.manifests[..i], tagged, owned, picked, groups, m, planned.value);
        groups, picked := groups + [planned.value], picked + [m];
        owned := owned + KeysOfRows(planned.value.manifests);
      } else {
        UntaggedSkips(p, inv, inv.manifests[..i], tagged, owned, picked, groups, m);
      }
    }
    assert inv.manifests[..|inv.manifests|] == inv.manifests;
    return Ok(groups), picked;
  }

  // ---------------------------------------------------------------------------
  // Which rows are in a group

  ghost predicate InSomeGroup(groups: seq<Group>, m: Manifest) {
    exists g :: g in groups && m in g.manifests
  }

  /** What the planner's loops establish. */
  ghost predicate PlanFacts(p: Planner, inv: Snapshot, roots: seq<Triple>, tagged: seq<Group>,
                            picked: seq<Manifest>, loose: seq<Group>)
  {
    && ValidSnapshot(inv)
    && TaggedBuilt(p, inv, roots, tagged) && (forall k :: k in roots <==> TaggedRoot(p, inv, k))
    && LooseBuilt(p, inv, picked, loose) && LoosePlaced(p, inv, inv.manifests, loose)
  }

  /** A group was built for `root`, its image has the row, and its root's digest is
      a loose row's. */
  ghost predicate AnchoredAt(p: Planner, inv: Snapshot, picked: seq<Manifest>, root: Triple, u: Manifest, m: Manifest) {
    && (TaggedRoot(p, inv, root) || exists v :: v in picked && ManifestTriple(v) == root)
    && Holds(p, inv, root, m) && LooseRow(p, inv, u) && u.digest == root.name
  }

  ghost predicate Anchored(p: Planner, inv: Snapshot, picked: seq<Manifest>, m: Manifest) {
    exists root, u :: AnchoredAt(p, inv, picked, root, u, m)
  }

  lemma LooseAnchored(p: Planner, inv: Snapshot, roots: seq<Triple>, tagged: seq<Group>,
                      picked: seq<Manifest>, loose: seq<Group>, u: Manifest)
    requires PlanFacts(p, inv, roots, tagged, picked, loose) && LooseRow(p, inv, u)
    ensures Anchored(p, inv, picked, u)
  {
    var v := LooseHolder(p, inv, picked, loose, u);
    assert AnchoredAt(p, inv, picked, ManifestTriple(v), v, u);
  }

  lemma LooseHolder(p: Planner, inv: Snapshot, picked: seq<Manifest>, loose: seq<Group>, u: Manifest)
    returns (v: Manifest)
    requires ValidSnapshot(inv) && LooseBuilt(p, inv, picked, loose)
    requires u in inv.manifests && ManifestKey(u) in OwnedKeys(loose)
    ensures v in picked && LooseRow(p, inv, v) && Holds(p, inv, ManifestTriple(v), u)
  {
    var g, q :| g in loose && q in g.manifests && ManifestKey(q) == ManifestKey(u);
    var i :| 0 <= i < |loose| && loose[i] == g;
    v := picked[i];
    LooseDepicts(p, inv, v, g, q);
    UniqueRow(inv.manifests, ManifestKey, u, q);
  }

  lemma TaggedDepicts(p: Planner, inv: Snapshot, root: Triple, g: Group, m: Manifest)
    requires IsTaggedImage(p, inv, root, g) && m in g.manifests
    ensures TaggedRoot(p, inv, root) && Holds(p, inv, root, m)
  {
  }

  lemma LooseDepicts(p: Planner, inv: Snapshot, u: Manifest, g: Group, m: Manifest)
    requires IsLooseImage(p, inv, u, g) && m in g.manifests
    ensures LooseRow(p, inv, u) && Holds(p, inv, ManifestTriple(u), m)
  {
  }

  lemma AnchoredBelow(p: Planner, inv: Snapshot, picked: seq<Manifest>, root: Triple, u: Manifest, parent: Manifest,
                      m: Manifest)
    requires AnchoredAt(p, inv, picked, root, u, parent) && m.digest != root.name
    requires m in inv.manifests && p.container(m) && m.digest in RefSet(p, parent)
    ensures AnchoredAt(p, inv, picked, root, u, m)
  {
    ChildReached(p, inv, root, parent, m.digest);
  }

  /** A tagged image that has a row with a loose row's digest has it as its root. */
  lemma AnchoredOwned(p: Planner, inv: Snapshot, picked: seq<Manifest>, u: Manifest, m: Manifest)
    requires LooseRow(p, inv, u) && TaggedOwned(p, inv, m) && m.digest == u.digest
    ensures Anchored(p, inv, picked, m)
  {
    var k :| TaggedRoot(p, inv, k) && Holds(p, inv, k, m);
    assert k.name != m.digest ==> Holds(p, inv, k, u);
    assert AnchoredAt(p, inv, picked, k, u, m);
  }

  lemma SameDigestLoose(p: Planner, inv: Snapshot, u: Manifest, m: Manifest)
    requires LooseRow(p, inv, u) && Unowned(p, inv, m) && m.digest == u.digest
    ensures LooseRow(p, inv, m)
  {
  }

  /** References hand anchoring on. A row that its parent's group leaves out, because
      it carries the root's digest in another repository, has a group of its own. */
  lemma AnchoredStep(p: Planner, inv: Snapshot, roots: seq<Triple>, tagged: seq<Group>,
                     picked: seq<Manifest>, loose: seq<Group>, parent: Manifest, m: Manifest)
    requires PlanFacts(p, inv, roots, tagged, picked, loose) && Anchored(p, inv, picked, parent)
    requires m in inv.manifests && p.container(m) && m.digest in RefSet(p, parent)
    ensures Anchored(p, inv, picked, m)
  {
    var root, u :| AnchoredAt(p, inv, picked, root, u, parent);
    if m.digest != root.name {
      AnchoredBelow(p, inv, picked, root, u, parent, m);
    } else if TaggedOwned(p, inv, m) {
      AnchoredOwned(p, inv, picked, u, m);
    } else {
      SameDigestLoose(p, inv, u, m);
      LooseAnchored(p, inv, roots, tagged, picked, loose, m);
    }
  }

  lemma LooseImageAnchored(p: Planner, inv: Snapshot, roots: seq<Triple>, tagged: seq<Group>,
                           picked: seq<Manifest>, loose: seq<Group>, u: Manifest, m: Manifest)
    requires PlanFacts(p, inv, roots, tagged, picked, loose)
    requires LooseRow(p, inv, u) && Holds(p, inv, ManifestTriple(u), m)
    ensures Anchored(p, inv, picked, m)
  {
    var root := ManifestTriple(u);
    var good := set d | d in DescriptorReach(p, inv, root) && forall v :: RowAt(p, inv, root, d, v) ==>
      Anchored(p, inv, picked, v);
    RootReached(p, inv, root);
    forall v | RowAt(p, inv, root, root.name, v) ensures Anchored(p, inv, picked, v) {
      UniqueRow(inv.manifests, ManifestKey, u, v);
      LooseAnchored(p, inv, roots, tagged, picked, loose, u);
    }
    forall d, parent, c | d in good && RowAt(p, inv, root, d, parent) && c in RefSet(p, parent) ensures c in good {
      ChildReached(p, inv, root, parent, c);
      forall v | RowAt(p, inv, root, c, v) ensures Anchored(p, inv, picked, v) {
        AnchoredStep(p, inv, roots, tagged, picked, loose, parent, v);
      }
    }
    ReachInduction(p, inv, root, good);
    assert m.digest in good;
  }

  lemma TaggedGrouped(p: Planner, inv: Snapshot, roots: seq<Triple>, tagged: seq<Group>,
                      picked: seq<Manifest>, loose: seq<Group>, root: Triple, m: Manifest)
    requires PlanFacts(p, inv, roots, tagged, picked, loose) && TaggedRoot(p, inv, root) && Holds(p, inv, root, m)
    ensures InSomeGroup(tagged + loose, m)
  {
    var i :| 0 <= i < |roots| && roots[i] == root;
    assert tagged[i] in tagged + loose && m in tagged[i].manifests;
  }

  lemma AnchoredGrouped(p: Planner, inv: Snapshot, roots: seq<Triple>, tagged: seq<Group>,
                        picked: seq<Manifest>, loose: seq<Group>, m: Manifest)
    requires PlanFacts(p, inv, roots, tagged, picked, loose) && Anchored(p, inv, picked, m)
    ensures InSomeGroup(tagged + loose, m)
  {
    var root, u :| AnchoredAt(p, inv, picked, root, u, m);
    if TaggedRoot(p, inv, root) {
      TaggedGrouped(p, inv, roots, tagged, picked, loose, root, m);
    } else {
      var v :| v in picked && ManifestTriple(v) == root;
      var i :| 0 <= i < |picked| && picked[i] == v;
      assert loose[i] in tagged + loose && m in loose[i].manifests;
    }
  }

  lemma GroupRooted(p: Planner, inv: Snapshot, roots: seq<Triple>, tagged: seq<Group>,
                    picked: seq<Manifest>, loose: seq<Group>, m: Manifest)
    requires PlanFacts(p, inv, roots, tagged, picked, loose) && InSomeGroup(tagged + loose, m)
    ensures Rooted(p, inv, m)
  {
    var g :| (g in tagged || g in loose) && m in g.manifests;
    if g in tagged {
      var i :| 0 <= i < |tagged| && tagged[i] == g;
      TaggedDepicts(p, inv, roots[i], g, m);
    } else {
      var i :| 0 <= i < |loose| && loose[i] == g;
      LooseDepicts(p, inv, picked[i], g, m);
    }
  }

  /** A row is in a group exactly when the image of a tagged root, or of a loose row,
      has it, whatever cycles the references form. */
  lemma GroupedIff(p: Planner, inv: Snapshot, roots: seq<Triple>, tagged: seq<Group>,
                   picked: seq<Manifest>, loose: seq<Group>, m: Manifest)
    requires PlanFacts(p, inv, roots, tagged, picked, loose)
    ensures InSomeGroup(tagged + loose, m) <==> Rooted(p, inv, m)
  {
    if InSomeGroup(tagged + loose, m) {
      GroupRooted(p, inv, roots, tagged, picked, loose, m);
    } else if TaggedOwned(p, inv, m) {
      var root :| TaggedRoot(p, inv, root) && Holds(p, inv, root, m);
      TaggedGrouped(p, inv, roots, tagged, picked, loose, root, m);
    } else if Rooted(p, inv, m) {
      var u :| LooseRow(p, inv, u) && Holds(p, inv, ManifestTriple(u), m);
      LooseImageAnchored(p, inv, roots, tagged, picked, loose, u, m);
      AnchoredGrouped(p, inv, roots, tagged, picked, loose, m);
    }
  }

  // ---------------------------------------------------------------------------
  // The plan

  function GroupKey(g: Group): string { g.alias + "/" + g.package }

  function RootKey(root: Triple): string { root.alias + "/" + root.repository + "@" + root.name }

  ghost predicate AllImages(p: Planner, inv: Snapshot, groups: seq<Group>) {
    forall g :: g in groups ==>
      (exists root :: IsTaggedImage(p, inv, root, g)) || (exists u :: IsLooseImage(p, inv, u, g))
  }

  ghost predicate AllTagged(p: Planner, inv: Snapshot, groups: seq<Group>) {
    forall root :: TaggedRoot(p, inv, root) ==> exists g :: g in groups && IsTaggedImage(p, inv, root, g)
  }

  /** The container plan in whatever order: every group is the image of a tagged root
      or of a loose row, with exact tags and activity; every tagged root has one, no
      image two, and the rows in groups are exactly the rooted ones. */
  ghost predicate IsPlan(p: Planner, inv: Snapshot, groups: seq<Group>) {
    && AllImages(p, inv, groups) && AllTagged(p, inv, groups) && UniqueKeys(groups, GroupKey)
    && forall m :: InSomeGroup(groups, m) <==> Rooted(p, inv, m)
  }

  lemma TaggedRootRow(p: Planner, inv: Snapshot, root: Triple) returns (m: Manifest)
    requires HasRow(p, inv, root)
    ensures m in inv.manifests && p.container(m) && ManifestTriple(m) == root && Holds(p, inv, root, m)
    ensures ManifestKey(m) == RootKey(root)
  {
    m :| m in inv.manifests && p.container(m) && ManifestTriple(m) == root;
    OwnRow(p, inv, m);
  }

  lemma DepictsKey(p: Planner, inv: Snapshot, root: Triple, g: Group)
    requires Depicts(p, inv, root, g)
    ensures GroupKey(g) == RootKey(root)
  {
    assert root.alias + "/" + (root.repository + "@" + root.name) ==
      root.alias + "/" + root.repository + "@" + root.name;
  }

  /** Two roots with one key are one root. */
  lemma RootKeyUnique(p: Planner, inv: Snapshot, a: Triple, b: Triple)
    requires ValidSnapshot(inv) && HasRow(p, inv, a) && HasRow(p, inv, b) && RootKey(a) == RootKey(b)
    ensures a == b
  {
    var m := TaggedRootRow(p, inv, a);
    var q := TaggedRootRow(p, inv, b);
    UniqueRow(inv.manifests, ManifestKey, m, q);
  }

  lemma TaggedUnique(p: Planner, inv: Snapshot, roots: seq<Triple>, tagged: seq<Group>)
    requires ValidSnapshot(inv) && TaggedBuilt(p, inv, roots, tagged)
    ensures UniqueKeys(tagged, GroupKey)
  {
    forall i, j | 0 <= i < j < |tagged| ensures GroupKey(tagged[i]) != GroupKey(tagged[j]) {
      DepictsKey(p, inv, roots[i], tagged[i]);
      DepictsKey(p, inv, roots[j], tagged[j]);
      if RootKey(roots[i]) == RootKey(roots[j]) {
        RootKeyUnique(p, inv, roots[i], roots[j]);
      }
    }
  }

  lemma LooseUnique(p: Planner, inv: Snapshot, picked: seq<Manifest>, loose: seq<Group>)
    requires LooseBuilt(p, inv, picked, loose)
    ensures UniqueKeys(loose, GroupKey)
  {
    forall i, j | 0 <= i < j < |loose| ensures GroupKey(loose[i]) != GroupKey(loose[j]) {
      DepictsKey(p, inv, ManifestTriple(picked[i]), loose[i]);
      DepictsKey(p, inv, ManifestTriple(picked[j]), loose[j]);
    }
  }

  lemma TaggedNotLoose(p: Planner, inv: Snapshot, root: Triple, g: Group, u: Manifest, h: Group)
    requires ValidSnapshot(inv) && IsTaggedImage(p, inv, root, g) && IsLooseImage(p, inv, u, h)
    ensures GroupKey(g) != GroupKey(h)
  {
    DepictsKey(p, inv, root, g);
    DepictsKey(p, inv, ManifestTriple(u), h);
    if RootKey(root) == RootKey(ManifestTriple(u)) {
      var m := TaggedRootRow(p, inv, root);
      UniqueRow(inv.manifests, ManifestKey, m, u);
    }
  }

  lemma PlanUnique(p: Planner, inv: Snapshot, roots: seq<Triple>, tagged: seq<Group>, picked: seq<Manifest>,
                   loose: seq<Group>)
    requires PlanFacts(p, inv, roots, tagged, picked, loose)
    ensures UniqueKeys(tagged + loose, GroupKey)
  {
    TaggedUnique(p, inv, roots, tagged);
    LooseUnique(p, inv, picked, loose);
    forall i, j | 0 <= i < |tagged| && 0 <= j < |loose| ensures GroupKey(tagged[i]) != GroupKey(loose[j]) {
      TaggedNotLoose(p, inv, roots[i], tagged[i], picked[j], loose[j]);
    }
  }

  lemma PlanFound(p: Planner, inv: Snapshot, roots: seq<Triple>, tagged: seq<Group>, picked: seq<Manifest>,
                  loose: seq<Group>)
    requires PlanFacts(p, inv, roots, tagged, picked, loose)
    ensures IsPlan(p, inv, tagged + loose)
  {
    PlanUnique(p, inv, roots, tagged, picked, loose);
    forall root | TaggedRoot(p, inv, root) ensures exists g :: g in tagged + loose && IsTaggedImage(p, inv, root, g) {
      var i :| 0 <= i < |roots| && roots[i] == root;
      assert tagged[i] in tagged + loose;
    }
    forall m ensures InSomeGroup(tagged + loose, m) <==> Rooted(p, inv, m) {
      GroupedIff(p, inv, roots, tagged, picked, loose, m);
    }
  }

  lemma SortedPlan(p: Planner, inv: Snapshot, groups: seq<Group>)
    requires IsPlan(p, inv, groups)
    ensures IsPlan(p, inv, Sort(groups, PackageLess))
  {
    var sorted := Sort(groups, PackageLess);
    SortUnique(groups, PackageLess, GroupKey);
    forall root | TaggedRoot(p, inv, root) ensures exists g :: g in sorted && IsTaggedImage(p, inv, root, g) {
      var g :| g in groups && IsTaggedImage(p, inv, root, g);
      assert g in sorted;
    }
    forall m ensures InSomeGroup(sorted, m) <==> InSomeGroup(groups, m) {
    }
  }

  /** A finished plan has read every container row. */
  lemma AllRead(p: Planner, inv: Snapshot, roots: seq<Triple>, tagged: seq<Group>)
    requires TaggedBuilt(p, inv, roots, tagged) && (forall k :: k in roots <==> TaggedRoot(p, inv, k))
    requires forall m :: Unowned(p, inv, m) ==> OCIReferences(p, m).Ok?
    ensures !AnyDefective(p, inv)
  {
    forall m | m in inv.manifests && p.container(m) ensures !Defective(p, m) {
      OCIReferencesIff(p, m);
      if k :| TaggedRoot(p, inv, k) && Holds(p, inv, k, m) {
        var i :| 0 <= i < |roots| && roots[i] == k;
        assert m in tagged[i].manifests;
      } else {
        assert Unowned(p, inv, m);
      }
    }
  }

  /** The whole plan. A cancelled context and a failing store aside, it fails if and
      only if some container row cannot be read. */
  method PlanCacheCleanup(p: Planner, inv: Snapshot) returns (r: Result<seq<Group>>)
    requires ValidSnapshot(inv)
    ensures r.Ok? ==> IsPlan(p, inv, r.value) && ByPackage(r.value) && !AnyDefective(p, inv)
    ensures r.Err? && r.error !in {Canceled, StoreFailed} ==> AnyDefective(p, inv)
  {
    var x := IndexContainerInventory(p, inv);
    var tagged; ghost var roots;
    tagged, roots := PlanTaggedImages(p, inv, x);
    if tagged.Err? { return Err(tagged.error); }
    var owned := OwnedCleanupManifests(tagged.value);
    TaggedKeysExact(p, inv, roots, tagged.value);
    var untagged; ghost var picked;
    untagged, picked := PlanUntaggedManifests(p, inv, x, owned);
    if untagged.Err? { return Err(untagged.error); }
    var groups := tagged.value + untagged.value;
    AllRead(p, inv, roots, tagged.value);
    PlanFound(p, inv, roots, tagged.value, picked, untagged.value);
    SortedPlan(p, inv, groups);
    SortedByPackage(groups);
    return Ok(Sort(groups, PackageLess));
  }

  // ---------------------------------------------------------------------------
  // A group is its root closed under what the bodies name

  /** Whatever a row of a group names is in the group. */
  lemma NamedGrouped(p: Planner, inv: Snapshot, groups: seq<Group>, g: Group, m: Manifest, refs: seq<string>, d: string)
    requires IsPlan(p, inv, groups) && g in groups && m in g.manifests && Names(p, m, refs) && d in refs
    ensures d in g.digests
  {
    OCIReferencesIff(p, m);
    assert OCIReferences(p, m) == Ok(refs);
    if root :| IsTaggedImage(p, inv, root, g) {
      ChildReached(p, inv, root, m, d);
    } else {
      var u :| IsLooseImage(p, inv, u, g);
      ChildReached(p, inv, ManifestTriple(u), m, d);
    }
  }

  /** And nothing else: the group's digests are the least such set with its root's. */
  lemma NamedLeast(p: Planner, inv: Snapshot, root: Triple, g: Group, s: set<string>)
    requires Depicts(p, inv, root, g) && root.name in s
    requires forall m, refs, d :: m in g.manifests && m.digest in s && Names(p, m, refs) && d in refs ==> d in s
    ensures forall d :: d in g.digests ==> d in s
  {
    var good := set d | d in DescriptorReach(p, inv, root) && d in s;
    RootReached(p, inv, root);
    forall d, m, c | d in good && RowAt(p, inv, root, d, m) && c in RefSet(p, m) ensures c in good {
      assert Holds(p, inv, root, m);
      ChildReached(p, inv, root, m, c);
      OCIReferencesIff(p, m);
      var refs := OCIReferences(p, m).value;
      assert OCIReferences(p, m) == Ok(refs);
      assert Names(p, m, refs);
    }
    ReachInduction(p, inv, root, good);
  }

  // ---------------------------------------------------------------------------
  // When a plan is complete

  /** References strictly descend: the digest graph has no cycle. */
  ghost predicate Ranked(p: Planner, inv: Snapshot, rank: string -> nat) {
    forall m, c :: m in inv.manifests && p.container(m) && c in RefSet(p, m) ==> rank(c) < rank(m.digest)
  }

  ghost predicate Acyclic(p: Planner, inv: Snapshot) {
    exists rank: string -> nat :: Ranked(p, inv, rank)
  }

  ghost function HighestRank(rows: seq<Manifest>, rank: string -> nat): nat {
    if rows == [] then 0
    else
      var rest := HighestRank(rows[1..], rank);
      if rank(rows[0].digest) > rest then rank(rows[0].digest) else rest
  }

  lemma {:induction false} HighestRankBounds(rows: seq<Manifest>, rank: string -> nat, m: Manifest)
    requires m in rows
    ensures rank(m.digest) <= HighestRank(rows, rank)
  {
    if m != rows[0] {
      HighestRankBounds(rows[1..], rank, m);
    }
  }

  /** Following references upwards ends at a root. */
  lemma {:induction false} RankedRooted(p: Planner, inv: Snapshot, rank: string -> nat, m: Manifest)
    requires Ranked(p, inv, rank) && m in inv.manifests && p.container(m)
    ensures Rooted(p, inv, m)
    decreases HighestRank(inv.manifests, rank) - rank(m.digest)
  {
    if Unowned(p, inv, m) {
      if LooseRow(p, inv, m) {
        OwnRow(p, inv, m);
      } else {
        var q :| Unowned(p, inv, q) && m.digest in RefSet(p, q);
        HighestRankBounds(inv.manifests, rank, q);
        RankedRooted(p, inv, rank, q);
        var u :| LooseRow(p, inv, u) && Holds(p, inv, ManifestTriple(u), q);
        ChildReached(p, inv, ManifestTriple(u), q, m.digest);
        assert Holds(p, inv, ManifestTriple(u), m);
      }
    }
  }

  /** Without reference cycles every container row is in some group. */
  lemma PlanComplete(p: Planner, inv: Snapshot, groups: seq<Group>, m: Manifest)
    requires IsPlan(p, inv, groups) && Acyclic(p, inv) && m in inv.manifests && p.container(m)
    ensures InSomeGroup(groups, m)
  {
    var rank: string -> nat :| Ranked(p, inv, rank);
    RankedRooted(p, inv, rank, m);
  }

  /** Untagged container rows that reference each other round and round, and that no
      other container row references. */
  ghost predicate Isolated(p: Planner, inv: Snapshot, rows: set<Manifest>) {
    && (forall m :: m in rows ==> m in inv.manifests && p.container(m))
    && (forall m :: m in rows ==> ReferencedFrom(p, rows, m))
    && (forall m, t :: m in rows && t in inv.tags ==> TagTarget(t) != ManifestTriple(m))
    && Closed(p, inv, rows)
  }

  ghost predicate ReferencedFrom(p: Planner, rows: set<Manifest>, m: Manifest) {
    exists q :: q in rows && m.digest in RefSet(p, q)
  }

  ghost predicate Closed(p: Planner, inv: Snapshot, rows: set<Manifest>) {
    forall m, q :: m in rows && q in inv.manifests && p.container(q) && m.digest in RefSet(p, q) ==> q in rows
  }

  /** None of the rows is expanded at `d`. */
  ghost predicate NoneAt(p: Planner, inv: Snapshot, root: Triple, rows: set<Manifest>, d: string) {
    forall q :: q in rows ==> !RowAt(p, inv, root, d, q)
  }

  lemma NoneBelow(p: Planner, inv: Snapshot, root: Triple, rows: set<Manifest>, parent: Manifest, c: string)
    requires Closed(p, inv, rows) && NoneAt(p, inv, root, rows, parent.digest)
    requires RowAt(p, inv, root, parent.digest, parent) && c in RefSet(p, parent)
    ensures NoneAt(p, inv, root, rows, c)
  {
    assert parent !in rows;
  }

  lemma IsolatedNotHeld(p: Planner, inv: Snapshot, rows: set<Manifest>, root: Triple, m: Manifest)
    requires Closed(p, inv, rows) && m in rows && forall q :: q in rows ==> ManifestTriple(q) != root
    ensures !Holds(p, inv, root, m)
  {
    var good := set d | d in DescriptorReach(p, inv, root) && NoneAt(p, inv, root, rows, d);
    RootReached(p, inv, root);
    assert NoneAt(p, inv, root, rows, root.name);
    forall d, parent, c | d in good && RowAt(p, inv, root, d, parent) && c in RefSet(p, parent) ensures c in good {
      ChildReached(p, inv, root, parent, c);
      NoneBelow(p, inv, root, rows, parent, c);
    }
    ReachInduction(p, inv, root, good);
  }

  /** Such rows are in no group, so they are never selected. */
  lemma IsolatedCycleOmitted(p: Planner, inv: Snapshot, groups: seq<Group>, rows: set<Manifest>, m: Manifest)
    requires ValidSnapshot(inv) && IsPlan(p, inv, groups) && Isolated(p, inv, rows) && m in rows
    ensures !InSomeGroup(groups, m)
  {
    IsolatedUnowned(p, inv, rows, m);
    forall u | LooseRow(p, inv, u) ensures !Holds(p, inv, ManifestTriple(u), m) {
      forall q | q in rows ensures ManifestTriple(q) != ManifestTriple(u) {
        IsolatedNotLoose(p, inv, rows, q, u);
      }
      IsolatedNotHeld(p, inv, rows, ManifestTriple(u), m);
    }
  }

  lemma IsolatedUnowned(p: Planner, inv: Snapshot, rows: set<Manifest>, m: Manifest)
    requires Isolated(p, inv, rows) && m in rows
    ensures Unowned(p, inv, m)
  {
    forall root | TaggedRoot(p, inv, root) ensures !Holds(p, inv, root, m) {
      var t :| TagsImage(p, inv, root, t);
      IsolatedNotHeld(p, inv, rows, root, m);
    }
  }

  lemma IsolatedNotLoose(p: Planner, inv: Snapshot, rows: set<Manifest>, m: Manifest, u: Manifest)
    requires ValidSnapshot(inv) && Isolated(p, inv, rows) && m in rows && LooseRow(p, inv, u)
    ensures ManifestTriple(m) != ManifestTriple(u)
  {
    assert ReferencedFrom(p, rows, m);
    var parent :| parent in rows && m.digest in RefSet(p, parent);
    IsolatedUnowned(p, inv, rows, parent);
    assert m != u;
    assert ManifestTriple(m) == ManifestTriple(u) ==> ManifestKey(m) == ManifestKey(u);
    if ManifestKey(m) == ManifestKey(u) {
      UniqueRow(inv.manifests, ManifestKey, m, u);
    }
  }

  // ---------------------------------------------------------------------------
  // Shared layers never refresh an image

  /** Two inventories that agree on an image's root row, on its tags and on the pulls
      of those give the image one time, whatever else happened to its layers. */
  lemma SharedLayersIgnored(p: Planner, inv: Snapshot, other: Snapshot, root: Triple, g: Group, h: Group)
    requires IsTaggedImage(p, inv, root, g) && IsTaggedImage(p, other, root, h)
    requires forall t :: TagsImage(p, inv, root, t) <==> TagsImage(p, other, root, t)
    requires forall m :: RowAt(p, inv, root, root.name, m) <==> RowAt(p, other, root, root.name, m)
    requires forall t, q :: TagsImage(p, inv, root, t) && PullTriple(q) in {TagTriple(t), root} ==>
      (q in inv.pulls <==> q in other.pulls)
    ensures g.lastAccessAt == h.lastAccessAt
  {
    forall t: Time ensures TaggedTime(p, inv, root, t) <==> TaggedTime(p, other, root, t) {
      assert RowCounts(p, inv, root, t) <==> RowCounts(p, other, root, t);
      forall tag | TagsImage(p, inv, root, tag)
        ensures TagCounts(inv.pulls, tag, root.name, t) <==> TagCounts(other.pulls, tag, root.name, t)
      {
        assert PullCounts(inv.pulls, TagTriple(tag), t) <==> PullCounts(other.pulls, TagTriple(tag), t);
        assert PullCounts(inv.pulls, root, t) <==> PullCounts(other.pulls, root, t);
      }
    }
    SameNewest(g.lastAccessAt, h.lastAccessAt, (t: Time) => TaggedTime(p, inv, root, t),
               (t: Time) => TaggedTime(p, other, root, t));
  }

  /** The same for an untagged image, whose own link counts too. */
  lemma LooseLayersIgnored(p: Planner, inv: Snapshot, other: Snapshot, u: Manifest, g: Group, h: Group)
    requires IsLooseImage(p, inv, u, g) && IsLooseImage(p, other, u, h)
    requires forall m :: RowAt(p, inv, ManifestTriple(u), u.digest, m) <==>
      RowAt(p, other, ManifestTriple(u), u.digest, m)
    requires forall q :: PullTriple(q) in {Triple(u.alias, u.repository, u.reference), ManifestTriple(u)} ==>
      (q in inv.pulls <==> q in other.pulls)
    requires forall l: Link :: Triple(l.alias, l.repository, l.digest) == ManifestTriple(u) ==>
      (l in inv.links <==> l in other.links)
    ensures g.lastAccessAt == h.lastAccessAt
  {
    var root, own := ManifestTriple(u), Triple(u.alias, u.repository, u.reference);
    forall t: Time ensures StandaloneTime(p, inv, u, t) <==> StandaloneTime(p, other, u, t) {
      assert RowCounts(p, inv, root, t) <==> RowCounts(p, other, root, t);
      assert PullCounts(inv.pulls, own, t) <==> PullCounts(other.pulls, own, t);
      assert PullCounts(inv.pulls, root, t) <==> PullCounts(other.pulls, root, t);
      assert LinkCounts(inv.links, root, t) <==> LinkCounts(other.links, root, t);
    }
    SameNewest(g.lastAccessAt, h.lastAccessAt, (t: Time) => StandaloneTime(p, inv, u, t),
               (t: Time) => StandaloneTime(p, other, u, t));
  }

  lemma SameNewest(a: Time, b: Time, counts: Time -> bool, others: Time -> bool)
    requires Newest(a, counts) && Newest(b, others) && forall t: Time :: counts(t) <==> others(t)
    ensures a == b
  {
    assert counts(a) <==> others(a);
    assert counts(b) <==> others(b);
  }

  // ---------------------------------------------------------------------------
  // What the collector keeps of it

  /** The collector's walk reads every reference that the planner read. */
  ghost predicate AllWalked(p: Planner, inv: Snapshot, failing: set<string>) {
    forall m :: m in inv.manifests && p.container(m) && OCIReferences(p, m).Ok? ==> Walks(p, failing, m)
  }

  function WalkGraph(p: Planner, inv: Snapshot, failing: set<string>): Graph {
    Graph(inv.manifests, p.objects, p.env, false, failing)
  }

  lemma DigestExplained(p: Planner, inv: Snapshot, failing: set<string>, root: Triple, g: Group, d: string)
    requires Depicts(p, inv, root, g) && HasRow(p, inv, root)
    requires AllWalked(p, inv, failing) && !p.valid("") && d in g.digests
    ensures exists m :: m in g.manifests && (d == m.digest || d in ChildSet(WalkGraph(p, inv, failing), m))
  {
    if d == root.name {
      var m := TaggedRootRow(p, inv, root);
      assert m in g.manifests;
    } else {
      var m := ReachedFrom(p, inv, root, d);
      assert m in g.manifests;
      ReferencesWalkedIff(p, WalkGraph(p, inv, failing), m);
    }
  }

  /** A planned image is a group the collector keeps whole when it is retained. */
  lemma ImagePlanned(p: Planner, inv: Snapshot, failing: set<string>, root: Triple, g: Group)
    requires Depicts(p, inv, root, g) && HasRow(p, inv, root)
    requires forall t :: t in g.tags ==> TagsImage(p, inv, root, t)
    requires AllWalked(p, inv, failing) && !p.valid("")
    ensures Planned(WalkGraph(p, inv, failing), inv, g)
  {
    var rootRow := TaggedRootRow(p, inv, root);
    assert rootRow in g.manifests;
    forall d | d in g.digests && d != ""
      ensures exists m :: m in g.manifests && (d == m.digest || d in ChildSet(WalkGraph(p, inv, failing), m))
    {
      DigestExplained(p, inv, failing, root, g, d);
    }
  }

  lemma DepictedFromInventory(p: Planner, inv: Snapshot, groups: seq<Group>)
    requires AllImages(p, inv, groups)
    ensures FromInventory(inv, groups)
  {
    forall g | g in groups
      ensures (forall t :: t in g.tags ==> t in inv.tags) && (forall m :: m in g.manifests ==> m in inv.manifests)
      ensures forall l :: l in g.links ==> l in inv.links
    {
      if root :| IsTaggedImage(p, inv, root, g) {
      } else {
        var u :| IsLooseImage(p, inv, u, g);
      }
    }
  }

  lemma ListedPlanned(p: Planner, inv: Snapshot, groups: seq<Group>, failing: set<string>, g: Group)
    requires IsPlan(p, inv, groups) && g in groups && AllWalked(p, inv, failing) && !p.valid("")
    ensures Planned(WalkGraph(p, inv, failing), inv, g)
  {
    if root :| IsTaggedImage(p, inv, root, g) {
      ImagePlanned(p, inv, failing, root, g);
    } else {
      var u :| IsLooseImage(p, inv, u, g);
      ImagePlanned(p, inv, failing, ManifestTriple(u), g);
    }
  }
}
