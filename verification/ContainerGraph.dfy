/** One container image: its complete descriptor graph, its links and its activity. */
module ContainerGraph {
  import opened Records
  import opened Reachability
  import opened GraphWalk
  import opened References
  import opened PackagePlan

  /** The media-type, container-row and digest-syntax tests, and the store. */
  datatype Planner = Planner(env: Env, container: Manifest -> bool, valid: string -> bool, objects: Objects)

  // ---------------------------------------------------------------------------
  // Direct references

  /** The descriptors of a row, or why they could not be read. Unlike the
      collector's walk this reads untyped rows of every size. */
  function OCIReferences(p: Planner, m: Manifest): Result<seq<string>> {
    if !p.env.oci(m.mediaType) && m.mediaType != "" then Ok([])
    else if !p.valid(m.digest) then Err(Invalid)
    else
      var body := ReadManifest(p.objects, m);
      if body.Err? then Err(Unreadable)
      else if body.value == "" then Err(Unreadable)
      else
        match p.env.parse(m.mediaType, body.value)
        case References(refs) =>
          if (m.mediaType == "" && refs == []) || exists r :: r in refs && !p.valid(r) then Err(Invalid) else Ok(refs)
        case Malformed => Err(Unreadable)
        case OverBudget => Err(Unreadable)
        case InvalidJson => Err(Unreadable)
  }

  function RefSet(p: Planner, m: Manifest): set<string> {
    var refs := OCIReferences(p, m);
    if refs.Ok? then (set r | r in refs.value) else {}
  }

  // What reading a row means, in terms of the object store and the JSON decoder alone.

  /** The row is one that the planner reads: typed OCI, or of unknown type. */
  predicate ToRead(p: Planner, m: Manifest) { p.env.oci(m.mediaType) || m.mediaType == "" }

  /** The stored body of the row, neither missing nor empty nor over 4 MiB. */
  predicate HasBody(p: Planner, m: Manifest, body: string) {
    var key := if m.objectKey == "" then m.digest else m.objectKey;
    key != "" && key in p.objects && p.objects[key] == body && 1 <= |body| <= 4 * 1024 * 1024
  }

  /** The row's body names exactly these descriptors, and all digests are valid. */
  ghost predicate Names(p: Planner, m: Manifest, refs: seq<string>) {
    && ToRead(p, m) && p.valid(m.digest) && (forall r :: r in refs ==> p.valid(r))
    && (m.mediaType == "" ==> |refs| > 0)
    && exists body :: HasBody(p, m, body) && p.env.parse(m.mediaType, body) == Parsed.References(refs)
  }

  ghost predicate Defective(p: Planner, m: Manifest) {
    ToRead(p, m) && forall refs :: !Names(p, m, refs)
  }

  /** The planner reads a row's references exactly as its body names them, reads none of
      a row of another type, and fails exactly on a defective row. */
  lemma OCIReferencesIff(p: Planner, m: Manifest)
    ensures forall refs :: OCIReferences(p, m) == Ok(refs) <==> Names(p, m, refs) || (!ToRead(p, m) && refs == [])
    ensures OCIReferences(p, m).Err? <==> Defective(p, m)
  {
    forall refs ensures OCIReferences(p, m) == Ok(refs) <==> Names(p, m, refs) || (!ToRead(p, m) && refs == []) {
      if OCIReferences(p, m) == Ok(refs) && ToRead(p, m) {
        assert HasBody(p, m, p.objects[BodyKey(m)]);
      }
    }
    if OCIReferences(p, m).Ok? {
      assert OCIReferences(p, m) == Ok(OCIReferences(p, m).value);
    }
  }

  /** What the planner reads of a row, the collector's lenient walk reads too, exactly
      when the row is typed or within the walk's size bounds, and the walk's own read
      of a body with references does not fail. */
  lemma ReferencesWalkedIff(p: Planner, g: Graph, m: Manifest)
    requires g.env == p.env && g.objects == p.objects && !g.strict && !p.valid("")
    requires OCIReferences(p, m).Ok?
    ensures RefSet(p, m) <= ChildSet(g, m) <==> Walks(p, g.failing, m)
  {
    var refs := OCIReferences(p, m).value;
    if ReadFails(g, m) {
      assert ChildSet(g, m) == {};
    } else if NeedsTraversal(p.env, m) {
      assert refs != [] ==> Children(g, m) == Ok(refs);
    } else if m.mediaType == "" {
      assert refs[0] in RefSet(p, m);
    }
  }

  predicate Walks(p: Planner, failing: set<string>, m: Manifest) {
    && (NeedsTraversal(p.env, m) || m.mediaType != "")
    && (NeedsTraversal(p.env, m) && BodyKey(m) != "" && BodyKey(m) in failing ==> RefSet(p, m) == {})
  }

  // ---------------------------------------------------------------------------
  // What an image is

  /** The rows that an image expands at `d`: at the root only its own repository's,
      below it those of every repository. */
  ghost predicate RowAt(p: Planner, inv: Snapshot, root: Triple, d: string, m: Manifest) {
    m in inv.manifests && p.container(m) && m.digest == d && (d == root.name ==> ManifestTriple(m) == root)
  }

  ghost function DescriptorEdges(p: Planner, inv: Snapshot, root: Triple): Edges {
    map d | d in DigestsOf(inv.manifests) ::
      set m, r | m in inv.manifests && RowAt(p, inv, root, d, m) && r in RefSet(p, m) :: r
  }

  /** Every digest reachable from the root. */
  ghost function DescriptorReach(p: Planner, inv: Snapshot, root: Triple): set<string> {
    Closure(DescriptorEdges(p, inv, root), {root.name})
  }

  /** The image of `root` has the row. */
  ghost predicate Holds(p: Planner, inv: Snapshot, root: Triple, m: Manifest) {
    m.digest in DescriptorReach(p, inv, root) && RowAt(p, inv, root, m.digest, m)
  }

  /** `e` has exactly the edges that the rows' references make. */
  ghost predicate ImageLinked(p: Planner, inv: Snapshot, root: Triple, e: Edges) {
    && (forall d, m :: RowAt(p, inv, root, d, m) ==> RefSet(p, m) <= Succ(e, d))
    && (forall d, r :: r in Succ(e, d) ==> exists m :: RowAt(p, inv, root, d, m) && r in RefSet(p, m))
  }

  lemma DescriptorsLinked(p: Planner, inv: Snapshot, root: Triple)
    ensures ImageLinked(p, inv, root, DescriptorEdges(p, inv, root))
  {
  }

  lemma RootReached(p: Planner, inv: Snapshot, root: Triple)
    ensures root.name in DescriptorReach(p, inv, root)
  {
    ClosureIsLeast(DescriptorEdges(p, inv, root), {root.name});
  }

  lemma ChildReached(p: Planner, inv: Snapshot, root: Triple, parent: Manifest, child: string)
    requires Holds(p, inv, root, parent) && child in RefSet(p, parent)
    ensures child in DescriptorReach(p, inv, root)
  {
    DescriptorsLinked(p, inv, root);
    ClosureIsLeast(DescriptorEdges(p, inv, root), {root.name});
  }

  /** A property of the root that every reference hands on holds all over the image. */
  lemma ReachInduction(p: Planner, inv: Snapshot, root: Triple, good: set<string>)
    requires root.name in good
    requires forall d, m, c :: d in good && RowAt(p, inv, root, d, m) && c in RefSet(p, m) ==> c in good
    ensures DescriptorReach(p, inv, root) <= good
  {
    DescriptorsLinked(p, inv, root);
    ClosureIsLeast(DescriptorEdges(p, inv, root), {root.name});
    assert Encloses(DescriptorEdges(p, inv, root), {root.name}, good);
  }

  /** Every digest of an image but its root's is a reference of one of its rows. */
  lemma ReachedFrom(p: Planner, inv: Snapshot, root: Triple, d: string) returns (m: Manifest)
    requires d in DescriptorReach(p, inv, root) && d != root.name
    ensures Holds(p, inv, root, m) && d in RefSet(p, m)
  {
    ClosurePredecessor(DescriptorEdges(p, inv, root), {root.name}, d);
    var q :| q in DescriptorReach(p, inv, root) && d in Succ(DescriptorEdges(p, inv, root), q);
    DescriptorsLinked(p, inv, root);
    m :| RowAt(p, inv, root, q, m) && d in RefSet(p, m);
  }

  // ---------------------------------------------------------------------------
  // The index

  datatype Index = Index(
    byRepo: map<Triple, seq<Manifest>>, byDigest: map<string, seq<Manifest>>,
    tagsByImage: map<Triple, seq<Tag>>, links: seq<Link>)

  /** The tag names the image and the image's root row exists. */
  ghost predicate TagsImage(p: Planner, inv: Snapshot, root: Triple, t: Tag) {
    t in inv.tags && t.digest != "" && TagTarget(t) == root && HasRow(p, inv, root)
  }

  ghost predicate HasRow(p: Planner, inv: Snapshot, root: Triple) {
    exists m :: m in inv.manifests && p.container(m) && ManifestTriple(m) == root
  }

  ghost predicate Indexes(p: Planner, inv: Snapshot, x: Index) {
    && (forall k, m :: m in At(x.byRepo, k) <==> m in inv.manifests && p.container(m) && ManifestTriple(m) == k)
    && (forall d, m :: m in At(x.byDigest, d) <==> m in inv.manifests && p.container(m) && m.digest == d)
    && (forall k, t :: t in At(x.tagsByImage, k) <==> TagsImage(p, inv, k, t))
    && (forall k :: k in x.tagsByImage ==> x.tagsByImage[k] != [])
    && x.links == inv.links
  }

  /** One `index[key] = append(index[key], row)` loop. */
  method GroupBy<K(!new), V(!new)>(rows: seq<V>, keep: V -> bool, key: V -> K) returns (m: map<K, seq<V>>)
    ensures forall k, v :: v in At(m, k) <==> v in rows && keep(v) && key(v) == k
    ensures forall k :: k in m ==> m[k] != []
  {
    m := map[];
    for i := 0 to |rows|
      invariant forall k, v :: v in At(m, k) <==> v in rows[..i] && keep(v) && key(v) == k
      invariant forall k :: k in m ==> m[k] != []
    {
      var row := rows[i];
      assert rows[..i + 1] == rows[..i] + [row];
      ghost var before := m;
      if keep(row) {
        m := m[key(row) := At(m, key(row)) + [row]];
      }
      assert forall k, v :: v in At(m, k) <==> v in At(before, k) || (v == row && keep(row) && k == key(row));
    }
    assert rows[..|rows|] == rows;
  }

  /** Exactly the container rows, by repository and by digest, and the tags whose
      manifest is one of them. */
  method IndexContainerInventory(p: Planner, inv: Snapshot) returns (x: Index)
    ensures Indexes(p, inv, x)
  {
    var byRepo := GroupBy(inv.manifests, p.container, ManifestTriple);
    forall k, m ensures m in At(byRepo, k) <==> m in inv.manifests && p.container(m) && ManifestTriple(m) == k {
    }
    var byDigest := GroupBy(inv.manifests, p.container, ManifestDigest);
    forall d, m ensures m in At(byDigest, d) <==> m in inv.manifests && p.container(m) && ManifestDigest(m) == d {
    }
    var resolves := (t: Tag) => TagResolves(byRepo, t);
    var byImage := GroupBy(inv.tags, resolves, TagTarget);
    forall k, t ensures t in At(byImage, k) <==> t in inv.tags && TagResolves(byRepo, t) && TagTarget(t) == k {
      assert t in At(byImage, k) <==> t in inv.tags && resolves(t) && TagTarget(t) == k;
    }
    x := Index(byRepo, byDigest, byImage, inv.links);
    ResolvedImages(p, inv, byRepo, byImage);
  }

  predicate TagResolves(byRepo: map<Triple, seq<Manifest>>, t: Tag) {
    t.digest != "" && At(byRepo, TagTarget(t)) != []
  }

  lemma RowsOfImage(p: Planner, inv: Snapshot, byRepo: map<Triple, seq<Manifest>>, k: Triple)
    requires forall m :: m in At(byRepo, k) <==> m in inv.manifests && p.container(m) && ManifestTriple(m) == k
    ensures At(byRepo, k) != [] <==> HasRow(p, inv, k)
  {
    if At(byRepo, k) != [] {
      assert At(byRepo, k)[0] in At(byRepo, k);
    }
  }

  lemma ResolvedImages(p: Planner, inv: Snapshot, byRepo: map<Triple, seq<Manifest>>, byImage: map<Triple, seq<Tag>>)
    requires forall k, m :: m in At(byRepo, k) <==> m in inv.manifests && p.container(m) && ManifestTriple(m) == k
    requires forall k, t :: t in At(byImage, k) <==> t in inv.tags && TagResolves(byRepo, t) && TagTarget(t) == k
    ensures forall k, t :: t in At(byImage, k) <==> TagsImage(p, inv, k, t)
  {
    forall k, t ensures t in At(byImage, k) <==> TagsImage(p, inv, k, t) {
      RowsOfImage(p, inv, byRepo, k);
      assert t in At(byImage, k) <==> t in inv.tags && TagResolves(byRepo, t) && TagTarget(t) == k;
    }
  }

  // ---------------------------------------------------------------------------
  // Walking one image graph

  function GraphManifests(x: Index, root: Triple, d: string): seq<Manifest> {
    if d == root.name then At(x.byRepo, root) else At(x.byDigest, d)
  }

  lemma GraphRows(p: Planner, inv: Snapshot, x: Index, root: Triple, d: string)
    requires Indexes(p, inv, x)
    ensures forall m :: m in GraphManifests(x, root, d) <==> RowAt(p, inv, root, d, m)
  {
    forall m ensures m in GraphManifests(x, root, d) <==> RowAt(p, inv, root, d, m) {
      assert m in At(x.byRepo, root) <==> m in inv.manifests && p.container(m) && ManifestTriple(m) == root;
      assert m in At(x.byDigest, d) <==> m in inv.manifests && p.container(m) && m.digest == d;
    }
  }

  datatype Image = Image(digests: seq<string>, manifests: seq<Manifest>)

  ghost predicate NoRepeats(s: seq<string>) {
    forall i, j :: 0 <= i < j < |s| ==> s[i] != s[j]
  }

  /** The rows of an image are exactly the rows at its digests, all readable. */
  ghost predicate RowsAt(p: Planner, inv: Snapshot, root: Triple, image: Image) {
    && (forall m :: m in image.manifests <==> m.digest in image.digests && RowAt(p, inv, root, m.digest, m))
    && (forall m :: m in image.manifests ==> OCIReferences(p, m).Ok?)
  }

  /** A row that stopped the walk. */
  ghost predicate Blocks(p: Planner, inv: Snapshot, root: Triple, digests: set<string>, m: Manifest) {
    m.digest in digests && RowAt(p, inv, root, m.digest, m) && OCIReferences(p, m).Err?
  }

  /** The breadth-first walk relative to any closed set that holds the root. */
  method WalkImage(p: Planner, inv: Snapshot, x: Index, root: Triple, ghost e: Edges, ghost reach: set<string>)
    returns (r: Result<Image>)
    requires Indexes(p, inv, x) && ImageLinked(p, inv, root, e) && Encloses(e, {root.name}, reach)
    ensures r.Ok? ==>
      && NoRepeats(r.value.digests) && RowsAt(p, inv, root, r.value)
      && (forall d :: d in r.value.digests ==> d in reach)
      && Encloses(e, {root.name}, set d | d in r.value.digests)
    ensures r.Err? && r.error !in {Canceled, StoreFailed} ==> exists m :: Blocks(p, inv, root, reach, m)
  {
    var queue, seen := [root.name], {};
    var image := Image([], []);
    while queue != []
      invariant NoRepeats(image.digests) && RowsAt(p, inv, root, image)
      invariant forall d :: d in image.digests <==> d in seen
      invariant forall d :: d in seen ==> d in reach && forall s :: s in Succ(e, d) ==> s in seen || s in queue
      invariant forall d :: d in queue ==> d in reach
      invariant root.name in seen || root.name in queue
      decreases reach - seen, |queue|
    {
      var canceled: bool := *;
      if canceled { return Err(Canceled); }
      var digest := queue[0];
      ghost var before := queue;
      queue := queue[1..];
      assert forall q :: q in before <==> q == digest || q in queue;
      if digest !in seen {
        var rows := GraphManifests(x, root, digest);
        GraphRows(p, inv, x, root, digest);
        var expanded := ExpandRows(p, rows);
        if expanded.Err? {
          assert (exists m :: m in rows && OCIReferences(p, m).Err?) ==> exists m :: Blocks(p, inv, root, reach, m) by {
            if m :| m in rows && OCIReferences(p, m).Err? {
              assert Blocks(p, inv, root, reach, m);
            }
          }
          return Err(expanded.error);
        }
        image := AddDigest(p, inv, x, root, image, digest);
        seen := seen + {digest};
        queue := queue + expanded.value;
        ReferencesFollowed(p, inv, root, e, digest, rows, expanded.value);
      }
    }
    return Ok(image);
  }

  lemma ReferencesFollowed(p: Planner, inv: Snapshot, root: Triple, e: Edges, digest: string, rows: seq<Manifest>,
                           refs: seq<string>)
    requires ImageLinked(p, inv, root, e)
    requires forall m :: m in rows <==> RowAt(p, inv, root, digest, m)
    requires forall s :: s in refs <==> exists m :: m in rows && s in RefSet(p, m)
    ensures forall s :: s in refs <==> s in Succ(e, digest)
  {
    forall s ensures s in refs <==> s in Succ(e, digest) {
      if s in Succ(e, digest) {
        var m :| RowAt(p, inv, root, digest, m) && s in RefSet(p, m);
        assert m in rows;
      }
      if s in refs {
        var m :| m in rows && s in RefSet(p, m);
        assert RowAt(p, inv, root, digest, m);
      }
    }
  }

  /** The references of every row, in order; the store may fail any read. */
  method ExpandRows(p: Planner, rows: seq<Manifest>) returns (r: Result<seq<string>>)
    ensures r.Ok? ==>
      && (forall m :: m in rows ==> OCIReferences(p, m).Ok?)
      && (forall s :: s in r.value <==> exists m :: m in rows && s in RefSet(p, m))
    ensures r.Err? && r.error != StoreFailed ==> exists m :: m in rows && OCIReferences(p, m).Err?
  {
    var all := [];
    for i := 0 to |rows|
      invariant forall m :: m in rows[..i] ==> OCIReferences(p, m).Ok?
      invariant forall s :: s in all <==> exists m :: m in rows[..i] && s in RefSet(p, m)
    {
      assert rows[..i + 1] == rows[..i] + [rows[i]];
      var failed: bool := *;
      if failed { return Err(StoreFailed); }
      var refs := OCIReferences(p, rows[i]);
      if refs.Err? {
        assert rows[i] in rows;
        return Err(refs.error);
      }
      assert forall s :: s in RefSet(p, rows[i]) <==> s in refs.value;
      all := all + refs.value;
    }
    assert rows[..|rows|] == rows;
    return Ok(all);
  }

  function AddDigest(p: Planner, inv: Snapshot, x: Index, root: Triple, image: Image, digest: string): (next: Image)
    requires Indexes(p, inv, x)
    requires NoRepeats(image.digests) && RowsAt(p, inv, root, image) && digest !in image.digests
    requires forall m :: m in GraphManifests(x, root, digest) ==> OCIReferences(p, m).Ok?
    ensures NoRepeats(next.digests) && RowsAt(p, inv, root, next)
    ensures next.digests == image.digests + [digest]
  {
    var next := Image(image.digests + [digest], image.manifests + GraphManifests(x, root, digest));
    GraphRows(p, inv, x, root, digest);
    assert forall d :: d in next.digests <==> d in image.digests || d == digest;
    next
  }

  /** `addImageGraph`: the digests are exactly those reachable from the root, each
      once, and the rows exactly those at them. */
  method AddImageGraph(p: Planner, inv: Snapshot, x: Index, root: Triple) returns (r: Result<Image>)
    requires Indexes(p, inv, x)
    ensures r.Ok? ==>
      && NoRepeats(r.value.digests) && (forall d :: d in r.value.digests <==> d in DescriptorReach(p, inv, root))
      && (forall m :: m in r.value.manifests <==> Holds(p, inv, root, m))
      && (forall m :: m in r.value.manifests ==> OCIReferences(p, m).Ok?)
    ensures r.Err? && r.error !in {Canceled, StoreFailed} ==>
      exists m :: Blocks(p, inv, root, DescriptorReach(p, inv, root), m)
  {
    DescriptorsLinked(p, inv, root);
    ClosureIsLeast(DescriptorEdges(p, inv, root), {root.name});
    r := WalkImage(p, inv, x, root, DescriptorEdges(p, inv, root), DescriptorReach(p, inv, root));
  }

  // ---------------------------------------------------------------------------
  // Links

  function LinksForImage(links: seq<Link>, root: Triple, digests: seq<string>): (r: seq<Link>)
    ensures forall l :: l in r <==>
      l in links && l.alias == root.alias && l.repository == root.repository && l.digest in digests
  {
    if links == [] then []
    else
      var rest := LinksForImage(links[1..], root, digests);
      assert forall l :: l in links <==> l == links[0] || l in links[1..];
      if links[0].alias == root.alias && links[0].repository == root.repository && links[0].digest in digests
      then [links[0]] + rest else rest
  }

  // ---------------------------------------------------------------------------
  // Activity

  // An image's activity comes from its root only: its tags, the pulls of its tags
  // and digest, its own row and, untagged, its own link. Which times count:

  ghost predicate PullCounts(pulls: seq<Pull>, k: Triple, t: Time) {
    exists q :: q in pulls && PullTriple(q) == k && t in {q.lastPullAt, q.updatedAt, q.createdAt}
  }

  ghost predicate TagCounts(pulls: seq<Pull>, tag: Tag, digest: string, t: Time) {
    || t in {tag.updatedAt, tag.createdAt}
    || PullCounts(pulls, TagTriple(tag), t)
    || PullCounts(pulls, Triple(tag.alias, tag.repository, digest), t)
  }

  ghost predicate RowCounts(p: Planner, inv: Snapshot, root: Triple, t: Time) {
    exists m :: RowAt(p, inv, root, root.name, m) && t in {m.updatedAt, m.createdAt}
  }

  ghost predicate LinkCounts(links: seq<Link>, root: Triple, t: Time) {
    exists l :: l in links && Triple(l.alias, l.repository, l.digest) == root &&
      t in {l.lastAccessAt, l.lastVerifiedAt, l.updatedAt, l.createdAt}
  }

  ghost predicate TaggedTime(p: Planner, inv: Snapshot, root: Triple, t: Time) {
    || (exists tag :: TagsImage(p, inv, root, tag) && TagCounts(inv.pulls, tag, root.name, t))
    || RowCounts(p, inv, root, t)
  }

  ghost predicate StandaloneTime(p: Planner, inv: Snapshot, m: Manifest, t: Time) {
    || RowCounts(p, inv, ManifestTriple(m), t)
    || PullCounts(inv.pulls, Triple(m.alias, m.repository, m.reference), t)
    || PullCounts(inv.pulls, ManifestTriple(m), t)
    || LinkCounts(inv.links, ManifestTriple(m), t)
  }

  /** `last` is the newest time that counts, or 0 if none does. */
  ghost predicate Newest(last: Time, counts: Time -> bool) {
    (last == 0 || counts(last)) && forall t: Time :: counts(t) ==> t <= last
  }

  lemma LatestIsNewestOf(values: seq<Time>, counts: Time -> bool)
    requires forall t: Time :: t in values <==> counts(t)
    ensures Newest(Latest(values), counts)
  {
    LatestIsNewest(values);
    forall t: Time | counts(t) ensures t <= Latest(values) {
      var i :| 0 <= i < |values| && values[i] == t;
    }
  }

  // The times as the planner folds them.

  function PullTimes(pulls: seq<Pull>, k: Triple): seq<Time> {
    if pulls == [] then []
    else (if PullTriple(pulls[0]) == k then [pulls[0].lastPullAt, pulls[0].updatedAt, pulls[0].createdAt] else []) +
         PullTimes(pulls[1..], k)
  }

  function TagTimes(pulls: seq<Pull>, tags: seq<Tag>, digest: string): seq<Time> {
    if tags == [] then []
    else [tags[0].updatedAt, tags[0].createdAt] + PullTimes(pulls, TagTriple(tags[0])) +
         PullTimes(pulls, Triple(tags[0].alias, tags[0].repository, digest)) + TagTimes(pulls, tags[1..], digest)
  }

  function RowTimes(rows: seq<Manifest>): seq<Time> {
    if rows == [] then [] else [rows[0].updatedAt, rows[0].createdAt] + RowTimes(rows[1..])
  }

  function LinkTimes(links: seq<Link>, digest: string): seq<Time> {
    if links == [] then []
    else (if links[0].digest == digest
          then [links[0].lastAccessAt, links[0].lastVerifiedAt, links[0].updatedAt, links[0].createdAt] else []) +
         LinkTimes(links[1..], digest)
  }

  lemma {:induction false} PullTimesCount(pulls: seq<Pull>, k: Triple, t: Time)
    ensures t in PullTimes(pulls, k) <==> PullCounts(pulls, k, t)
  {
    if pulls != [] {
      PullTimesCount(pulls[1..], k, t);
      assert forall q :: q in pulls <==> q == pulls[0] || q in pulls[1..];
    }
  }

  lemma {:induction false} TagTimesCount(pulls: seq<Pull>, tags: seq<Tag>, digest: string, t: Time)
    ensures t in TagTimes(pulls, tags, digest) <==> exists tag :: tag in tags && TagCounts(pulls, tag, digest, t)
  {
    if tags != [] {
      TagTimesCount(pulls, tags[1..], digest, t);
      PullTimesCount(pulls, TagTriple(tags[0]), t);
      PullTimesCount(pulls, Triple(tags[0].alias, tags[0].repository, digest), t);
      assert t in TagTimes(pulls, tags, digest) <==>
        TagCounts(pulls, tags[0], digest, t) || t in TagTimes(pulls, tags[1..], digest);
      assert forall tag :: tag in tags <==> tag == tags[0] || tag in tags[1..];
    }
  }

  lemma {:induction false} RowTimesCount(rows: seq<Manifest>, t: Time)
    ensures t in RowTimes(rows) <==> exists m :: m in rows && t in {m.updatedAt, m.createdAt}
  {
    if rows != [] {
      RowTimesCount(rows[1..], t);
      assert forall m :: m in rows <==> m == rows[0] || m in rows[1..];
    }
  }

  lemma {:induction false} LinkTimesCount(links: seq<Link>, digest: string, t: Time)
    ensures t in LinkTimes(links, digest) <==>
      exists l :: l in links && l.digest == digest && t in {l.lastAccessAt, l.lastVerifiedAt, l.updatedAt, l.createdAt}
  {
    if links != [] {
      LinkTimesCount(links[1..], digest, t);
      assert forall l :: l in links <==> l == links[0] || l in links[1..];
    }
  }

  function TaggedActivity(x: Index, pulls: seq<Pull>, root: Triple): Time {
    Latest(TagTimes(pulls, At(x.tagsByImage, root), root.name) + RowTimes(At(x.byRepo, root)))
  }

  function StandaloneActivity(x: Index, pulls: seq<Pull>, m: Manifest, links: seq<Link>): Time {
    var root := ManifestTriple(m);
    Latest(RowTimes(At(x.byRepo, root)) + PullTimes(pulls, Triple(m.alias, m.repository, m.reference)) +
           PullTimes(pulls, root) + LinkTimes(links, m.digest))
  }

  lemma RootRowsCount(p: Planner, inv: Snapshot, x: Index, root: Triple, t: Time)
    requires Indexes(p, inv, x)
    ensures t in RowTimes(At(x.byRepo, root)) <==> RowCounts(p, inv, root, t)
  {
    RowTimesCount(At(x.byRepo, root), t);
    GraphRows(p, inv, x, root, root.name);
  }

  lemma TaggedActivityIsNewest(p: Planner, inv: Snapshot, x: Index, root: Triple)
    requires Indexes(p, inv, x)
    ensures Newest(TaggedActivity(x, inv.pulls, root), (t: Time) => TaggedTime(p, inv, root, t))
  {
    var tags, rows := TagTimes(inv.pulls, At(x.tagsByImage, root), root.name), RowTimes(At(x.byRepo, root));
    forall t: Time ensures t in tags + rows <==> TaggedTime(p, inv, root, t) {
      TagTimesCount(inv.pulls, At(x.tagsByImage, root), root.name, t);
      RootRowsCount(p, inv, x, root, t);
    }
    LatestIsNewestOf(tags + rows, (t: Time) => TaggedTime(p, inv, root, t));
  }

  lemma StandaloneActivityIsNewest(p: Planner, inv: Snapshot, x: Index, m: Manifest, digests: seq<string>)
    requires Indexes(p, inv, x) && m.digest in digests
    ensures var links := LinksForImage(x.links, ManifestTriple(m), digests);
      Newest(StandaloneActivity(x, inv.pulls, m, links), (t: Time) => StandaloneTime(p, inv, m, t))
  {
    var root := ManifestTriple(m);
    var links := LinksForImage(x.links, root, digests);
    var own, pulled := Triple(m.alias, m.repository, m.reference), LinkTimes(links, m.digest);
    var all := RowTimes(At(x.byRepo, root)) + PullTimes(inv.pulls, own) + PullTimes(inv.pulls, root) + pulled;
    forall t: Time ensures t in all <==> StandaloneTime(p, inv, m, t) {
      RootRowsCount(p, inv, x, root, t);
      PullTimesCount(inv.pulls, own, t);
      PullTimesCount(inv.pulls, root, t);
      LinkTimesCount(links, m.digest, t);
    }
    LatestIsNewestOf(all, (t: Time) => StandaloneTime(p, inv, m, t));
  }
}
