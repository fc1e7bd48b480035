/** The cleanup planner shared by the artifact ecosystems: rows are grouped by a
    package key, and activity is attributed to the groups it belongs to. */
module ArtifactPlan {
  import opened Records
  import opened GraphWalk
  import opened References
  import opened Sorting
  import opened PackagePlan
  import opened PackageApply
  import opened PackagePass

  datatype GroupRef = GroupRef(alias: string, repository: string, key: string)

  /** An ecosystem's name and its package key of a repository and a reference. */
  datatype Naming = Naming(ecosystem: string, groupKey: (string, string) -> string)

  /** A row is the ecosystem's by its accept key, or without one by its alias. */
  predicate Owned(n: Naming, m: Manifest) {
    if m.acceptKey != "" then m.acceptKey == n.ecosystem else n.ecosystem + "/" <= m.alias
  }

  function RefFor(n: Naming, k: Triple): GroupRef {
    GroupRef(k.alias, k.repository, n.groupKey(k.repository, k.name))
  }

  function LooseTriple(m: Manifest): Triple {
    Triple(m.alias, m.repository, if m.reference == "" then m.digest else m.reference)
  }

  function LinkTriple(l: Link): Triple { Triple(l.alias, l.repository, l.digest) }

  /** Pulls may be recorded under the ecosystem's scoped alias. */
  function PullName(n: Naming, p: Pull): Triple {
    var scope := n.ecosystem + "/";
    Triple(if scope <= p.alias then p.alias[|scope|..] else p.alias, p.repository, p.reference)
  }

  function TagTime(t: Tag): Time { Latest([t.updatedAt, t.createdAt]) }

  function RowTime(m: Manifest): Time { Latest([m.updatedAt, m.createdAt]) }

  function BlobTime(b: Blob): Time { Latest([b.lastAccessAt, b.updatedAt, b.createdAt]) }

  function LinkTime(l: Link): Time { Latest([l.lastAccessAt, l.lastVerifiedAt, l.updatedAt, l.createdAt]) }

  function PullTime(p: Pull): Time { Latest([p.lastPullAt, p.lastUpstreamPullAt, p.updatedAt, p.createdAt]) }

  // ---------------------------------------------------------------------------
  // What a planned group is

  ghost predicate Brings(n: Naming, t: Tag, m: Manifest, ref: GroupRef) {
    ManifestTriple(m) == TagTarget(t) && RefFor(n, TagTriple(t)) == ref
  }

  /** The group's rows, tags and links: all from the inventory, all of the
      group's own alias and repository. */
  ghost predicate Sound(n: Naming, inv: Snapshot, ref: GroupRef, g: Group) {
    && g.ecosystem == n.ecosystem && g.alias == ref.alias && g.package == ref.key
    && (forall m :: m in g.manifests ==>
      m in inv.manifests && Owned(n, m) && m.alias == ref.alias && m.repository == ref.repository)
    && (forall t :: t in g.tags ==>
          && t in inv.tags && RefFor(n, TagTriple(t)) == ref
          && exists m :: m in g.manifests && ManifestTriple(m) == TagTarget(t))
    && (forall l :: l in g.links ==>
      l in inv.links && exists m :: m in g.manifests && ManifestTriple(m) == LinkTriple(l))
    && (forall m :: m in g.manifests ==> m.digest in g.digests)
    && (forall d :: d in g.digests ==> exists m :: m in g.manifests && m.digest == d)
    && (forall m :: m in g.manifests ==> Explained(n, inv, ref, m))
  }

  /** Why a row is in a group: a tag of the group resolves to it, or no tag does
      and its own reference names the group. */
  ghost predicate Explained(n: Naming, inv: Snapshot, ref: GroupRef, m: Manifest) {
    || (exists t :: t in inv.tags && Brings(n, t, m, ref))
    || (Untagged(inv.tags, m) && RefFor(n, LooseTriple(m)) == ref)
  }

  /** A sound group is one that the collector keeps whole, whatever the walk reads. */
  lemma SoundIsPlanned(n: Naming, inv: Snapshot, ref: GroupRef, g: Group, graph: Graph)
    requires Sound(n, inv, ref, g)
    ensures Planned(graph, inv, g)
  {
    forall l | l in g.links
      ensures l.digest in g.digests
      ensures exists m :: m in g.manifests && m.alias == l.alias && m.repository == l.repository
    {
      var m :| m in g.manifests && ManifestTriple(m) == LinkTriple(l);
      assert m.digest in g.digests;
    }
  }

  // Which times count. A row counts through a tag of its own reference, or
  // through itself when no tag resolves to it.

  ghost predicate CountsTag(g: Group, x: Time) {
    exists t :: t in g.tags && x == TagTime(t)
  }

  ghost predicate CountsRow(g: Group, x: Time) {
    exists t, m :: t in g.tags && m in g.manifests && ManifestTriple(m) == TagTarget(t) && m.reference == t.reference &&
      x == RowTime(m)
  }

  ghost predicate Untagged(tags: seq<Tag>, m: Manifest) {
    forall t :: t in tags ==> TagTarget(t) != ManifestTriple(m)
  }

  ghost predicate CountsLoose(inv: Snapshot, g: Group, x: Time) {
    exists m :: m in g.manifests && Untagged(inv.tags, m) && x == m.updatedAt
  }

  ghost predicate CountsAsRow(inv: Snapshot, g: Group, x: Time) {
    CountsTag(g, x) || CountsRow(g, x) || CountsLoose(inv, g, x)
  }

  /** The newest of the times that the group's rows and tags count, 0 without one. */
  ghost predicate RowTimed(inv: Snapshot, g: Group) {
    && g.links == []
    && (forall x: Time :: CountsAsRow(inv, g, x) ==> x <= g.lastAccessAt)
    && (g.lastAccessAt == 0 || CountsAsRow(inv, g, g.lastAccessAt))
  }

  // ---------------------------------------------------------------------------
  // Placing rows

  function Newer(a: Time, b: Time): Time { if b > a then b else a }

  function AddTagged(g: Group, t: Tag, m: Manifest): Group {
    g.(tags := g.tags + [t], manifests := g.manifests + [m], digests := g.digests + [m.digest],
       lastAccessAt := Newer(Newer(g.lastAccessAt, TagTime(t)), if m.reference == t.reference then RowTime(m) else 0))
  }

  function AddLoose(g: Group, m: Manifest): Group {
    g.(manifests := g.manifests + [m], digests := g.digests + [m.digest],
       lastAccessAt := Newer(g.lastAccessAt, m.updatedAt))
  }

  lemma TaggedSound(n: Naming, inv: Snapshot, ref: GroupRef, g: Group, t: Tag, m: Manifest)
    requires Sound(n, inv, ref, g) && t in inv.tags && m in inv.manifests && Owned(n, m) && Brings(n, t, m, ref)
    ensures Sound(n, inv, ref, AddTagged(g, t, m))
  {
    var next := AddTagged(g, t, m);
    assert Explained(n, inv, ref, m);
    assert forall q :: q in next.manifests <==> q in g.manifests || q == m;
    assert forall q :: q in next.tags <==> q in g.tags || q == t;
    assert forall d :: d in next.digests <==> d in g.digests || d == m.digest;
  }

  /** The tag resolves to one row, so no other pair of a tag and a row appears. */
  lemma TaggedTimed(n: Naming, inv: Snapshot, ref: GroupRef, g: Group, t: Tag, m: Manifest)
    requires Sound(n, inv, ref, g) && RowTimed(inv, g) && t in inv.tags && ManifestTriple(m) == TagTarget(t)
    requires forall q :: q in g.manifests && ManifestTriple(q) == TagTarget(t) ==> q == m
    ensures RowTimed(inv, AddTagged(g, t, m))
  {
    var next := AddTagged(g, t, m);
    assert forall q :: q in next.manifests <==> q in g.manifests || q == m;
    assert forall q :: q in next.tags <==> q in g.tags || q == t;
    forall x: Time | CountsAsRow(inv, next, x) ensures x <= next.lastAccessAt {
      if !CountsAsRow(inv, g, x) && !CountsTag(next, x) && !CountsLoose(inv, next, x) {
        var u, q :| u in next.tags && q in next.manifests && ManifestTriple(q) == TagTarget(u) &&
          q.reference == u.reference && x == RowTime(q);
        assert (u in g.tags && q in g.manifests) || (u == t && q == m);
        assert x == RowTime(m) && m.reference == t.reference;
      }
    }
    TaggedJustified(inv, g, t, m);
  }

  lemma TaggedJustified(inv: Snapshot, g: Group, t: Tag, m: Manifest)
    requires RowTimed(inv, g) && ManifestTriple(m) == TagTarget(t)
    ensures var next := AddTagged(g, t, m); next.lastAccessAt == 0 || CountsAsRow(inv, next, next.lastAccessAt)
  {
    var next := AddTagged(g, t, m);
    var x := next.lastAccessAt;
    assert t in next.tags && m in next.manifests;
    if x == g.lastAccessAt && x != 0 {
      CountsKept(inv, g, next, x);
    } else if x == TagTime(t) {
      assert CountsTag(next, x);
    } else if x != 0 {
      assert CountsRow(next, x);
    }
  }

  lemma CountsKept(inv: Snapshot, g: Group, next: Group, x: Time)
    requires forall t :: t in g.tags ==> t in next.tags
    requires forall m :: m in g.manifests ==> m in next.manifests
    ensures CountsAsRow(inv, g, x) ==> CountsAsRow(inv, next, x)
  {
  }

  lemma LooseSound(n: Naming, inv: Snapshot, ref: GroupRef, g: Group, m: Manifest)
    requires Sound(n, inv, ref, g) && m in inv.manifests && Owned(n, m) && RefFor(n, LooseTriple(m)) == ref &&
      Untagged(inv.tags, m)
    ensures Sound(n, inv, ref, AddLoose(g, m))
  {
    var next := AddLoose(g, m);
    assert forall q :: q in next.manifests <==> q in g.manifests || q == m;
  }

  lemma LooseTimed(n: Naming, inv: Snapshot, ref: GroupRef, g: Group, m: Manifest)
    requires Sound(n, inv, ref, g) && RowTimed(inv, g) && Untagged(inv.tags, m)
    ensures RowTimed(inv, AddLoose(g, m))
  {
    var next := AddLoose(g, m);
    assert forall q :: q in next.manifests <==> q in g.manifests || q == m;
    forall x: Time | CountsAsRow(inv, next, x) ensures x <= next.lastAccessAt {
      assert CountsAsRow(inv, g, x) || x == m.updatedAt;
    }
    if next.lastAccessAt == m.updatedAt {
      assert m in next.manifests && CountsLoose(inv, next, m.updatedAt);
    } else {
      CountsKept(inv, g, next, g.lastAccessAt);
    }
  }

  // ---------------------------------------------------------------------------
  // The planner's maps

  /** `if !slices.Contains(refs[k], ref) { refs[k] = append(refs[k], ref) }` */
  function Register<K(!new)>(refs: map<K, seq<GroupRef>>, k: K, ref: GroupRef): (next: map<K, seq<GroupRef>>)
    ensures forall j, r :: r in At(next, j) <==> r in At(refs, j) || (j == k && r == ref)
    ensures (forall j :: Distinct(At(refs, j))) ==> forall j :: Distinct(At(next, j))
  {
    var next := if ref in At(refs, k) then refs else refs[k := At(refs, k) + [ref]];
    assert forall j :: At(next, j) == if j == k && ref !in At(refs, k) then At(refs, k) + [ref] else At(refs, j);
    next
  }

  ghost predicate Distinct<T>(s: seq<T>) {
    forall i, j :: 0 <= i < j < |s| ==> s[i] != s[j]
  }

  type Groups = map<GroupRef, Group>

  ghost predicate HasDigest(groups: Groups, ref: GroupRef, d: string) {
    ref in groups && d in groups[ref].digests
  }

  ghost predicate OwnersExact(owners: map<string, seq<GroupRef>>, groups: Groups) {
    && (forall d, ref :: ref in At(owners, d) <==> HasDigest(groups, ref, d))
    && (forall d :: Distinct(At(owners, d)))
  }

  ghost predicate ByDigestExact(byDigest: map<Triple, seq<GroupRef>>, groups: Groups) {
    && (forall k, ref :: ref in At(byDigest, k) <==>
      k.alias == ref.alias && k.repository == ref.repository && HasDigest(groups, ref, k.name))
    && (forall k :: Distinct(At(byDigest, k)))
  }

  /** A name of the group: a tag's reference, or an untagged row's own. */
  ghost predicate NamedIn(inv: Snapshot, g: Group, k: Triple) {
    || (exists t :: t in g.tags && TagTriple(t) == k)
    || (exists m :: m in g.manifests && Untagged(inv.tags, m) && LooseTriple(m) == k)
  }

  ghost predicate RefsExact(n: Naming, inv: Snapshot, refs: map<Triple, GroupRef>, groups: Groups) {
    && (forall k :: k in refs ==> refs[k] == RefFor(n, k))
    && (forall k :: k in refs <==> RefFor(n, k) in groups && NamedIn(inv, groups[RefFor(n, k)], k))
  }

  ghost predicate AllSound(n: Naming, inv: Snapshot, groups: Groups) {
    forall ref :: ref in groups ==> Sound(n, inv, ref, groups[ref])
  }

  ghost predicate AllTimed(inv: Snapshot, groups: Groups) {
    forall ref :: ref in groups ==> RowTimed(inv, groups[ref])
  }

  datatype Maps = Maps(
    groups: Groups, refs: map<Triple, GroupRef>,
    byDigest: map<Triple, seq<GroupRef>>, owners: map<string, seq<GroupRef>>)

  ghost predicate Consistent(n: Naming, inv: Snapshot, s: Maps) {
    && AllSound(n, inv, s.groups) && AllTimed(inv, s.groups)
    && OwnersExact(s.owners, s.groups) && ByDigestExact(s.byDigest, s.groups) && RefsExact(n, inv, s.refs, s.groups)
  }

  /** `groupFor`: the group of a name, created empty. */
  function GroupFor(n: Naming, groups: Groups, ref: GroupRef): Group {
    if ref in groups then groups[ref] else Group(n.ecosystem, ref.alias, ref.key, 0, [], [], [], [])
  }

  function PlaceTagged(n: Naming, s: Maps, t: Tag, m: Manifest): Maps {
    Place(n, s, TagTriple(t), m, AddTagged(GroupFor(n, s.groups, RefFor(n, TagTriple(t))), t, m))
  }

  function PlaceLoose(n: Naming, s: Maps, m: Manifest): Maps {
    Place(n, s, LooseTriple(m), m, AddLoose(GroupFor(n, s.groups, RefFor(n, LooseTriple(m))), m))
  }

  function Place(n: Naming, s: Maps, k: Triple, m: Manifest, g: Group): Maps {
    var ref := RefFor(n, k);
    Maps(s.groups[ref := g], s.refs[k := ref],
         Register(s.byDigest, Triple(ref.alias, ref.repository, m.digest), ref), Register(s.owners, m.digest, ref))
  }

  /** The group gained one digest and one name. */
  ghost predicate Gained(inv: Snapshot, was: Group, g: Group, d: string, k: Triple) {
    && (forall x :: x in g.digests <==> x in was.digests || x == d)
    && (forall x :: NamedIn(inv, g, x) <==> NamedIn(inv, was, x) || x == k)
  }

  lemma DigestPlace(groups: Groups, ref: GroupRef, g: Group, d: string)
    requires forall x :: x in g.digests <==> HasDigest(groups, ref, x) || x == d
    ensures forall q, x :: HasDigest(groups[ref := g], q, x) <==> HasDigest(groups, q, x) || (q == ref && x == d)
  {
    forall q, x ensures HasDigest(groups[ref := g], q, x) <==> HasDigest(groups, q, x) || (q == ref && x == d) {
      if q == ref {
        assert HasDigest(groups[ref := g], q, x) <==> x in g.digests;
      }
    }
  }

  lemma AllPlace(n: Naming, inv: Snapshot, groups: Groups, ref: GroupRef, g: Group)
    requires AllSound(n, inv, groups) && AllTimed(inv, groups) && Sound(n, inv, ref, g) && RowTimed(inv, g)
    ensures AllSound(n, inv, groups[ref := g]) && AllTimed(inv, groups[ref := g])
  {
  }

  lemma OwnersPlace(owners: map<string, seq<GroupRef>>, groups: Groups, ref: GroupRef, g: Group, d: string)
    requires OwnersExact(owners, groups)
    requires forall x :: x in g.digests <==> HasDigest(groups, ref, x) || x == d
    ensures OwnersExact(Register(owners, d, ref), groups[ref := g])
  {
    DigestPlace(groups, ref, g, d);
  }

  lemma ByDigestPlace(byDigest: map<Triple, seq<GroupRef>>, groups: Groups, ref: GroupRef, g: Group, d: string)
    requires ByDigestExact(byDigest, groups)
    requires forall x :: x in g.digests <==> HasDigest(groups, ref, x) || x == d
    ensures ByDigestExact(Register(byDigest, Triple(ref.alias, ref.repository, d), ref), groups[ref := g])
  {
    DigestPlace(groups, ref, g, d);
    var next := Register(byDigest, Triple(ref.alias, ref.repository, d), ref);
    forall k: Triple, q: GroupRef
      ensures q in At(next, k) <==>
        k.alias == q.alias && k.repository == q.repository && HasDigest(groups[ref := g], q, k.name)
    {
      assert q in At(byDigest, k) <==>
        k.alias == q.alias && k.repository == q.repository && HasDigest(groups, q, k.name);
      assert HasDigest(groups[ref := g], q, k.name) <==> HasDigest(groups, q, k.name) || (q == ref && k.name == d);
    }
  }

  lemma RefsPlace(n: Naming, inv: Snapshot, refs: map<Triple, GroupRef>, groups: Groups, k: Triple, g: Group)
    requires RefsExact(n, inv, refs, groups)
    requires forall x :: NamedIn(inv, g, x) <==> NamedIn(inv, GroupFor(n, groups, RefFor(n, k)), x) || x == k
    ensures RefsExact(n, inv, refs[k := RefFor(n, k)], groups[RefFor(n, k) := g])
  {
    var ref := RefFor(n, k);
    forall x ensures x in refs[k := ref] <==>
      RefFor(n, x) in groups[ref := g] && NamedIn(inv, groups[ref := g][RefFor(n, x)], x)
    {
      assert ref !in groups ==> !NamedIn(inv, GroupFor(n, groups, ref), x);
    }
  }

  lemma PlaceConsistent(n: Naming, inv: Snapshot, s: Maps, k: Triple, m: Manifest, g: Group)
    requires Consistent(n, inv, s)
    requires var ref := RefFor(n, k);
      Sound(n, inv, ref, g) && RowTimed(inv, g) && Gained(inv, GroupFor(n, s.groups, ref), g, m.digest, k)
    ensures Consistent(n, inv, Place(n, s, k, m, g))
  {
    var ref := RefFor(n, k);
    forall x ensures x in g.digests <==> HasDigest(s.groups, ref, x) || x == m.digest {
    }
    AllPlace(n, inv, s.groups, ref, g);
    OwnersPlace(s.owners, s.groups, ref, g, m.digest);
    ByDigestPlace(s.byDigest, s.groups, ref, g, m.digest);
    RefsPlace(n, inv, s.refs, s.groups, k, g);
  }

  /** No row or tag leaves its group. */
  ghost predicate Kept(a: Groups, b: Groups) {
    && (forall ref, m :: HasRow(a, ref, m) ==> HasRow(b, ref, m))
    && (forall ref, t :: HasTag(a, ref, t) ==> HasTag(b, ref, t))
  }

  ghost predicate HasRow(groups: Groups, ref: GroupRef, m: Manifest) {
    ref in groups && m in groups[ref].manifests
  }

  ghost predicate HasTag(groups: Groups, ref: GroupRef, t: Tag) {
    ref in groups && t in groups[ref].tags
  }

  lemma GroupForSound(n: Naming, inv: Snapshot, s: Maps, ref: GroupRef)
    requires Consistent(n, inv, s)
    ensures Sound(n, inv, ref, GroupFor(n, s.groups, ref)) && RowTimed(inv, GroupFor(n, s.groups, ref))
  {
    if ref !in s.groups {
      var g := GroupFor(n, s.groups, ref);
      assert forall x: Time :: !CountsAsRow(inv, g, x);
    }
  }

  lemma TaggedStep(n: Naming, inv: Snapshot, ref: GroupRef, was: Group, t: Tag, m: Manifest)
    requires UniqueKeys(inv.manifests, ManifestKey) && Sound(n, inv, ref, was) && RowTimed(inv, was)
    requires t in inv.tags && m in inv.manifests && Owned(n, m) && Brings(n, t, m, ref)
    ensures Sound(n, inv, ref, AddTagged(was, t, m)) && RowTimed(inv, AddTagged(was, t, m))
  {
    TaggedSound(n, inv, ref, was, t, m);
    forall q | q in was.manifests && ManifestTriple(q) == TagTarget(t) ensures q == m {
      UniqueRow(inv.manifests, ManifestKey, q, m);
    }
    TaggedTimed(n, inv, ref, was, t, m);
  }

  /** Replacing a group by one that has all its rows and tags. */
  lemma PlaceKeeps(n: Naming, groups: Groups, ref: GroupRef, g: Group)
    requires forall m :: m in GroupFor(n, groups, ref).manifests ==> m in g.manifests
    requires forall t :: t in GroupFor(n, groups, ref).tags ==> t in g.tags
    ensures Kept(groups, groups[ref := g])
  {
  }

  lemma PlaceTaggedConsistent(n: Naming, inv: Snapshot, s: Maps, t: Tag, m: Manifest)
    requires UniqueKeys(inv.manifests, ManifestKey) && Consistent(n, inv, s)
    requires t in inv.tags && m in inv.manifests && Owned(n, m) && ManifestTriple(m) == TagTarget(t)
    ensures Consistent(n, inv, PlaceTagged(n, s, t, m))
  {
    var ref := RefFor(n, TagTriple(t));
    var was := GroupFor(n, s.groups, ref);
    GroupForSound(n, inv, s, ref);
    TaggedStep(n, inv, ref, was, t, m);
    TaggedGains(inv, was, t, m);
    PlaceConsistent(n, inv, s, TagTriple(t), m, AddTagged(was, t, m));
  }

  lemma PlaceTaggedKeeps(n: Naming, s: Maps, t: Tag, m: Manifest)
    ensures Kept(s.groups, PlaceTagged(n, s, t, m).groups)
    ensures HasRow(PlaceTagged(n, s, t, m).groups, RefFor(n, TagTriple(t)), m)
    ensures HasTag(PlaceTagged(n, s, t, m).groups, RefFor(n, TagTriple(t)), t)
  {
    var ref := RefFor(n, TagTriple(t));
    PlaceKeeps(n, s.groups, ref, AddTagged(GroupFor(n, s.groups, ref), t, m));
  }

  lemma TaggedGains(inv: Snapshot, was: Group, t: Tag, m: Manifest)
    requires t in inv.tags && ManifestTriple(m) == TagTarget(t)
    ensures Gained(inv, was, AddTagged(was, t, m), m.digest, TagTriple(t))
  {
    var g := AddTagged(was, t, m);
    assert forall q :: q in g.manifests <==> q in was.manifests || q == m;
    assert forall q :: q in g.tags <==> q in was.tags || q == t;
  }

  lemma PlaceLooseConsistent(n: Naming, inv: Snapshot, s: Maps, m: Manifest)
    requires Consistent(n, inv, s) && m in inv.manifests && Owned(n, m) && Untagged(inv.tags, m)
    ensures Consistent(n, inv, PlaceLoose(n, s, m))
  {
    var ref := RefFor(n, LooseTriple(m));
    var was := GroupFor(n, s.groups, ref);
    GroupForSound(n, inv, s, ref);
    LooseSound(n, inv, ref, was, m);
    LooseTimed(n, inv, ref, was, m);
    LooseGains(inv, was, m);
    PlaceConsistent(n, inv, s, LooseTriple(m), m, AddLoose(was, m));
  }

  lemma PlaceLooseKeeps(n: Naming, s: Maps, m: Manifest)
    ensures Kept(s.groups, PlaceLoose(n, s, m).groups)
    ensures HasRow(PlaceLoose(n, s, m).groups, RefFor(n, LooseTriple(m)), m)
  {
    var ref := RefFor(n, LooseTriple(m));
    PlaceKeeps(n, s.groups, ref, AddLoose(GroupFor(n, s.groups, ref), m));
  }

  lemma LooseGains(inv: Snapshot, was: Group, m: Manifest)
    requires Untagged(inv.tags, m)
    ensures Gained(inv, was, AddLoose(was, m), m.digest, LooseTriple(m))
  {
    var g := AddLoose(was, m);
    assert forall q :: q in g.manifests <==> q in was.manifests || q == m;
  }

  // ---------------------------------------------------------------------------
  // Activity of blobs, links and pulls

  /** The rows placed and the digests of other ecosystems. */
  datatype Basis = Basis(naming: Naming, inv: Snapshot, rows: Groups, foreign: set<string>)

  /** The activity applied so far. */
  datatype Seen = Seen(blobs: seq<Blob>, links: seq<Link>, pulls: seq<Pull>)

  /** `ref` is the only group with the digest, and no other ecosystem has it. */
  ghost predicate Sole(b: Basis, ref: GroupRef, d: string) {
    d !in b.foreign && forall q :: HasDigest(b.rows, q, d) ==> q == ref
  }

  ghost predicate Holds(b: Basis, ref: GroupRef, l: Link) {
    l.alias == ref.alias && l.repository == ref.repository && HasDigest(b.rows, ref, l.digest)
  }

  ghost predicate Pulled(b: Basis, ref: GroupRef, p: Pull) {
    var k := PullName(b.naming, p);
    RefFor(b.naming, k) == ref && ref in b.rows && NamedIn(b.inv, b.rows[ref], k)
  }

  ghost predicate CountsBlob(b: Basis, blobs: seq<Blob>, ref: GroupRef, x: Time) {
    exists r :: r in blobs && HasDigest(b.rows, ref, r.digest) && Sole(b, ref, r.digest) && x == BlobTime(r)
  }

  ghost predicate CountsLink(b: Basis, links: seq<Link>, ref: GroupRef, x: Time) {
    exists l :: l in links && Holds(b, ref, l) && Sole(b, ref, l.digest) && x == LinkTime(l)
  }

  ghost predicate CountsPull(b: Basis, pulls: seq<Pull>, ref: GroupRef, x: Time) {
    exists p :: p in pulls && Pulled(b, ref, p) && x == PullTime(p)
  }

  /** The times that count for a group. A digest that another group or another
      ecosystem shares contributes nothing through its blob or its links. */
  ghost predicate Counts(b: Basis, seen: Seen, ref: GroupRef, x: Time)
    requires ref in b.rows
  {
    || CountsAsRow(b.inv, b.rows[ref], x) || CountsBlob(b, seen.blobs, ref, x)
    || CountsLink(b, seen.links, ref, x) || CountsPull(b, seen.pulls, ref, x)
  }

  ghost predicate Timed(b: Basis, seen: Seen, ref: GroupRef, last: Time)
    requires ref in b.rows
  {
    && (forall x: Time :: Counts(b, seen, ref, x) ==> x <= last)
    && (last == 0 || Counts(b, seen, ref, last))
  }

  /** Activity that adds nothing newer than `t`. */
  lemma TimedStep(b: Basis, seen: Seen, more: Seen, ref: GroupRef, last: Time, t: Time)
    requires ref in b.rows && Timed(b, seen, ref, last)
    requires forall x: Time :: Counts(b, more, ref, x) ==> Counts(b, seen, ref, x) || x <= t
    requires forall x: Time :: Counts(b, seen, ref, x) ==> Counts(b, more, ref, x)
    requires t == 0 || Counts(b, more, ref, t)
    ensures Timed(b, more, ref, Newer(last, t))
  {
  }

  lemma RowsTimed(b: Basis, ref: GroupRef)
    requires ref in b.rows && RowTimed(b.inv, b.rows[ref])
    ensures Timed(b, Seen([], [], []), ref, b.rows[ref].lastAccessAt)
  {
    assert forall x: Time :: Counts(b, Seen([], [], []), ref, x) <==> CountsAsRow(b.inv, b.rows[ref], x);
  }

  /** The two tests that the planner makes of its maps. */
  lemma SingleOwner(b: Basis, owners: map<string, seq<GroupRef>>, ref: GroupRef, d: string)
    requires OwnersExact(owners, b.rows) && HasDigest(b.rows, ref, d)
    ensures (d !in b.foreign && |At(owners, d)| == 1) <==> Sole(b, ref, d)
  {
    var at := At(owners, d);
    assert ref in at && Distinct(at);
    if |at| == 1 {
      assert forall q :: q in at ==> q == ref;
    } else {
      var q := if at[0] == ref then at[1] else at[0];
      assert q in at && q != ref && HasDigest(b.rows, q, d);
    }
  }

  /** The newest access of each digest. */
  ghost predicate AccessOf(blobs: seq<Blob>, access: map<string, Time>) {
    && (forall r :: r in blobs ==> r.digest in access && BlobTime(r) <= access[r.digest])
    && (forall d :: d in access ==>
      access[d] == 0 || exists r :: r in blobs && r.digest == d && BlobTime(r) == access[d])
  }

  method AccessByDigest(blobs: seq<Blob>) returns (access: map<string, Time>)
    ensures AccessOf(blobs, access)
  {
    access := map[];
    for i := 0 to |blobs|
      invariant AccessOf(blobs[..i], access)
    {
      var r := blobs[i];
      assert blobs[..i + 1] == blobs[..i] + [r];
      var current := if r.digest in access then access[r.digest] else 0;
      ghost var before := access;
      access := access[r.digest := Newer(current, BlobTime(r))];
      assert r in blobs[..i + 1];
      forall d | d in access
        ensures access[d] == 0 || exists q :: q in blobs[..i + 1] && q.digest == d && BlobTime(q) == access[d]
      {
        if d in before && access[d] == before[d] && before[d] != 0 {
          var q :| q in blobs[..i] && q.digest == d && BlobTime(q) == before[d];
          assert q in blobs[..i + 1];
        }
      }
    }
    assert blobs[..|blobs|] == blobs;
  }

  /** One group's share of the blob access. */
  method BlobActivity(ghost b: Basis, blobs: seq<Blob>, access: map<string, Time>, owners: map<string, seq<GroupRef>>,
                      foreign: set<string>, ref: GroupRef, g: Group) returns (last: Time)
    requires AccessOf(blobs, access) && OwnersExact(owners, b.rows) && foreign == b.foreign
    requires ref in b.rows && g.digests == b.rows[ref].digests && Timed(b, Seen([], [], []), ref, g.lastAccessAt)
    ensures Timed(b, Seen(blobs, [], []), ref, last)
  {
    var newest := 0;
    for i := 0 to |g.digests|
      invariant newest == 0 || CountsBlob(b, blobs, ref, newest)
      invariant forall r :: r in blobs && r.digest in g.digests[..i] && Sole(b, ref, r.digest) ==> BlobTime(r) <= newest
    {
      var d := g.digests[i];
      assert g.digests[..i + 1] == g.digests[..i] + [d];
      assert HasDigest(b.rows, ref, d);
      SingleOwner(b, owners, ref, d);
      if d !in foreign && |At(owners, d)| == 1 && d in access {
        newest := Newer(newest, access[d]);
      }
    }
    assert g.digests[..|g.digests|] == g.digests;
    BlobsTimed(b, blobs, ref, g.lastAccessAt, newest);
    last := Newer(g.lastAccessAt, newest);
  }

  lemma BlobsTimed(b: Basis, blobs: seq<Blob>, ref: GroupRef, last: Time, newest: Time)
    requires ref in b.rows && Timed(b, Seen([], [], []), ref, last)
    requires newest == 0 || CountsBlob(b, blobs, ref, newest)
    requires forall x: Time :: CountsBlob(b, blobs, ref, x) ==> x <= newest
    ensures Timed(b, Seen(blobs, [], []), ref, Newer(last, newest))
  {
    TimedStep(b, Seen([], [], []), Seen(blobs, [], []), ref, last, newest);
  }

  /** A group after some of the activity: its rows are as placed, its links are
      exactly the ones seen, and its time is the newest that counts. */
  ghost predicate Staged(b: Basis, seen: Seen, ref: GroupRef, g: Group) {
    && ref in b.rows && g == b.rows[ref].(links := g.links, lastAccessAt := g.lastAccessAt)
    && (forall l :: l in g.links <==> l in seen.links && Holds(b, ref, l))
    && Timed(b, seen, ref, g.lastAccessAt)
  }

  ghost predicate AllStaged(b: Basis, seen: Seen, groups: Groups) {
    groups.Keys == b.rows.Keys && forall ref :: ref in groups ==> Staged(b, seen, ref, groups[ref])
  }

  function AddLink(g: Group, l: Link, counted: bool): Group {
    g.(links := g.links + [l], lastAccessAt := if counted then Newer(g.lastAccessAt, LinkTime(l)) else g.lastAccessAt)
  }

  function OneMoreLink(seen: Seen, l: Link): Seen { seen.(links := seen.links + [l]) }

  function OneMorePull(seen: Seen, p: Pull): Seen { seen.(pulls := seen.pulls + [p]) }

  lemma LinkCounts(b: Basis, seen: Seen, ref: GroupRef, l: Link)
    requires ref in b.rows
    ensures forall x: Time :: Counts(b, OneMoreLink(seen, l), ref, x) <==>
      Counts(b, seen, ref, x) || (Holds(b, ref, l) && Sole(b, ref, l.digest) && x == LinkTime(l))
  {
    var more := OneMoreLink(seen, l);
    assert forall q :: q in more.links <==> q in seen.links || q == l;
    assert forall x: Time :: CountsLink(b, more.links, ref, x) <==>
      CountsLink(b, seen.links, ref, x) || (Holds(b, ref, l) && Sole(b, ref, l.digest) && x == LinkTime(l));
  }

  lemma LinkStaged(b: Basis, seen: Seen, ref: GroupRef, g: Group, l: Link)
    requires Staged(b, seen, ref, g) && Holds(b, ref, l)
    ensures Staged(b, OneMoreLink(seen, l), ref, AddLink(g, l, Sole(b, ref, l.digest)))
  {
    LinkCounts(b, seen, ref, l);
    if Sole(b, ref, l.digest) {
      TimedStep(b, seen, OneMoreLink(seen, l), ref, g.lastAccessAt, LinkTime(l));
    } else {
      TimedStep(b, seen, OneMoreLink(seen, l), ref, g.lastAccessAt, 0);
    }
  }

  lemma LinkElsewhere(b: Basis, seen: Seen, ref: GroupRef, g: Group, l: Link)
    requires Staged(b, seen, ref, g) && !Holds(b, ref, l)
    ensures Staged(b, OneMoreLink(seen, l), ref, g)
  {
    LinkCounts(b, seen, ref, l);
    TimedStep(b, seen, OneMoreLink(seen, l), ref, g.lastAccessAt, 0);
  }

  lemma PullCounts(b: Basis, seen: Seen, ref: GroupRef, p: Pull)
    requires ref in b.rows
    ensures forall x: Time :: Counts(b, OneMorePull(seen, p), ref, x) <==>
      Counts(b, seen, ref, x) || (Pulled(b, ref, p) && x == PullTime(p))
  {
    var more := OneMorePull(seen, p);
    assert forall q :: q in more.pulls <==> q in seen.pulls || q == p;
    assert forall x: Time :: CountsPull(b, more.pulls, ref, x) <==>
      CountsPull(b, seen.pulls, ref, x) || (Pulled(b, ref, p) && x == PullTime(p));
  }

  lemma PullStaged(b: Basis, seen: Seen, ref: GroupRef, g: Group, p: Pull)
    requires Staged(b, seen, ref, g)
    ensures Staged(b, OneMorePull(seen, p), ref,
                   if Pulled(b, ref, p) then g.(lastAccessAt := Newer(g.lastAccessAt, PullTime(p))) else g)
  {
    PullCounts(b, seen, ref, p);
    TimedStep(b, seen, OneMorePull(seen, p), ref, g.lastAccessAt, if Pulled(b, ref, p) then PullTime(p) else 0);
  }

  ghost predicate MapsExact(b: Basis, s: Maps) {
    && OwnersExact(s.owners, b.rows) && ByDigestExact(s.byDigest, b.rows)
    && RefsExact(b.naming, b.inv, s.refs, b.rows)
  }

  function PullAccess(n: Naming, s: Maps, p: Pull): Maps {
    var k := PullName(n, p);
    if k in s.refs && s.refs[k] in s.groups then s.(groups := Touch(s.groups, s.refs[k], PullTime(p))) else s
  }

  lemma PullApplied(b: Basis, seen: Seen, s: Maps, p: Pull)
    requires MapsExact(b, s) && AllStaged(b, seen, s.groups)
    ensures MapsExact(b, PullAccess(b.naming, s, p)) &&
      AllStaged(b, OneMorePull(seen, p), PullAccess(b.naming, s, p).groups)
  {
    PullGroups(b, seen, s.groups, s.refs, p);
  }

  function Touch(groups: Groups, ref: GroupRef, t: Time): Groups
    requires ref in groups
  {
    groups[ref := groups[ref].(lastAccessAt := Newer(groups[ref].lastAccessAt, t))]
  }

  lemma PullGroups(b: Basis, seen: Seen, groups: Groups, refs: map<Triple, GroupRef>, p: Pull)
    requires AllStaged(b, seen, groups) && RefsExact(b.naming, b.inv, refs, b.rows)
    ensures var k := PullName(b.naming, p);
      (k in refs ==> refs[k] in groups) &&
      AllStaged(b, OneMorePull(seen, p), if k in refs then Touch(groups, refs[k], PullTime(p)) else groups)
  {
    forall ref | ref in groups
      ensures Staged(b, OneMorePull(seen, p), ref,
                     if Pulled(b, ref, p) then
                       groups[ref].(lastAccessAt := Newer(groups[ref].lastAccessAt, PullTime(p))) else groups[ref])
    {
      PullStaged(b, seen, ref, groups[ref], p);
    }
    var k := PullName(b.naming, p);
    assert k in refs <==> Pulled(b, RefFor(b.naming, k), p);
  }

  /** Some of the groups that hold a link have it already. */
  ghost predicate PartStaged(b: Basis, seen: Seen, l: Link, linked: seq<GroupRef>, groups: Groups) {
    && groups.Keys == b.rows.Keys
    && forall ref :: ref in groups ==> Staged(b, if ref in linked then OneMoreLink(seen, l) else seen, ref, groups[ref])
  }

  lemma PartStep(b: Basis, seen: Seen, l: Link, linked: seq<GroupRef>, groups: Groups, ref: GroupRef)
    requires PartStaged(b, seen, l, linked, groups) && ref !in linked && Holds(b, ref, l)
    ensures ref in groups &&
      PartStaged(b, seen, l, linked + [ref], groups[ref := AddLink(groups[ref], l, Sole(b, ref, l.digest))])
  {
    assert ref in groups;
    LinkStaged(b, seen, ref, groups[ref], l);
    var next := groups[ref := AddLink(groups[ref], l, Sole(b, ref, l.digest))];
    forall q | q in next ensures Staged(b, if q in linked + [ref] then OneMoreLink(seen, l) else seen, q, next[q]) {
      assert q in linked + [ref] <==> q in linked || q == ref;
    }
  }

  /** A link joins every group at its key. */
  method LinkGroups(ghost b: Basis, ghost seen: Seen, l: Link, at: seq<GroupRef>, counted: bool, groups: Groups)
    returns (next: Groups)
    requires AllStaged(b, seen, groups) && Distinct(at)
    requires forall ref :: ref in at <==> Holds(b, ref, l)
    requires forall ref :: ref in at ==> (counted <==> Sole(b, ref, l.digest))
    ensures AllStaged(b, OneMoreLink(seen, l), next)
  {
    next := groups;
    for j := 0 to |at|
      invariant PartStaged(b, seen, l, at[..j], next)
    {
      var ref := at[j];
      assert at[..j + 1] == at[..j] + [ref] && ref !in at[..j];
      assert ref in at;
      PartStep(b, seen, l, at[..j], next, ref);
      next := next[ref := AddLink(next[ref], l, counted)];
    }
    assert at[..|at|] == at;
    forall ref | ref in next ensures Staged(b, OneMoreLink(seen, l), ref, next[ref]) {
      if ref !in at {
        LinkElsewhere(b, seen, ref, next[ref], l);
      }
    }
  }

  // ---------------------------------------------------------------------------
  // The planner

  ghost predicate TagsPlaced(n: Naming, inv: Snapshot, tags: seq<Tag>, groups: Groups) {
    forall t, m :: t in tags && m in inv.manifests && Owned(n, m) && ManifestTriple(m) == TagTarget(t) ==>
      HasRow(groups, RefFor(n, TagTriple(t)), m) && HasTag(groups, RefFor(n, TagTriple(t)), t)
  }

  ghost predicate LoosePlaced(n: Naming, inv: Snapshot, keys: set<Triple>, groups: Groups) {
    forall m :: m in inv.manifests && Owned(n, m) && Untagged(inv.tags, m) && ManifestTriple(m) in keys ==>
      HasRow(groups, RefFor(n, LooseTriple(m)), m)
  }

  /** Some tag resolves to an indexed row at the key. */
  ghost predicate Targeted(manifests: map<Triple, seq<Manifest>>, tags: seq<Tag>, k: Triple) {
    At(manifests, k) != [] && exists t :: t in tags && TagTarget(t) == k
  }

  lemma TargetedMore(manifests: map<Triple, seq<Manifest>>, tags: seq<Tag>, t: Tag)
    ensures forall k :: Targeted(manifests, tags + [t], k) <==>
      Targeted(manifests, tags, k) || (k == TagTarget(t) && At(manifests, k) != [])
  {
    assert forall q :: q in tags + [t] <==> q in tags || q == t;
  }

  lemma TagsPlacedMore(n: Naming, inv: Snapshot, tags: seq<Tag>, t: Tag, before: Groups, after: Groups)
    requires TagsPlaced(n, inv, tags, before) && Kept(before, after) && TagsPlaced(n, inv, [t], after)
    ensures TagsPlaced(n, inv, tags + [t], after)
  {
  }

  function PlaceAllTagged(n: Naming, s: Maps, t: Tag, rows: seq<Manifest>): Maps {
    if rows == [] then s
    else PlaceTagged(n, PlaceAllTagged(n, s, t, rows[..|rows| - 1]), t, rows[|rows| - 1])
  }

  function PlaceAllLoose(n: Naming, s: Maps, rows: seq<Manifest>): Maps {
    if rows == [] then s
    else PlaceLoose(n, PlaceAllLoose(n, s, rows[..|rows| - 1]), rows[|rows| - 1])
  }

  lemma {:induction false} AllTaggedConsistent(n: Naming, inv: Snapshot, s: Maps, t: Tag, rows: seq<Manifest>)
    requires UniqueKeys(inv.manifests, ManifestKey) && t in inv.tags && Consistent(n, inv, s)
    requires forall i :: 0 <= i < |rows| ==>
      rows[i] in inv.manifests && Owned(n, rows[i]) && ManifestTriple(rows[i]) == TagTarget(t)
    ensures Consistent(n, inv, PlaceAllTagged(n, s, t, rows))
  {
    if rows != [] {
      AllTaggedConsistent(n, inv, s, t, rows[..|rows| - 1]);
      PlaceTaggedConsistent(n, inv, PlaceAllTagged(n, s, t, rows[..|rows| - 1]), t, rows[|rows| - 1]);
    }
  }

  lemma KeptTransitive(a: Groups, b: Groups, c: Groups)
    requires Kept(a, b) && Kept(b, c)
    ensures Kept(a, c)
  {
  }

  /** Rows stay where they are when one more is placed. */
  lemma RowsStay(before: Groups, after: Groups, refOf: Manifest -> GroupRef, rows: seq<Manifest>)
    requires Kept(before, after) && rows != [] && HasRow(after, refOf(rows[|rows| - 1]), rows[|rows| - 1])
    requires forall i :: 0 <= i < |rows| - 1 ==> HasRow(before, refOf(rows[i]), rows[i])
    ensures forall i :: 0 <= i < |rows| ==> HasRow(after, refOf(rows[i]), rows[i])
  {
  }

  lemma {:induction false} AllTaggedKept(n: Naming, s: Maps, t: Tag, rows: seq<Manifest>)
    ensures Kept(s.groups, PlaceAllTagged(n, s, t, rows).groups)
    ensures forall i :: 0 <= i < |rows| ==>
      HasRow(PlaceAllTagged(n, s, t, rows).groups, RefFor(n, TagTriple(t)), rows[i])
    ensures rows != [] ==> HasTag(PlaceAllTagged(n, s, t, rows).groups, RefFor(n, TagTriple(t)), t)
  {
    if rows != [] {
      var most, last := rows[..|rows| - 1], rows[|rows| - 1];
      var before := PlaceAllTagged(n, s, t, most);
      var after := PlaceTagged(n, before, t, last).groups;
      AllTaggedKept(n, s, t, most);
      PlaceTaggedKeeps(n, before, t, last);
      KeptTransitive(s.groups, before.groups, after);
      assert forall i :: 0 <= i < |most| ==> most[i] == rows[i];
      RowsStay(before.groups, after, (m: Manifest) => RefFor(n, TagTriple(t)), rows);
    }
  }

  lemma {:induction false} AllLooseConsistent(n: Naming, inv: Snapshot, s: Maps, rows: seq<Manifest>)
    requires Consistent(n, inv, s)
    requires forall i :: 0 <= i < |rows| ==>
      rows[i] in inv.manifests && Owned(n, rows[i]) && Untagged(inv.tags, rows[i])
    ensures Consistent(n, inv, PlaceAllLoose(n, s, rows))
  {
    if rows != [] {
      AllLooseConsistent(n, inv, s, rows[..|rows| - 1]);
      PlaceLooseConsistent(n, inv, PlaceAllLoose(n, s, rows[..|rows| - 1]), rows[|rows| - 1]);
    }
  }

  lemma {:induction false} AllLooseKept(n: Naming, s: Maps, rows: seq<Manifest>)
    ensures Kept(s.groups, PlaceAllLoose(n, s, rows).groups)
    ensures forall i :: 0 <= i < |rows| ==>
      HasRow(PlaceAllLoose(n, s, rows).groups, RefFor(n, LooseTriple(rows[i])), rows[i])
  {
    if rows != [] {
      var most, last := rows[..|rows| - 1], rows[|rows| - 1];
      var before := PlaceAllLoose(n, s, most);
      var after := PlaceLoose(n, before, last).groups;
      AllLooseKept(n, s, most);
      PlaceLooseKeeps(n, before, last);
      KeptTransitive(s.groups, before.groups, after);
      assert forall i :: 0 <= i < |most| ==> most[i] == rows[i];
      RowsStay(before.groups, after, (m: Manifest) => RefFor(n, LooseTriple(m)), rows);
    }
  }

  /** A tag and the rows it resolves to join the tag's group. */
  method PlaceTagRows(n: Naming, s: Maps, t: Tag, rows: seq<Manifest>) returns (next: Maps)
    ensures next == PlaceAllTagged(n, s, t, rows)
  {
    next := s;
    for j := 0 to |rows|
      invariant next == PlaceAllTagged(n, s, t, rows[..j])
    {
      assert rows[..j + 1][..j] == rows[..j];
      next := PlaceTagged(n, next, t, rows[j]);
    }
    assert rows[..|rows|] == rows;
  }

  /** The untagged rows of a key join the groups of their references. */
  method PlaceLooseRows(n: Naming, s: Maps, rows: seq<Manifest>) returns (next: Maps)
    ensures next == PlaceAllLoose(n, s, rows)
  {
    next := s;
    for j := 0 to |rows|
      invariant next == PlaceAllLoose(n, s, rows[..j])
    {
      assert rows[..j + 1][..j] == rows[..j];
      next := PlaceLoose(n, next, rows[j]);
    }
    assert rows[..|rows|] == rows;
  }

  lemma TagPlaced(n: Naming, inv: Snapshot, s: Maps, t: Tag, rows: seq<Manifest>)
    requires UniqueKeys(inv.manifests, ManifestKey) && t in inv.tags && Consistent(n, inv, s)
    requires forall m :: m in rows <==> m in inv.manifests && Owned(n, m) && ManifestTriple(m) == TagTarget(t)
    ensures var next := PlaceAllTagged(n, s, t, rows);
      Consistent(n, inv, next) && Kept(s.groups, next.groups) && TagsPlaced(n, inv, [t], next.groups)
  {
    assert forall i :: 0 <= i < |rows| ==> rows[i] in rows;
    AllTaggedConsistent(n, inv, s, t, rows);
    AllTaggedKept(n, s, t, rows);
    TagDone(n, inv, t, rows, PlaceAllTagged(n, s, t, rows).groups);
  }

  /** One more tag placed, with the indexed rows at its target. */
  lemma TagStep(n: Naming, inv: Snapshot, manifests: map<Triple, seq<Manifest>>, s: Maps, tags: seq<Tag>, t: Tag)
    requires UniqueKeys(inv.manifests, ManifestKey) && t in inv.tags && Consistent(n, inv, s)
    requires forall k, m :: m in At(manifests, k) <==> m in inv.manifests && Owned(n, m) && ManifestTriple(m) == k
    requires TagsPlaced(n, inv, tags, s.groups)
    ensures var next := PlaceAllTagged(n, s, t, At(manifests, TagTarget(t)));
      Consistent(n, inv, next) && TagsPlaced(n, inv, tags + [t], next.groups)
  {
    var rows := At(manifests, TagTarget(t));
    forall m ensures m in rows <==> m in inv.manifests && Owned(n, m) && ManifestTriple(m) == TagTarget(t) {
      assert m in At(manifests, TagTarget(t)) <==>
        m in inv.manifests && Owned(n, m) && ManifestTriple(m) == TagTarget(t);
    }
    TagPlaced(n, inv, s, t, rows);
    TagsPlacedMore(n, inv, tags, t, s.groups, PlaceAllTagged(n, s, t, rows).groups);
  }

  /** A tag joins its group with the indexed rows at its target. */
  method PlaceTag(n: Naming, ghost inv: Snapshot, manifests: map<Triple, seq<Manifest>>, s: Maps, t: Tag,
                  ghost tags: seq<Tag>)
    returns (next: Maps, hit: bool)
    requires UniqueKeys(inv.manifests, ManifestKey) && t in inv.tags && Consistent(n, inv, s)
    requires forall k, m :: m in At(manifests, k) <==> m in inv.manifests && Owned(n, m) && ManifestTriple(m) == k
    requires TagsPlaced(n, inv, tags, s.groups)
    ensures Consistent(n, inv, next) && TagsPlaced(n, inv, tags + [t], next.groups)
    ensures hit <==> At(manifests, TagTarget(t)) != []
  {
    var rows := At(manifests, TagTarget(t));
    TagStep(n, inv, manifests, s, tags, t);
    next := PlaceTagRows(n, s, t, rows);
    hit := rows != [];
  }

  lemma TagDone(n: Naming, inv: Snapshot, t: Tag, rows: seq<Manifest>, groups: Groups)
    requires forall m :: m in inv.manifests && Owned(n, m) && ManifestTriple(m) == TagTarget(t) ==> m in rows
    requires forall i :: 0 <= i < |rows| ==> HasRow(groups, RefFor(n, TagTriple(t)), rows[i])
    requires rows != [] ==> HasTag(groups, RefFor(n, TagTriple(t)), t)
    ensures TagsPlaced(n, inv, [t], groups)
  {
  }

  lemma KeyPlaced(n: Naming, inv: Snapshot, s: Maps, key: Triple, rows: seq<Manifest>)
    requires Consistent(n, inv, s)
    requires forall m :: m in rows <==> m in inv.manifests && Owned(n, m) && ManifestTriple(m) == key
    requires forall t :: t in inv.tags ==> TagTarget(t) != key || rows == []
    ensures var next := PlaceAllLoose(n, s, rows);
      Consistent(n, inv, next) && Kept(s.groups, next.groups) && LoosePlaced(n, inv, {key}, next.groups)
  {
    assert forall i :: 0 <= i < |rows| ==> rows[i] in rows;
    AllLooseConsistent(n, inv, s, rows);
    AllLooseKept(n, s, rows);
    LooseDone(n, inv, key, rows, PlaceAllLoose(n, s, rows).groups);
  }

  lemma LooseDone(n: Naming, inv: Snapshot, key: Triple, rows: seq<Manifest>, groups: Groups)
    requires forall m :: m in inv.manifests && Owned(n, m) && ManifestTriple(m) == key ==> m in rows
    requires forall i :: 0 <= i < |rows| ==> HasRow(groups, RefFor(n, LooseTriple(rows[i])), rows[i])
    ensures LoosePlaced(n, inv, {key}, groups)
  {
  }

  class CleanupPlanner {
    const naming: Naming
    ghost const inv: Snapshot
    var maps: Maps
    var manifests: map<Triple, seq<Manifest>>
    var matched: set<Triple>
    var foreignDigests: set<string>

    constructor (n: Naming, ghost inventory: Snapshot)
      ensures naming == n && inv == inventory && maps == Maps(map[], map[], map[], map[])
      ensures manifests == map[] && matched == {} && foreignDigests == {}
    {
      naming, inv, maps := n, inventory, Maps(map[], map[], map[], map[]);
      manifests, matched, foreignDigests := map[], {}, {};
    }

    ghost predicate Indexed(rows: seq<Manifest>)
      reads `manifests
    {
      forall k, m :: m in At(manifests, k) <==> m in rows && Owned(naming, m) && ManifestTriple(m) == k
    }

    method IndexManifests(rows: seq<Manifest>)
      requires manifests == map[] && foreignDigests == {}
      modifies `manifests, `foreignDigests
      ensures Indexed(rows) && forall d :: d in foreignDigests <==>
        exists m :: m in rows && !Owned(naming, m) && m.digest == d
    {
      for i := 0 to |rows|
        invariant Indexed(rows[..i])
        invariant forall d :: d in foreignDigests <==> exists m :: m in rows[..i] && !Owned(naming, m) && m.digest == d
      {
        var m := rows[i];
        assert rows[..i + 1] == rows[..i] + [m];
        ghost var before := manifests;
        if !Owned(naming, m) {
          foreignDigests := foreignDigests + {m.digest};
        } else {
          var key := ManifestTriple(m);
          manifests := manifests[key := At(manifests, key) + [m]];
        }
        assert forall k, q :: q in At(manifests, k) <==>
          q in At(before, k) || (q == m && Owned(naming, m) && k == ManifestTriple(m));
      }
      assert rows[..|rows|] == rows;
    }

    /** Every tag joins its group with the row it resolves to. */
    method GroupTags(tags: seq<Tag>)
      requires ValidSnapshot(inv) && tags == inv.tags && Indexed(inv.manifests) && Consistent(naming, inv, maps) &&
        matched == {}
      modifies `maps, `matched
      ensures Consistent(naming, inv, maps) && TagsPlaced(naming, inv, tags, maps.groups)
      ensures forall k :: k in matched <==> Targeted(manifests, tags, k)
    {
      for i := 0 to |tags|
        invariant Consistent(naming, inv, maps) && TagsPlaced(naming, inv, tags[..i], maps.groups)
        invariant forall k :: k in matched <==> Targeted(manifests, tags[..i], k)
      {
        assert tags[..i + 1] == tags[..i] + [tags[i]];
        GroupTag(tags[i], tags[..i]);
      }
      assert tags[..|tags|] == tags;
    }

    method GroupTag(t: Tag, ghost tags: seq<Tag>)
      requires UniqueKeys(inv.manifests, ManifestKey) && t in inv.tags && Indexed(inv.manifests)
      requires Consistent(naming, inv, maps) && TagsPlaced(naming, inv, tags, maps.groups)
      requires forall k :: k in matched <==> Targeted(manifests, tags, k)
      modifies `maps, `matched
      ensures Consistent(naming, inv, maps) && TagsPlaced(naming, inv, tags + [t], maps.groups)
      ensures forall k :: k in matched <==> Targeted(manifests, tags + [t], k)
    {
      var next, hit := PlaceTag(naming, inv, manifests, maps, t, tags);
      TargetedMore(manifests, tags, t);
      maps := next;
      if hit {
        matched := matched + {TagTarget(t)};
      }
    }

    /** Every row that no tag matched joins the group of its own reference. */
    method GroupUntaggedManifests()
      requires Indexed(inv.manifests) && Consistent(naming, inv, maps) && TagsPlaced(naming, inv, inv.tags, maps.groups)
      requires forall k :: k in matched <==> Targeted(manifests, inv.tags, k)
      modifies `maps
      ensures Consistent(naming, inv, maps) && TagsPlaced(naming, inv, inv.tags, maps.groups)
      ensures LoosePlaced(naming, inv, manifests.Keys, maps.groups)
    {
      var todo := manifests.Keys;
      while todo != {}
        invariant todo <= manifests.Keys
        invariant Consistent(naming, inv, maps) && TagsPlaced(naming, inv, inv.tags, maps.groups)
        invariant LoosePlaced(naming, inv, manifests.Keys - todo, maps.groups)
      {
        var key :| key in todo;
        if key !in matched {
          GroupLoose(key);
        }
        assert LoosePlaced(naming, inv, {key}, maps.groups) by {
          if key in matched {
            var t :| t in inv.tags && TagTarget(t) == key;
          }
        }
        todo := todo - {key};
      }
    }

    method GroupLoose(key: Triple)
      requires Indexed(inv.manifests) && Consistent(naming, inv, maps)
      requires forall t :: t in inv.tags ==> TagTarget(t) != key || At(manifests, key) == []
      modifies `maps
      ensures Consistent(naming, inv, maps) && Kept(old(maps.groups), maps.groups) &&
        LoosePlaced(naming, inv, {key}, maps.groups)
    {
      var rows := At(manifests, key);
      forall m ensures m in rows <==> m in inv.manifests && Owned(naming, m) && ManifestTriple(m) == key {
        assert m in At(manifests, key) <==> m in inv.manifests && Owned(naming, m) && ManifestTriple(m) == key;
      }
      KeyPlaced(naming, inv, maps, key, rows);
      maps := PlaceLooseRows(naming, maps, rows);
    }

    /** The maps beside the groups describe the rows as they were placed. */
    ghost predicate MapsOf(b: Basis)
      reads `maps, `foreignDigests
    {
      b.naming == naming && b.foreign == foreignDigests && MapsExact(b, maps)
    }

    method ApplyActivity(activity: Snapshot, ghost b: Basis)
      requires MapsOf(b) && maps.groups == b.rows && AllTimed(b.inv, b.rows)
      modifies `maps
      ensures AllStaged(b, Seen(activity.blobs, activity.links, activity.pulls), maps.groups)
    {
      ApplyBlobAccess(activity.blobs, b);
      ApplyRepoBlobAccess(activity.links, b, activity.blobs);
      ApplyPullAccess(activity.pulls, b, activity.blobs, activity.links);
    }

    method ApplyBlobAccess(blobs: seq<Blob>, ghost b: Basis)
      requires MapsOf(b) && maps.groups == b.rows && AllTimed(b.inv, b.rows)
      modifies `maps
      ensures MapsOf(b) && AllStaged(b, Seen(blobs, [], []), maps.groups)
    {
      var access := AccessByDigest(blobs);
      var todo := maps.groups.Keys;
      while todo != {}
        invariant todo <= maps.groups.Keys == b.rows.Keys && MapsOf(b)
        invariant forall ref :: ref in todo ==> maps.groups[ref] == b.rows[ref]
        invariant forall ref :: ref in maps.groups && ref !in todo ==>
          Staged(b, Seen(blobs, [], []), ref, maps.groups[ref])
      {
        var ref :| ref in todo;
        var g := maps.groups[ref];
        RowsTimed(b, ref);
        var last := BlobActivity(b, blobs, access, maps.owners, foreignDigests, ref, g);
        maps := maps.(groups := maps.groups[ref := g.(lastAccessAt := last)]);
        todo := todo - {ref};
      }
    }

    method ApplyRepoBlobAccess(links: seq<Link>, ghost b: Basis, ghost blobs: seq<Blob>)
      requires MapsOf(b) && AllStaged(b, Seen(blobs, [], []), maps.groups)
      modifies `maps
      ensures MapsOf(b) && AllStaged(b, Seen(blobs, links, []), maps.groups)
    {
      for i := 0 to |links|
        invariant MapsOf(b) && AllStaged(b, Seen(blobs, links[..i], []), maps.groups)
      {
        assert links[..i + 1] == links[..i] + [links[i]];
        ApplyLink(links[i], b, Seen(blobs, links[..i], []));
      }
      assert links[..|links|] == links;
    }

    method ApplyLink(l: Link, ghost b: Basis, ghost seen: Seen)
      requires MapsOf(b) && AllStaged(b, seen, maps.groups)
      modifies `maps
      ensures MapsOf(b) && AllStaged(b, OneMoreLink(seen, l), maps.groups)
    {
      var at := At(maps.byDigest, LinkTriple(l));
      assert forall ref :: ref in at <==> Holds(b, ref, l);
      var counted := l.digest !in foreignDigests && |At(maps.owners, l.digest)| == 1;
      forall ref | ref in at ensures counted <==> Sole(b, ref, l.digest) {
        SingleOwner(b, maps.owners, ref, l.digest);
      }
      var groups := LinkGroups(b, seen, l, at, counted, maps.groups);
      maps := maps.(groups := groups);
    }

    method ApplyPullAccess(pulls: seq<Pull>, ghost b: Basis, ghost blobs: seq<Blob>, ghost links: seq<Link>)
      requires MapsOf(b) && AllStaged(b, Seen(blobs, links, []), maps.groups)
      modifies `maps
      ensures AllStaged(b, Seen(blobs, links, pulls), maps.groups)
    {
      for i := 0 to |pulls|
        invariant MapsOf(b) && AllStaged(b, Seen(blobs, links, pulls[..i]), maps.groups)
      {
        assert pulls[..i + 1] == pulls[..i] + [pulls[i]];
        ApplyPull(pulls[i], b, Seen(blobs, links, pulls[..i]));
      }
      assert pulls[..|pulls|] == pulls;
    }

    method ApplyPull(p: Pull, ghost b: Basis, ghost seen: Seen)
      requires MapsOf(b) && AllStaged(b, seen, maps.groups)
      modifies `maps
      ensures MapsOf(b) && AllStaged(b, OneMorePull(seen, p), maps.groups)
    {
      PullApplied(b, seen, maps, p);
      maps := PullAccess(naming, maps, p);
    }
  }

  // ---------------------------------------------------------------------------
  // The plan

  /** The values of a map, in the order of its iteration. */
  method Values<K(!new), V(!new)>(m: map<K, V>) returns (r: seq<V>)
    ensures forall v :: v in r ==> exists k :: k in m && v == m[k]
    ensures forall k :: k in m ==> m[k] in r
  {
    var todo := m.Keys;
    r := [];
    while todo != {}
      invariant todo <= m.Keys
      invariant forall v :: v in r ==> exists k :: k in m && v == m[k]
      invariant forall k :: k in m && k !in todo ==> m[k] in r
    {
      var k :| k in todo;
      r := r + [m[k]];
      todo := todo - {k};
    }
  }

  /** `uniqueStrings`, before it sorts. */
  function Unique(values: seq<string>, seen: set<string>): (r: seq<string>)
    ensures forall v :: v in r <==> v in values && v !in seen
    ensures Distinct(r)
  {
    if values == [] then []
    else if values[0] in seen then Unique(values[1..], seen)
    else
      var rest := Unique(values[1..], seen + {values[0]});
      assert forall v :: v in values <==> v == values[0] || v in values[1..];
      [values[0]] + rest
  }

  function Tidy(g: Group): Group {
    g.(digests := Sort(Unique(g.digests, {}), StringLess))
  }

  lemma UniqueKeysOf(xs: seq<string>)
    requires Distinct(xs)
    ensures Distinct(Sort(xs, StringLess))
  {
    var same := (x: string) => x;
    assert UniqueKeys(xs, same);
    SortUnique(xs, StringLess, same);
    var ys := Sort(xs, StringLess);
    assert forall i, j :: 0 <= i < j < |ys| ==> same(ys[i]) != same(ys[j]);
  }

  /** A group of the finished plan. */
  ghost predicate Described(b: Basis, ref: GroupRef, g: Group) {
    && Sound(b.naming, b.inv, ref, g) && Distinct(g.digests)
    && (forall l :: l in b.inv.links ==> (l in g.links <==> Holds(b, ref, l)))
    && ref in b.rows && Timed(b, Seen(b.inv.blobs, b.inv.links, b.inv.pulls), ref, g.lastAccessAt)
  }

  lemma StagedSound(b: Basis, ref: GroupRef, g: Group)
    requires Staged(b, Seen(b.inv.blobs, b.inv.links, b.inv.pulls), ref, g) && Sound(b.naming, b.inv, ref, b.rows[ref])
    ensures Sound(b.naming, b.inv, ref, g)
  {
    forall l | l in g.links ensures exists m :: m in g.manifests && ManifestTriple(m) == LinkTriple(l) {
      assert Holds(b, ref, l) && l.digest in b.rows[ref].digests;
      var m :| m in b.rows[ref].manifests && m.digest == l.digest;
      assert m in g.manifests && ManifestTriple(m) == LinkTriple(l);
    }
  }

  /** A finished group lists its digests once and in order. */
  lemma TidyInOrder(g: Group)
    ensures Distinct(Tidy(g).digests) && (forall d :: d in Tidy(g).digests <==> d in g.digests)
    ensures forall i, j :: 0 <= i < j < |Tidy(g).digests| ==>
      !exists k: nat :: DiffersAt(Tidy(g).digests[j], Tidy(g).digests[i], k)
  {
    UniqueKeysOf(Unique(g.digests, {}));
    StringsAreStrictWeak();
    SortSorted(Unique(g.digests, {}), StringLess);
    var ds := Tidy(g).digests;
    forall i, j | 0 <= i < j < |ds| ensures !exists k: nat :: DiffersAt(ds[j], ds[i], k) {
      StringLessIff(ds[j], ds[i]);
    }
  }

  lemma StringsAreStrictWeak()
    ensures StrictWeak(StringLess)
  {
    forall x, y | StringLess(x, y) ensures !StringLess(y, x) {
      StringLessTotal(x, y);
    }
    forall x, y, z | !StringLess(x, y) && !StringLess(y, z) ensures !StringLess(x, z) {
      StringLessTransitive(x, y, z);
    }
  }

  lemma TidyDescribed(b: Basis, ref: GroupRef, g: Group)
    requires Staged(b, Seen(b.inv.blobs, b.inv.links, b.inv.pulls), ref, g) && Sound(b.naming, b.inv, ref, b.rows[ref])
    ensures Described(b, ref, Tidy(g))
  {
    StagedSound(b, ref, g);
    UniqueKeysOf(Unique(g.digests, {}));
    assert forall d :: d in Tidy(g).digests <==> d in g.digests;
  }

  /** The rows of a plan: sound, with every tag and every untagged row in its
      group, and the digests of other ecosystems. */
  ghost predicate RowsPlaced(b: Basis) {
    && AllSound(b.naming, b.inv, b.rows) && AllTimed(b.inv, b.rows)
    && TagsPlaced(b.naming, b.inv, b.inv.tags, b.rows) && AllLoosePlaced(b.naming, b.inv, b.rows)
    && (forall d :: d in b.foreign <==> exists m :: m in b.inv.manifests && !Owned(b.naming, m) && m.digest == d)
  }

  ghost predicate AllLoosePlaced(n: Naming, inv: Snapshot, rows: Groups) {
    forall m :: m in inv.manifests && Owned(n, m) && Untagged(inv.tags, m) ==>
      HasRow(rows, RefFor(n, LooseTriple(m)), m)
  }

  lemma RowCovered(n: Naming, inv: Snapshot, rows: Groups, m: Manifest) returns (ref: GroupRef)
    requires TagsPlaced(n, inv, inv.tags, rows) && AllLoosePlaced(n, inv, rows) && m in inv.manifests && Owned(n, m)
    ensures HasRow(rows, ref, m)
  {
    if Untagged(inv.tags, m) {
      ref := RefFor(n, LooseTriple(m));
    } else {
      var t :| t in inv.tags && TagTarget(t) == ManifestTriple(m);
      ref := RefFor(n, TagTriple(t));
    }
  }

  ghost predicate SameRows(rows: Groups, plan: Groups) {
    && plan.Keys == rows.Keys
    && forall ref :: ref in plan ==> plan[ref].manifests == rows[ref].manifests && plan[ref].tags == rows[ref].tags
  }

  /** A finished group for each group of placed rows. */
  ghost predicate Finished(b: Basis, plan: Groups) {
    SameRows(b.rows, plan) && forall ref :: ref in plan ==> Described(b, ref, plan[ref])
  }

  ghost predicate Lists(plan: Groups, groups: seq<Group>) {
    (forall g :: g in groups ==> exists ref :: ref in plan && g == plan[ref]) &&
      (forall ref :: ref in plan ==> plan[ref] in groups)
  }

  /** The rows of the plan, placed. */
  method PlaceRows(n: Naming, inv: Snapshot) returns (p: CleanupPlanner, ghost b: Basis)
    requires ValidSnapshot(inv)
    ensures fresh(p) && p.naming == n && b == Basis(n, inv, p.maps.groups, p.foreignDigests) && RowsPlaced(b) &&
      p.MapsOf(b)
  {
    p := new CleanupPlanner(n, inv);
    p.IndexManifests(inv.manifests);
    p.GroupTags(inv.tags);
    p.GroupUntaggedManifests();
    b := Basis(n, inv, p.maps.groups, p.foreignDigests);
    forall m | m in inv.manifests && Owned(n, m) ensures ManifestTriple(m) in p.manifests {
      assert m in At(p.manifests, ManifestTriple(m));
    }
  }

  ghost predicate PlanWith(n: Naming, inv: Snapshot, groups: seq<Group>, b: Basis, plan: Groups) {
    b.naming == n && b.inv == inv && RowsPlaced(b) && Finished(b, plan) && Lists(plan, groups)
  }

  /** The plan of an inventory: one finished group for each group of placed rows. */
  ghost predicate IsPlan(n: Naming, inv: Snapshot, groups: seq<Group>) {
    exists b: Basis, plan: Groups :: PlanWith(n, inv, groups, b, plan)
  }

  method PlanCacheCleanup(n: Naming, inv: Snapshot) returns (groups: seq<Group>)
    requires ValidSnapshot(inv)
    ensures IsPlan(n, inv, groups) && ByPackage(groups)
  {
    var p; ghost var b;
    p, b := PlaceRows(n, inv);
    p.ApplyActivity(inv, b);
    groups := Result(p.maps.groups, b);
  }

  /** `result`. All groups have the same ecosystem, so alias and package order them. */
  method Result(staged: Groups, ghost b: Basis) returns (groups: seq<Group>)
    requires RowsPlaced(b) && AllStaged(b, Seen(b.inv.blobs, b.inv.links, b.inv.pulls), staged)
    ensures IsPlan(b.naming, b.inv, groups) && ByPackage(groups)
  {
    var tidied := map ref | ref in staged :: Tidy(staged[ref]);
    TidyFinished(b, staged, tidied);
    var all := Values(tidied);
    groups := Sort(all, PackageLess);
    SortedByPackage(all);
    SortedLists(tidied, all, groups);
    PlanMade(b.naming, b.inv, groups, b, tidied);
  }

  lemma SortedLists(plan: Groups, all: seq<Group>, groups: seq<Group>)
    requires forall g :: g in all <==> exists ref :: ref in plan && g == plan[ref]
    requires forall g :: g in groups <==> g in all
    ensures Lists(plan, groups)
  {
  }

  lemma PlanMade(n: Naming, inv: Snapshot, groups: seq<Group>, b: Basis, plan: Groups)
    requires PlanWith(n, inv, groups, b, plan)
    ensures IsPlan(n, inv, groups)
  {
  }

  lemma TidyFinished(b: Basis, staged: Groups, tidied: Groups)
    requires AllSound(b.naming, b.inv, b.rows) && AllStaged(b, Seen(b.inv.blobs, b.inv.links, b.inv.pulls), staged)
    requires tidied.Keys == staged.Keys && forall ref :: ref in tidied ==> tidied[ref] == Tidy(staged[ref])
    ensures Finished(b, tidied)
  {
    forall ref | ref in tidied
      ensures Described(b, ref, tidied[ref]) && tidied[ref].manifests == b.rows[ref].manifests &&
        tidied[ref].tags == b.rows[ref].tags
    {
      TidyDescribed(b, ref, staged[ref]);
    }
  }

  lemma FinishedPlanned(b: Basis, plan: Groups, ref: GroupRef, graph: Graph)
    requires Finished(b, plan) && ref in plan
    ensures Planned(graph, b.inv, plan[ref])
  {
    SoundIsPlanned(b.naming, b.inv, ref, plan[ref], graph);
  }

  /** Every group of a plan is one that the collector keeps whole when retained. */
  lemma ListedPlanned(n: Naming, inv: Snapshot, groups: seq<Group>, graph: Graph, g: Group)
    requires IsPlan(n, inv, groups) && g in groups
    ensures Planned(graph, inv, g)
  {
    var b: Basis, plan: Groups :| PlanWith(n, inv, groups, b, plan);
    var ref :| ref in plan && g == plan[ref];
    FinishedPlanned(b, plan, ref, graph);
  }

  /** Every row of the ecosystem is in some group of its plan. */
  lemma PlanComplete(n: Naming, inv: Snapshot, groups: seq<Group>, m: Manifest)
    requires IsPlan(n, inv, groups) && m in inv.manifests && Owned(n, m)
    ensures exists g :: g in groups && m in g.manifests
  {
    var b: Basis, plan: Groups :| PlanWith(n, inv, groups, b, plan);
    var ref := RowCovered(n, inv, b.rows, m);
    assert plan[ref] in groups && m in plan[ref].manifests;
  }

  // ---------------------------------------------------------------------------
  // One group per package

  /** A name of a package: the ecosystem's key of its repository and reference. */
  ghost predicate OfPackage(n: Naming, g: Group, alias: string, repository: string, name: string) {
    g.alias == alias && g.package == n.groupKey(repository, name)
  }

  /** A group has the tags of its package, and the rows that they resolve to or that
      no tag resolves to and whose own name is the package's. */
  lemma GroupIsPackage(n: Naming, inv: Snapshot, groups: seq<Group>, g: Group)
    requires IsPlan(n, inv, groups) && g in groups
    ensures g.ecosystem == n.ecosystem
    ensures forall t :: t in g.tags ==> t in inv.tags && OfPackage(n, g, t.alias, t.repository, t.reference)
    ensures forall m :: m in g.manifests ==>
      || (exists t :: t in inv.tags && t.alias == m.alias && t.repository == m.repository && t.digest == m.digest &&
            OfPackage(n, g, t.alias, t.repository, t.reference))
      || (NoTagFor(inv, m) &&
          OfPackage(n, g, m.alias, m.repository, if m.reference == "" then m.digest else m.reference))
  {
    var b: Basis, plan: Groups :| PlanWith(n, inv, groups, b, plan);
    var ref :| ref in plan && g == plan[ref];
    assert Sound(n, inv, ref, g);
    forall m | m in g.manifests
      ensures
        || (exists t :: t in inv.tags && t.alias == m.alias && t.repository == m.repository && t.digest == m.digest &&
              OfPackage(n, g, t.alias, t.repository, t.reference))
        || (NoTagFor(inv, m) &&
            OfPackage(n, g, m.alias, m.repository, if m.reference == "" then m.digest else m.reference))
    {
      RowOfPackage(n, inv, ref, g, m);
    }
  }

  lemma RowOfPackage(n: Naming, inv: Snapshot, ref: GroupRef, g: Group, m: Manifest)
    requires Sound(n, inv, ref, g) && m in g.manifests
    ensures
      || (exists t :: t in inv.tags && t.alias == m.alias && t.repository == m.repository && t.digest == m.digest &&
            OfPackage(n, g, t.alias, t.repository, t.reference))
      || (NoTagFor(inv, m) &&
          OfPackage(n, g, m.alias, m.repository, if m.reference == "" then m.digest else m.reference))
  {
    assert Explained(n, inv, ref, m);
    if t :| t in inv.tags && Brings(n, t, m, ref) {
      assert OfPackage(n, g, t.alias, t.repository, t.reference);
    } else {
      UntaggedIff(inv, m);
    }
  }

  /** A tag and the row it resolves to share a group of the tag's package. */
  lemma TagGrouped(n: Naming, inv: Snapshot, groups: seq<Group>, t: Tag, m: Manifest)
    requires IsPlan(n, inv, groups) && t in inv.tags && m in inv.manifests && IsOurs(n, m)
    requires t.alias == m.alias && t.repository == m.repository && t.digest == m.digest
    ensures exists g ::
      g in groups && t in g.tags && m in g.manifests && OfPackage(n, g, t.alias, t.repository, t.reference)
  {
    var b: Basis, plan: Groups :| PlanWith(n, inv, groups, b, plan);
    var ref := RefFor(n, TagTriple(t));
    OwnedIff(n, m);
    assert HasRow(b.rows, ref, m) && HasTag(b.rows, ref, t);
    assert Sound(n, inv, ref, plan[ref]) && plan[ref] in groups;
  }

  /** Two groups of one package and one repository are the same group. */
  lemma OneGroupPerPackage(n: Naming, inv: Snapshot, groups: seq<Group>, g: Group, h: Group, m: Manifest, q: Manifest)
    requires IsPlan(n, inv, groups) && g in groups && h in groups && m in g.manifests && q in h.manifests
    requires g.alias == h.alias && g.package == h.package && m.repository == q.repository
    ensures g == h
  {
    var b: Basis, plan: Groups :| PlanWith(n, inv, groups, b, plan);
    var i :| i in plan && g == plan[i];
    var j :| j in plan && h == plan[j];
    assert Sound(n, inv, i, g) && Sound(n, inv, j, h);
  }

  /** A group has exactly the links of its repository at its digests. */
  lemma LinksExact(n: Naming, inv: Snapshot, groups: seq<Group>, g: Group, m: Manifest, l: Link)
    requires IsPlan(n, inv, groups) && g in groups && m in g.manifests && l in inv.links
    ensures l in g.links <==> l.alias == g.alias && l.repository == m.repository && l.digest in g.digests
  {
    var b: Basis, plan: Groups :| PlanWith(n, inv, groups, b, plan);
    var ref :| ref in plan && g == plan[ref];
    assert Described(b, ref, g) && Sound(n, inv, ref, g);
    SameDigests(b, plan, ref, l.digest);
  }

  // ---------------------------------------------------------------------------
  // A group's time, on the columns of the rows

  predicate IsOurs(n: Naming, m: Manifest) {
    || (m.acceptKey != "" && m.acceptKey == n.ecosystem)
    || (m.acceptKey == "" && n.ecosystem + "/" <= m.alias)
  }

  lemma OwnedIff(n: Naming, m: Manifest)
    ensures Owned(n, m) <==> IsOurs(n, m)
  {
  }

  ghost predicate NoTagFor(inv: Snapshot, m: Manifest) {
    forall t :: t in inv.tags ==> t.alias != m.alias || t.repository != m.repository || t.digest != m.digest
  }

  /** Only this group of the plan has the digest, and no other ecosystem does. */
  ghost predicate OnlyHere(n: Naming, inv: Snapshot, groups: seq<Group>, g: Group, d: string) {
    && d in g.digests && (forall h :: h in groups && d in h.digests ==> h == g)
    && (forall m :: m in inv.manifests && m.digest == d ==> IsOurs(n, m))
  }

  ghost predicate TagUse(g: Group, x: Time) {
    exists t :: t in g.tags && (x == t.updatedAt || x == t.createdAt)
  }

  /** The row of a tag's own reference. */
  ghost predicate RowUse(g: Group, x: Time) {
    exists t, m ::
      && t in g.tags && m in g.manifests && m.alias == t.alias && m.repository == t.repository
      && m.digest == t.digest && m.reference == t.reference && (x == m.updatedAt || x == m.createdAt)
  }

  ghost predicate LooseUse(inv: Snapshot, g: Group, x: Time) {
    exists m :: m in g.manifests && NoTagFor(inv, m) && x == m.updatedAt
  }

  ghost predicate BlobUse(n: Naming, inv: Snapshot, groups: seq<Group>, g: Group, x: Time) {
    exists r ::
      r in inv.blobs && OnlyHere(n, inv, groups, g, r.digest) && x in [r.lastAccessAt, r.updatedAt, r.createdAt]
  }

  ghost predicate LinkUse(n: Naming, inv: Snapshot, groups: seq<Group>, g: Group, x: Time) {
    exists l ::
      && l in g.links && OnlyHere(n, inv, groups, g, l.digest)
      && x in [l.lastAccessAt, l.lastVerifiedAt, l.updatedAt, l.createdAt]
  }

  /** The pull is recorded under a name of the group: a tag's, or that of an
      untagged row; its alias may be scoped by the ecosystem. */
  ghost predicate PullNames(n: Naming, inv: Snapshot, g: Group, p: Pull) {
    || (exists t :: t in g.tags && PulledAs(n, p, t.alias, t.repository, t.reference))
    || (exists m ::
          && m in g.manifests && NoTagFor(inv, m)
          && PulledAs(n, p, m.alias, m.repository, if m.reference == "" then m.digest else m.reference))
  }

  predicate PulledAs(n: Naming, p: Pull, alias: string, repository: string, name: string) {
    && p.repository == repository && p.reference == name
    && (p.alias == n.ecosystem + "/" + alias || (p.alias == alias && !(n.ecosystem + "/" <= alias)))
  }

  ghost predicate PullUse(n: Naming, inv: Snapshot, g: Group, x: Time) {
    exists p ::
      && p in inv.pulls && PullNames(n, inv, g, p)
      && x in [p.lastPullAt, p.lastUpstreamPullAt, p.updatedAt, p.createdAt]
  }

  ghost predicate UsedAt(n: Naming, inv: Snapshot, groups: seq<Group>, g: Group, x: Time) {
    || TagUse(g, x) || RowUse(g, x) || LooseUse(inv, g, x)
    || BlobUse(n, inv, groups, g, x) || LinkUse(n, inv, groups, g, x) || PullUse(n, inv, g, x)
  }

  lemma LatestOf(values: seq<Time>)
    requires values != []
    ensures Latest(values) in values && forall x :: x in values ==> x <= Latest(values)
  {
    LatestIsNewest(values);
  }

  lemma TimesOf(t: Tag, m: Manifest)
    ensures TagTime(t) in [t.updatedAt, t.createdAt] && t.updatedAt <= TagTime(t) && t.createdAt <= TagTime(t)
    ensures RowTime(m) in [m.updatedAt, m.createdAt] && m.updatedAt <= RowTime(m) && m.createdAt <= RowTime(m)
  {
    LatestOf([t.updatedAt, t.createdAt]);
    LatestOf([m.updatedAt, m.createdAt]);
  }

  lemma UntaggedIff(inv: Snapshot, m: Manifest)
    ensures Untagged(inv.tags, m) <==> NoTagFor(inv, m)
  {
  }

  lemma RowCounted(inv: Snapshot, g: Group, x: Time)
    requires CountsAsRow(inv, g, x)
    ensures TagUse(g, x) || RowUse(g, x) || LooseUse(inv, g, x)
  {
    if t :| t in g.tags && x == TagTime(t) {
      LatestOf([t.updatedAt, t.createdAt]);
    } else if CountsRow(g, x) {
      var t, m :| t in g.tags && m in g.manifests && ManifestTriple(m) == TagTarget(t) && m.reference == t.reference &&
        x == RowTime(m);
      LatestOf([m.updatedAt, m.createdAt]);
    } else if m :| m in g.manifests && Untagged(inv.tags, m) && x == m.updatedAt {
      UntaggedIff(inv, m);
    }
  }

  lemma RowUsed(inv: Snapshot, g: Group, x: Time) returns (y: Time)
    requires TagUse(g, x) || RowUse(g, x) || LooseUse(inv, g, x)
    ensures CountsAsRow(inv, g, y) && x <= y
  {
    if t :| t in g.tags && (x == t.updatedAt || x == t.createdAt) {
      y := TagTime(t);
      TimesOf(t, Manifest("", "", "", "", "", "", 0, "", 0, 0));
      assert CountsTag(g, y);
    } else if RowUse(g, x) {
      var t, m :| t in g.tags && m in g.manifests && m.alias == t.alias && m.repository == t.repository &&
        m.digest == t.digest && m.reference == t.reference && (x == m.updatedAt || x == m.createdAt);
      y := RowTime(m);
      TimesOf(t, m);
      assert ManifestTriple(m) == TagTarget(t);
      assert CountsRow(g, y);
    } else {
      var m :| m in g.manifests && NoTagFor(inv, m) && x == m.updatedAt;
      UntaggedIff(inv, m);
      y := x;
      assert CountsLoose(inv, g, y);
    }
  }

  lemma PulledAsIff(n: Naming, p: Pull, k: Triple)
    ensures PullName(n, p) == k <==> PulledAs(n, p, k.alias, k.repository, k.name)
  {
    var scope := n.ecosystem + "/";
    assert (scope + k.alias)[|scope|..] == k.alias;
    if scope <= p.alias {
      assert p.alias == scope + p.alias[|scope|..];
    }
  }

  lemma PullNamesIff(b: Basis, plan: Groups, ref: GroupRef, p: Pull)
    requires Finished(b, plan) && ref in plan
    ensures Pulled(b, ref, p) <==>
      RefFor(b.naming, PullName(b.naming, p)) == ref && PullNames(b.naming, b.inv, plan[ref], p)
  {
    var k, g := PullName(b.naming, p), plan[ref];
    PulledAsIff(b.naming, p, k);
    forall t | t in g.tags ensures TagTriple(t) == k <==> PulledAs(b.naming, p, t.alias, t.repository, t.reference) {
      PulledAsIff(b.naming, p, TagTriple(t));
    }
    forall m | m in g.manifests
      ensures Untagged(b.inv.tags, m) <==> NoTagFor(b.inv, m)
      ensures LooseTriple(m) == k <==>
        PulledAs(b.naming, p, m.alias, m.repository, if m.reference == "" then m.digest else m.reference)
    {
      UntaggedIff(b.inv, m);
      PulledAsIff(b.naming, p, LooseTriple(m));
    }
  }

  /** The planner's ownership test, on the groups of the finished plan. */
  lemma OnlyHereIff(b: Basis, plan: Groups, groups: seq<Group>, ref: GroupRef, d: string)
    requires RowsPlaced(b) && Finished(b, plan) && Lists(plan, groups) && ref in plan
    ensures OnlyHere(b.naming, b.inv, groups, plan[ref], d) <==> HasDigest(b.rows, ref, d) && Sole(b, ref, d)
  {
    SameDigests(b, plan, ref, d);
    if OnlyHere(b.naming, b.inv, groups, plan[ref], d) {
      forall q | HasDigest(b.rows, q, d) ensures q == ref {
        SameDigests(b, plan, q, d);
        assert plan[q] in groups;
        SameGroupSameRef(b, plan, ref, q, d);
      }
    }
    if HasDigest(b.rows, ref, d) && Sole(b, ref, d) {
      forall h | h in groups && d in h.digests ensures h == plan[ref] {
        var q :| q in plan && h == plan[q];
        SameDigests(b, plan, q, d);
      }
    }
    ForeignIff(b, d);
  }

  lemma ForeignIff(b: Basis, d: string)
    requires RowsPlaced(b)
    ensures d !in b.foreign <==> forall m :: m in b.inv.manifests && m.digest == d ==> IsOurs(b.naming, m)
  {
    forall m | m in b.inv.manifests ensures Owned(b.naming, m) <==> IsOurs(b.naming, m) {
      OwnedIff(b.naming, m);
    }
  }

  lemma SameDigests(b: Basis, plan: Groups, ref: GroupRef, d: string)
    requires AllSound(b.naming, b.inv, b.rows) && Finished(b, plan) && ref in plan
    ensures d in plan[ref].digests <==> HasDigest(b.rows, ref, d)
  {
    assert Sound(b.naming, b.inv, ref, plan[ref]) && Sound(b.naming, b.inv, ref, b.rows[ref]);
  }

  lemma SameGroupSameRef(b: Basis, plan: Groups, ref: GroupRef, q: GroupRef, d: string)
    requires Finished(b, plan) && ref in plan && q in plan && plan[q] == plan[ref] && d in plan[q].digests
    ensures q == ref
  {
    assert Sound(b.naming, b.inv, q, plan[q]) && Sound(b.naming, b.inv, ref, plan[ref]);
    var m :| m in plan[q].manifests && m.digest == d;
  }

  lemma LinkTimes(l: Link)
    ensures LinkTime(l) in [l.lastAccessAt, l.lastVerifiedAt, l.updatedAt, l.createdAt]
    ensures forall x :: x in [l.lastAccessAt, l.lastVerifiedAt, l.updatedAt, l.createdAt] ==> x <= LinkTime(l)
  {
    LatestOf([l.lastAccessAt, l.lastVerifiedAt, l.updatedAt, l.createdAt]);
  }

  lemma PullTimes(p: Pull)
    ensures PullTime(p) in [p.lastPullAt, p.lastUpstreamPullAt, p.updatedAt, p.createdAt]
    ensures forall x :: x in [p.lastPullAt, p.lastUpstreamPullAt, p.updatedAt, p.createdAt] ==> x <= PullTime(p)
  {
    LatestOf([p.lastPullAt, p.lastUpstreamPullAt, p.updatedAt, p.createdAt]);
  }

  lemma BlobTimes(r: Blob)
    ensures BlobTime(r) in [r.lastAccessAt, r.updatedAt, r.createdAt]
    ensures forall x :: x in [r.lastAccessAt, r.updatedAt, r.createdAt] ==> x <= BlobTime(r)
  {
    LatestOf([r.lastAccessAt, r.updatedAt, r.createdAt]);
  }

  /** A time that counts is some column's time. */
  lemma CountedIsUse(b: Basis, plan: Groups, groups: seq<Group>, ref: GroupRef, x: Time)
    requires RowsPlaced(b) && Finished(b, plan) && Lists(plan, groups) && ref in plan
    requires Counts(b, Seen(b.inv.blobs, b.inv.links, b.inv.pulls), ref, x)
    ensures UsedAt(b.naming, b.inv, groups, plan[ref], x)
  {
    var g := plan[ref];
    if CountsAsRow(b.inv, b.rows[ref], x) {
      CountsKept(b.inv, b.rows[ref], g, x);
      RowCounted(b.inv, g, x);
    } else if r :| r in b.inv.blobs && HasDigest(b.rows, ref, r.digest) && Sole(b, ref, r.digest) && x == BlobTime(r) {
      OnlyHereIff(b, plan, groups, ref, r.digest);
      BlobTimes(r);
      assert BlobUse(b.naming, b.inv, groups, g, x);
    } else if l :| l in b.inv.links && Holds(b, ref, l) && Sole(b, ref, l.digest) && x == LinkTime(l) {
      OnlyHereIff(b, plan, groups, ref, l.digest);
      LinkTimes(l);
      assert Described(b, ref, g);
      assert LinkUse(b.naming, b.inv, groups, g, x);
    } else if p :| p in b.inv.pulls && Pulled(b, ref, p) && x == PullTime(p) {
      PullNamesIff(b, plan, ref, p);
      PullTimes(p);
      assert PullUse(b.naming, b.inv, g, x);
    }
  }

  /** A column's time is at most a time that counts. */
  lemma UseIsCounted(b: Basis, plan: Groups, groups: seq<Group>, ref: GroupRef, x: Time) returns (y: Time)
    requires RowsPlaced(b) && Finished(b, plan) && Lists(plan, groups) && ref in plan
    requires UsedAt(b.naming, b.inv, groups, plan[ref], x)
    ensures Counts(b, Seen(b.inv.blobs, b.inv.links, b.inv.pulls), ref, y) && x <= y
  {
    var g := plan[ref];
    if TagUse(g, x) || RowUse(g, x) || LooseUse(b.inv, g, x) {
      y := RowUsed(b.inv, g, x);
      CountsKept(b.inv, g, b.rows[ref], y);
    } else if BlobUse(b.naming, b.inv, groups, g, x) {
      var r :| r in b.inv.blobs && OnlyHere(b.naming, b.inv, groups, g, r.digest) &&
        x in [r.lastAccessAt, r.updatedAt, r.createdAt];
      OnlyHereIff(b, plan, groups, ref, r.digest);
      BlobTimes(r);
      y := BlobTime(r);
      assert CountsBlob(b, b.inv.blobs, ref, y);
    } else if LinkUse(b.naming, b.inv, groups, g, x) {
      var l :| l in g.links && OnlyHere(b.naming, b.inv, groups, g, l.digest) &&
        x in [l.lastAccessAt, l.lastVerifiedAt, l.updatedAt, l.createdAt];
      OnlyHereIff(b, plan, groups, ref, l.digest);
      LinkTimes(l);
      y := LinkTime(l);
      LinkHeld(b, plan, ref, l);
      assert CountsLink(b, b.inv.links, ref, y);
    } else {
      var p :| p in b.inv.pulls && PullNames(b.naming, b.inv, g, p) &&
        x in [p.lastPullAt, p.lastUpstreamPullAt, p.updatedAt, p.createdAt];
      NamedHere(b, plan, ref, p);
      PullNamesIff(b, plan, ref, p);
      PullTimes(p);
      y := PullTime(p);
      assert CountsPull(b, b.inv.pulls, ref, y);
    }
  }

  lemma LinkHeld(b: Basis, plan: Groups, ref: GroupRef, l: Link)
    requires Finished(b, plan) && ref in plan && l in plan[ref].links
    ensures l in b.inv.links && Holds(b, ref, l)
  {
    assert Described(b, ref, plan[ref]) && Sound(b.naming, b.inv, ref, plan[ref]);
  }

  /** A name of a group belongs to that group. */
  lemma NamedHere(b: Basis, plan: Groups, ref: GroupRef, p: Pull)
    requires Finished(b, plan) && ref in plan && PullNames(b.naming, b.inv, plan[ref], p)
    ensures RefFor(b.naming, PullName(b.naming, p)) == ref
  {
    var g := plan[ref];
    assert Sound(b.naming, b.inv, ref, g);
    if t :| t in g.tags && PulledAs(b.naming, p, t.alias, t.repository, t.reference) {
      PulledAsIff(b.naming, p, TagTriple(t));
    } else {
      var m :| m in g.manifests && NoTagFor(b.inv, m) &&
        PulledAs(b.naming, p, m.alias, m.repository, if m.reference == "" then m.digest else m.reference);
      PulledAsIff(b.naming, p, LooseTriple(m));
      UntaggedIff(b.inv, m);
      assert Explained(b.naming, b.inv, ref, m);
    }
  }

  /** The time of a planned group is the newest of the columns that count for it:
      those of its tags, of the rows of its tags' own references, of its untagged
      rows, of blobs and links of digests that only it has, and of pulls under its
      names. Without any known one it is zero. */
  lemma GroupTimeIsNewest(n: Naming, inv: Snapshot, groups: seq<Group>, g: Group)
    requires IsPlan(n, inv, groups) && g in groups
    ensures forall x: Time :: UsedAt(n, inv, groups, g, x) ==> x <= g.lastAccessAt
    ensures g.lastAccessAt == 0 || UsedAt(n, inv, groups, g, g.lastAccessAt)
  {
    var b: Basis, plan: Groups :| PlanWith(n, inv, groups, b, plan);
    var ref :| ref in plan && g == plan[ref];
    var last := PlannedTime(b, plan, ref);
    forall x: Time | UsedAt(n, inv, groups, g, x) ensures x <= last {
      UsedBefore(b, plan, groups, ref, x, last);
    }
    if last != 0 {
      CountedIsUse(b, plan, groups, ref, last);
    }
  }

  lemma PlannedTime(b: Basis, plan: Groups, ref: GroupRef) returns (last: Time)
    requires Finished(b, plan) && ref in plan
    ensures ref in b.rows && last == plan[ref].lastAccessAt
    ensures Timed(b, Seen(b.inv.blobs, b.inv.links, b.inv.pulls), ref, last)
  {
    assert Described(b, ref, plan[ref]);
    last := plan[ref].lastAccessAt;
  }

  lemma UsedBefore(b: Basis, plan: Groups, groups: seq<Group>, ref: GroupRef, x: Time, last: Time)
    requires RowsPlaced(b) && Finished(b, plan) && Lists(plan, groups) && ref in plan && ref in b.rows
    requires Timed(b, Seen(b.inv.blobs, b.inv.links, b.inv.pulls), ref, last)
    requires UsedAt(b.naming, b.inv, groups, plan[ref], x)
    ensures x <= last
  {
    var y := UseIsCounted(b, plan, groups, ref, x);
  }

  /** Activity of digests that are not a group's alone never refreshes it: two
      inventories that differ only there give the group the same time. */
  lemma SharedActivityIgnored(b: Basis, seen: Seen, other: Seen, ref: GroupRef, last: Time, otherLast: Time)
    requires ref in b.rows && Timed(b, seen, ref, last) && Timed(b, other, ref, otherLast) && seen.pulls == other.pulls
    requires forall r: Blob :: Sole(b, ref, r.digest) ==> (r in seen.blobs <==> r in other.blobs)
    requires forall l: Link :: Sole(b, ref, l.digest) ==> (l in seen.links <==> l in other.links)
    ensures last == otherLast
  {
    forall x: Time ensures Counts(b, seen, ref, x) <==> Counts(b, other, ref, x) {
      assert CountsBlob(b, seen.blobs, ref, x) <==> CountsBlob(b, other.blobs, ref, x);
      assert CountsLink(b, seen.links, ref, x) <==> CountsLink(b, other.links, ref, x);
    }
  }
}
