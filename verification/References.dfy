/** Which digests the metadata protects, and why removing an unprotected digest
    never changes that. */
module References {
  import opened Records
  import opened Reachability
  import opened GraphWalk

  /** How one pass reads the metadata and the objects. A pruning pass walks the
      graph strictly. The store may fail any read of a `flaky` key at any time. */
  datatype Mode = Mode(env: Env, limits: Limits, cutoff: int, prune: bool, flaky: set<string>)

  /** A strict walk reports a failed read; so only a lenient one, over a store that
      does fail reads, can see different graphs at different times. */
  predicate Steady(mode: Mode) { mode.prune || mode.flaky == {} }

  datatype Refs = Refs(
    guarded: set<string>,
    staleTags: seq<Tag>, staleManifests: seq<Manifest>, staleLinks: seq<Link>)

  function PullTriple(p: Pull): Triple { Triple(p.alias, p.repository, p.reference) }

  function TagTriple(t: Tag): Triple { Triple(t.alias, t.repository, t.reference) }

  function TagTarget(t: Tag): Triple { Triple(t.alias, t.repository, t.digest) }

  function ManifestTriple(m: Manifest): Triple { Triple(m.alias, m.repository, m.digest) }

  predicate BlobRecent(cutoff: int, b: Blob) {
    IsRecent(cutoff, [b.lastAccessAt, b.updatedAt, b.createdAt])
  }

  predicate PullRecent(cutoff: int, p: Pull) {
    IsRecent(cutoff, [p.lastPullAt, p.updatedAt, p.createdAt])
  }

  predicate LinkRecent(cutoff: int, l: Link) {
    IsRecent(cutoff, [l.lastAccessAt, l.lastVerifiedAt, l.updatedAt, l.createdAt])
  }

  function ActivePulls(cutoff: int, pulls: seq<Pull>): set<Triple> {
    set p | p in pulls && PullRecent(cutoff, p) :: PullTriple(p)
  }

  predicate TagActive(cutoff: int, activePulls: set<Triple>, t: Tag) {
    IsRecent(cutoff, [t.updatedAt, t.createdAt]) || TagTriple(t) in activePulls
  }

  function ActiveTargets(cutoff: int, activePulls: set<Triple>, tags: seq<Tag>): set<Triple> {
    set t | t in tags && TagActive(cutoff, activePulls, t) :: TagTarget(t)
  }

  predicate ManifestActive(cutoff: int, activeKeys: set<Triple>, m: Manifest) {
    IsRecent(cutoff, [m.updatedAt, m.createdAt]) || ManifestTriple(m) in activeKeys
  }

  // The roots, one relation at a time. "" is never protected.

  function AllManifestRoots(manifests: seq<Manifest>): set<string> {
    (set m | m in manifests :: m.digest) + (set m | m in manifests :: m.objectKey) - {""}
  }

  function BlobRoots(cutoff: int, blobs: seq<Blob>): set<string> {
    (set b | b in blobs && BlobRecent(cutoff, b) :: b.digest) +
    (set b | b in blobs && BlobRecent(cutoff, b) :: b.objectKey) - {""}
  }

  function ManifestRoots(cutoff: int, active: set<Triple>, manifests: seq<Manifest>): set<string> {
    (set m | m in manifests && ManifestActive(cutoff, active, m) :: m.digest) +
    (set m | m in manifests && ManifestActive(cutoff, active, m) :: m.objectKey) - {""}
  }

  function TagRoots(cutoff: int, activePulls: set<Triple>, tags: seq<Tag>): set<string> {
    (set t | t in tags && TagActive(cutoff, activePulls, t) :: t.digest) - {""}
  }

  function LinkRoots(cutoff: int, links: seq<Link>): set<string> {
    (set l | l in links && LinkRecent(cutoff, l) :: l.digest) - {""}
  }

  function Roots(mode: Mode, s: Snapshot): set<string> {
    if !mode.prune then AllManifestRoots(s.manifests)
    else
      var pulls := ActivePulls(mode.cutoff, s.pulls);
      var keys := ActiveTargets(mode.cutoff, pulls, s.tags);
      BlobRoots(mode.cutoff, s.blobs) + ManifestRoots(mode.cutoff, keys, s.manifests) +
      TagRoots(mode.cutoff, pulls, s.tags) + LinkRoots(mode.cutoff, s.links)
  }

  // ---------------------------------------------------------------------------
  // What the roots mean, in terms of rows and times

  /** No time is known, or some known time is not before the cutoff. */
  ghost predicate Touched(cutoff: int, times: seq<Time>) {
    (forall t :: t in times ==> t == 0) || exists t :: t in times && t != 0 && t >= cutoff
  }

  ghost predicate TagAlive(cutoff: int, s: Snapshot, t: Tag) {
    || Touched(cutoff, [t.updatedAt, t.createdAt])
    || exists p :: p in s.pulls && p.alias == t.alias && p.repository == t.repository && p.reference == t.reference &&
         Touched(cutoff, [p.lastPullAt, p.updatedAt, p.createdAt])
  }

  ghost predicate ManifestAlive(cutoff: int, s: Snapshot, m: Manifest) {
    || Touched(cutoff, [m.updatedAt, m.createdAt])
    || exists t :: t in s.tags && t.alias == m.alias && t.repository == m.repository && t.digest == m.digest &&
         TagAlive(cutoff, s, t)
  }

  ghost predicate BlobAlive(cutoff: int, b: Blob) {
    Touched(cutoff, [b.lastAccessAt, b.updatedAt, b.createdAt])
  }

  ghost predicate LinkAlive(cutoff: int, l: Link) {
    Touched(cutoff, [l.lastAccessAt, l.lastVerifiedAt, l.updatedAt, l.createdAt])
  }

  /** The classification of rows is the one that these predicates describe. */
  lemma TagActiveIff(cutoff: int, s: Snapshot, t: Tag)
    ensures TagActive(cutoff, ActivePulls(cutoff, s.pulls), t) <==> TagAlive(cutoff, s, t)
  {
    TimesIff(cutoff, [t.updatedAt, t.createdAt]);
    forall p | p in s.pulls
      ensures PullRecent(cutoff, p) <==> Touched(cutoff, [p.lastPullAt, p.updatedAt, p.createdAt])
    {
      TimesIff(cutoff, [p.lastPullAt, p.updatedAt, p.createdAt]);
    }
    assert TagTriple(t) in ActivePulls(cutoff, s.pulls) <==>
      exists p :: p in s.pulls && PullRecent(cutoff, p) && PullTriple(p) == TagTriple(t);
  }

  lemma ManifestActiveIff(cutoff: int, s: Snapshot, m: Manifest)
    ensures ManifestActive(cutoff, ActiveTargets(cutoff, ActivePulls(cutoff, s.pulls), s.tags), m) <==>
      ManifestAlive(cutoff, s, m)
  {
    TimesIff(cutoff, [m.updatedAt, m.createdAt]);
    var pulls := ActivePulls(cutoff, s.pulls);
    forall t | t in s.tags ensures TagActive(cutoff, pulls, t) <==> TagAlive(cutoff, s, t) {
      TagActiveIff(cutoff, s, t);
    }
    assert ManifestTriple(m) in ActiveTargets(cutoff, pulls, s.tags) <==>
      exists t :: t in s.tags && TagActive(cutoff, pulls, t) && TagTarget(t) == ManifestTriple(m);
  }

  lemma BlobRecentIff(cutoff: int, b: Blob)
    ensures BlobRecent(cutoff, b) <==> BlobAlive(cutoff, b)
  {
    TimesIff(cutoff, [b.lastAccessAt, b.updatedAt, b.createdAt]);
  }

  lemma LinkRecentIff(cutoff: int, l: Link)
    ensures LinkRecent(cutoff, l) <==> LinkAlive(cutoff, l)
  {
    TimesIff(cutoff, [l.lastAccessAt, l.lastVerifiedAt, l.updatedAt, l.createdAt]);
  }

  /** The roots of a pruning pass are exactly the digests and object keys that an alive
      row names; of any other pass those of every manifest. */
  lemma RootsIff(mode: Mode, s: Snapshot, d: string)
    requires d != ""
    ensures mode.prune ==> (d in Roots(mode, s) <==>
      || (exists b :: b in s.blobs && (d == b.digest || d == b.objectKey) && BlobAlive(mode.cutoff, b))
      || (exists m :: m in s.manifests && (d == m.digest || d == m.objectKey) && ManifestAlive(mode.cutoff, s, m))
      || (exists t :: t in s.tags && d == t.digest && TagAlive(mode.cutoff, s, t))
      || (exists l :: l in s.links && d == l.digest && LinkAlive(mode.cutoff, l)))
    ensures !mode.prune ==>
      (d in Roots(mode, s) <==> exists m :: m in s.manifests && (d == m.digest || d == m.objectKey))
  {
    var cutoff, pulls := mode.cutoff, ActivePulls(mode.cutoff, s.pulls);
    var keys := ActiveTargets(cutoff, pulls, s.tags);
    BlobRootsIff(cutoff, s.blobs, d);
    ManifestRootsIff(cutoff, s, d);
    TagRootsIff(cutoff, s, d);
    LinkRootsIff(cutoff, s.links, d);
  }

  lemma BlobRootsIff(cutoff: int, blobs: seq<Blob>, d: string)
    requires d != ""
    ensures d in BlobRoots(cutoff, blobs) <==>
      exists b :: b in blobs && (d == b.digest || d == b.objectKey) && BlobAlive(cutoff, b)
  {
    forall b | b in blobs ensures BlobRecent(cutoff, b) <==> BlobAlive(cutoff, b) { BlobRecentIff(cutoff, b); }
  }

  lemma ManifestRootsIff(cutoff: int, s: Snapshot, d: string)
    requires d != ""
    ensures d in ManifestRoots(cutoff, ActiveTargets(cutoff, ActivePulls(cutoff, s.pulls), s.tags), s.manifests) <==>
      exists m :: m in s.manifests && (d == m.digest || d == m.objectKey) && ManifestAlive(cutoff, s, m)
  {
    var keys := ActiveTargets(cutoff, ActivePulls(cutoff, s.pulls), s.tags);
    forall m | m in s.manifests ensures ManifestActive(cutoff, keys, m) <==> ManifestAlive(cutoff, s, m) {
      ManifestActiveIff(cutoff, s, m);
    }
  }

  lemma TagRootsIff(cutoff: int, s: Snapshot, d: string)
    requires d != ""
    ensures d in TagRoots(cutoff, ActivePulls(cutoff, s.pulls), s.tags) <==>
      exists t :: t in s.tags && d == t.digest && TagAlive(cutoff, s, t)
  {
    forall t | t in s.tags ensures TagActive(cutoff, ActivePulls(cutoff, s.pulls), t) <==> TagAlive(cutoff, s, t) {
      TagActiveIff(cutoff, s, t);
    }
  }

  lemma LinkRootsIff(cutoff: int, links: seq<Link>, d: string)
    requires d != ""
    ensures d in LinkRoots(cutoff, links) <==> exists l :: l in links && d == l.digest && LinkAlive(cutoff, l)
  {
    forall l | l in links ensures LinkRecent(cutoff, l) <==> LinkAlive(cutoff, l) { LinkRecentIff(cutoff, l); }
  }

  /** The graph whose closure a pass is sure to protect: a lenient walk may lose
      the children of every flaky body. */
  function GraphOf(mode: Mode, w: World): Graph {
    Graph(w.meta.manifests, w.objects, mode.env, mode.prune, if mode.prune then {} else mode.flaky)
  }

  /** The protected set: what every confirming recheck of a world protects, and
      in steady mode exactly what it computes. */
  ghost function Guarded(mode: Mode, w: World): set<string> {
    Reach(GraphOf(mode, w), Roots(mode, w.meta))
  }

  /** The graph can be walked without an error. */
  ghost predicate Walkable(mode: Mode, w: World) {
    Fits(mode.limits, Guarded(mode, w)) && Readable(GraphOf(mode, w), Guarded(mode, w))
  }

  // ---------------------------------------------------------------------------
  // Removing an unprotected digest

  ghost predicate OnlyLoses<T(!new)>(before: seq<T>, after: seq<T>, digest: T -> string, d: string) {
    && (forall r :: r in after ==> r in before)
    && (forall r :: r in before && digest(r) != d ==> r in after)
  }

  function BlobDigest(b: Blob): string { b.digest }
  function TagDigest(t: Tag): string { t.digest }
  function ManifestDigest(m: Manifest): string { m.digest }
  function LinkDigest(l: Link): string { l.digest }

  /** `after` is `before` without some of the rows of `d` and perhaps without
      its object: any point inside the deletion of one digest. */
  ghost predicate Sheds(before: World, after: World, d: string) {
    && (after.objects == before.objects || after.objects == before.objects - {d})
    && OnlyLoses(before.meta.blobs, after.meta.blobs, BlobDigest, d)
    && OnlyLoses(before.meta.tags, after.meta.tags, TagDigest, d)
    && OnlyLoses(before.meta.manifests, after.meta.manifests, ManifestDigest, d)
    && OnlyLoses(before.meta.links, after.meta.links, LinkDigest, d)
    && after.meta.pulls == before.meta.pulls
  }

  lemma RootsGuarded(mode: Mode, w: World)
    ensures Roots(mode, w.meta) <= Guarded(mode, w)
  {
    ClosureIsLeast(EdgesOf(GraphOf(mode, w)), Roots(mode, w.meta));
  }

  /** Every row of a digest outside the roots is inactive. */
  lemma StaleRows(mode: Mode, s: Snapshot, d: string)
    requires mode.prune && d != "" && d !in Roots(mode, s)
    ensures forall b :: b in s.blobs && b.digest == d ==> !BlobRecent(mode.cutoff, b)
    ensures var pulls := ActivePulls(mode.cutoff, s.pulls);
      && (forall t :: t in s.tags && t.digest == d ==> !TagActive(mode.cutoff, pulls, t))
      && (forall m :: m in s.manifests && m.digest == d ==>
            !ManifestActive(mode.cutoff, ActiveTargets(mode.cutoff, pulls, s.tags), m))
    ensures forall l :: l in s.links && l.digest == d ==> !LinkRecent(mode.cutoff, l)
  {
    var pulls := ActivePulls(mode.cutoff, s.pulls);
    var keys := ActiveTargets(mode.cutoff, pulls, s.tags);
    assert d !in BlobRoots(mode.cutoff, s.blobs);
    assert d !in ManifestRoots(mode.cutoff, keys, s.manifests);
    assert d !in TagRoots(mode.cutoff, pulls, s.tags);
    assert d !in LinkRoots(mode.cutoff, s.links);
  }

  lemma SheddingKeepsActiveTargets(cutoff: int, pulls: set<Triple>, before: seq<Tag>, after: seq<Tag>, d: string)
    requires OnlyLoses(before, after, TagDigest, d)
    requires forall t :: t in before && t.digest == d ==> !TagActive(cutoff, pulls, t)
    ensures ActiveTargets(cutoff, pulls, after) == ActiveTargets(cutoff, pulls, before)
    ensures TagRoots(cutoff, pulls, after) == TagRoots(cutoff, pulls, before)
  {
    assert forall t :: TagActive(cutoff, pulls, t) ==> (t in before <==> t in after) by {
      forall t | TagActive(cutoff, pulls, t) ensures t in before <==> t in after {
        assert TagDigest(t) == t.digest;
      }
    }
  }

  lemma SheddingKeepsManifestRoots(cutoff: int, keys: set<Triple>, before: seq<Manifest>, after: seq<Manifest>,
                                   d: string)
    requires OnlyLoses(before, after, ManifestDigest, d)
    requires forall m :: m in before && m.digest == d ==> !ManifestActive(cutoff, keys, m)
    ensures ManifestRoots(cutoff, keys, after) == ManifestRoots(cutoff, keys, before)
  {
    assert forall m :: ManifestActive(cutoff, keys, m) ==> (m in before <==> m in after) by {
      forall m | ManifestActive(cutoff, keys, m) ensures m in before <==> m in after {
        assert ManifestDigest(m) == m.digest;
      }
    }
  }

  lemma SheddingKeepsBlobRoots(cutoff: int, before: seq<Blob>, after: seq<Blob>, d: string)
    requires OnlyLoses(before, after, BlobDigest, d)
    requires forall b :: b in before && b.digest == d ==> !BlobRecent(cutoff, b)
    ensures BlobRoots(cutoff, after) == BlobRoots(cutoff, before)
  {
    assert forall b :: BlobRecent(cutoff, b) ==> (b in before <==> b in after) by {
      forall b | BlobRecent(cutoff, b) ensures b in before <==> b in after {
        assert BlobDigest(b) == b.digest;
      }
    }
  }

  lemma SheddingKeepsLinkRoots(cutoff: int, before: seq<Link>, after: seq<Link>, d: string)
    requires OnlyLoses(before, after, LinkDigest, d)
    requires forall l :: l in before && l.digest == d ==> !LinkRecent(cutoff, l)
    ensures LinkRoots(cutoff, after) == LinkRoots(cutoff, before)
  {
    assert forall l :: LinkRecent(cutoff, l) ==> (l in before <==> l in after) by {
      forall l | LinkRecent(cutoff, l) ensures l in before <==> l in after {
        assert LinkDigest(l) == l.digest;
      }
    }
  }

  lemma SheddingKeepsRoots(mode: Mode, before: World, after: World, d: string)
    requires d != "" && d !in Roots(mode, before.meta) && Sheds(before, after, d)
    ensures Roots(mode, after.meta) == Roots(mode, before.meta)
  {
    var s, t := before.meta, after.meta;
    if mode.prune {
      StaleRows(mode, s, d);
      var pulls := ActivePulls(mode.cutoff, s.pulls);
      SheddingKeepsActiveTargets(mode.cutoff, pulls, s.tags, t.tags, d);
      SheddingKeepsManifestRoots(mode.cutoff, ActiveTargets(mode.cutoff, pulls, s.tags), s.manifests, t.manifests, d);
      SheddingKeepsBlobRoots(mode.cutoff, s.blobs, t.blobs, d);
      SheddingKeepsLinkRoots(mode.cutoff, s.links, t.links, d);
    } else {
      assert forall m :: m in s.manifests ==> m.digest != d;
      forall m | m in s.manifests ensures m in t.manifests {
        assert ManifestDigest(m) == m.digest;
      }
    }
  }

  /** The body of a protected row is protected with it. */
  lemma BodyGuarded(mode: Mode, w: World, m: Manifest)
    requires m in w.meta.manifests && m.digest in Guarded(mode, w)
    ensures BodyKey(m) in Guarded(mode, w)
  {
    var g := GraphOf(mode, w);
    EdgesLink(g);
    ClosureIsLeast(EdgesOf(g), Roots(mode, w.meta));
    assert Targets(g, m) <= Succ(EdgesOf(g), m.digest) <= Guarded(mode, w);
    if m.objectKey != "" {
      assert m.objectKey in Targets(g, m);
    }
  }

  lemma SameBodySameChildren(mode: Mode, before: World, after: World, m: Manifest, d: string)
    requires after.objects == before.objects || after.objects == before.objects - {d}
    requires BodyKey(m) != d
    ensures Children(GraphOf(mode, after), m) == Children(GraphOf(mode, before), m)
    ensures Targets(GraphOf(mode, after), m) == Targets(GraphOf(mode, before), m)
  {
    assert ReadManifest(after.objects, m) == ReadManifest(before.objects, m);
  }

  lemma SheddingKeepsEdges(mode: Mode, before: World, after: World, x: string, d: string)
    requires x in Guarded(mode, before) && d !in Guarded(mode, before) && Sheds(before, after, d)
    ensures Succ(EdgesOf(GraphOf(mode, before)), x) == Succ(EdgesOf(GraphOf(mode, after)), x)
  {
    var g, h := GraphOf(mode, before), GraphOf(mode, after);
    EdgesLink(g);
    EdgesLink(h);
    forall m: Manifest | m.digest == x ensures m in g.rows <==> m in h.rows {
      assert ManifestDigest(m) == x;
    }
    forall m | m in g.rows && m.digest == x ensures Targets(g, m) == Targets(h, m) {
      BodyGuarded(mode, before, m);
      SameBodySameChildren(mode, before, after, m, d);
    }
    forall t | t in Succ(EdgesOf(g), x) ensures t in Succ(EdgesOf(h), x) {
      var m :| m in g.rows && m.digest == x && t in Targets(g, m);
      assert m in h.rows && t in Targets(h, m);
    }
    forall t | t in Succ(EdgesOf(h), x) ensures t in Succ(EdgesOf(g), x) {
      var m :| m in h.rows && m.digest == x && t in Targets(h, m);
      assert m in g.rows && t in Targets(g, m);
    }
  }

  /** Deleting an unprotected digest, whole or in part, leaves the protected set
      as it was; so does every point inside that deletion. */
  lemma SheddingKeepsGuarded(mode: Mode, before: World, after: World, d: string)
    requires d != "" && d !in Guarded(mode, before) && Sheds(before, after, d)
    ensures Guarded(mode, after) == Guarded(mode, before)
  {
    RootsGuarded(mode, before);
    SheddingKeepsRoots(mode, before, after, d);
    forall x | x in Guarded(mode, before)
      ensures Succ(EdgesOf(GraphOf(mode, before)), x) == Succ(EdgesOf(GraphOf(mode, after)), x)
    {
      SheddingKeepsEdges(mode, before, after, x, d);
    }
    ClosureAgrees(EdgesOf(GraphOf(mode, before)), EdgesOf(GraphOf(mode, after)), Roots(mode, before.meta));
  }

  /** A manifest of the protected set stays as readable as it was. */
  lemma SheddingKeepsReadable(mode: Mode, before: World, after: World, d: string)
    requires d != "" && d !in Guarded(mode, before) && Sheds(before, after, d)
    requires Readable(GraphOf(mode, before), Guarded(mode, before))
    ensures Readable(GraphOf(mode, after), Guarded(mode, after))
  {
    SheddingKeepsGuarded(mode, before, after, d);
    forall m | m in after.meta.manifests && m.digest in Guarded(mode, after)
      ensures Children(GraphOf(mode, after), m).Ok?
    {
      assert m in before.meta.manifests;
      BodyGuarded(mode, before, m);
      SameBodySameChildren(mode, before, after, m, d);
    }
  }

  // ---------------------------------------------------------------------------
  // Loading

  /** What a walk of a world returns: in steady mode the protected set; otherwise
      at least that and at most what a store without failures would give. */
  ghost predicate Walked(mode: Mode, w: World, guarded: set<string>) {
    && Guarded(mode, w) <= guarded <= Reach(Healthy(GraphOf(mode, w)), Roots(mode, w.meta))
    && (Steady(mode) ==> guarded == Guarded(mode, w))
    && Fits(mode.limits, guarded) && Walkable(mode, w)
  }

  /** The graph as one walk sees it, with the reads that fail during that walk. */
  function GraphSeen(mode: Mode, w: World, failed: set<string>): Graph {
    GraphOf(mode, w).(failing := failed)
  }

  lemma StrictWalked(mode: Mode, w: World, failed: set<string>)
    requires mode.prune
    requires var g := GraphSeen(mode, w, failed); var reach := Reach(g, Roots(mode, w.meta));
      Fits(mode.limits, reach) && Readable(g, reach)
    ensures Walked(mode, w, Reach(GraphSeen(mode, w, failed), Roots(mode, w.meta)))
  {
    var g, roots := GraphSeen(mode, w, failed), Roots(mode, w.meta);
    StrictReadFailureIsError(g, roots);
    assert Healthy(g) == GraphOf(mode, w);
    forall m | m in g.rows && m.digest in Reach(g, roots) ensures Children(GraphOf(mode, w), m).Ok? {
      FaultIsReal(g, m);
    }
  }

  lemma LenientWalked(mode: Mode, w: World, failed: set<string>)
    requires !mode.prune && failed <= mode.flaky
    requires var g := GraphSeen(mode, w, failed); var reach := Reach(g, Roots(mode, w.meta));
      Fits(mode.limits, reach) && Readable(g, reach)
    ensures Walked(mode, w, Reach(GraphSeen(mode, w, failed), Roots(mode, w.meta)))
  {
    var g, h, roots := GraphOf(mode, w), GraphSeen(mode, w, failed), Roots(mode, w.meta);
    FewerFailuresProtectMore(g, failed, roots);
    FewerFailuresProtectMore(h, {}, roots);
    assert Healthy(g) == Healthy(h) == h.(failing := {}) && g.(failing := failed) == h;
    SubsetFits(Reach(g, roots), Reach(h, roots));
    forall m | m in g.rows && m.digest in Reach(g, roots) ensures Children(g, m).Ok? {
      if !ReadFails(g, m) {
        FaultIsReal(g, m);
        FaultIsReal(h, m);
      }
    }
  }

  /** A fault other than a failed read is in the graph itself. */
  lemma WalkFails(mode: Mode, w: World, failed: set<string>, error: Fault)
    requires Steady(mode) && failed <= mode.flaky && error !in {Canceled, StoreFailed}
    requires var g := GraphSeen(mode, w, failed); var reach := Reach(g, Roots(mode, w.meta));
      (error == LimitExceeded && !Fits(mode.limits, reach)) || Faulty(g, reach, error)
    ensures !Walkable(mode, w)
  {
    var h, roots := GraphSeen(mode, w, failed), Roots(mode, w.meta);
    var g := GraphOf(mode, w);
    FewerFailuresProtectMore(h, g.failing, roots);
    assert h.(failing := g.failing) == g;
    if error == LimitExceeded && !Fits(mode.limits, Reach(h, roots)) {
      if Fits(mode.limits, Reach(g, roots)) {
        SubsetFits(Reach(h, roots), Reach(g, roots));
      }
    } else {
      var m :| m in h.rows && m.digest in Reach(h, roots) && Children(h, m) == Err(error);
      FaultIsReal(h, m);
      FaultIsReal(g, m);
      assert Children(g, m).Err?;
    }
  }

  /** What a loaded snapshot must say about a world. */
  ghost predicate RefsOf(mode: Mode, w: World, refs: Refs) {
    && Walked(mode, w, refs.guarded)
    && (mode.prune ==>
          var pulls := ActivePulls(mode.cutoff, w.meta.pulls);
          var keys := ActiveTargets(mode.cutoff, pulls, w.meta.tags);
          && StaleExactly(w.meta.tags, refs.staleTags, TagKey, t => !TagActive(mode.cutoff, pulls, t))
          && StaleExactly(w.meta.manifests, refs.staleManifests, ManifestKey,
                          m => !ManifestActive(mode.cutoff, keys, m))
          && StaleExactly(w.meta.links, refs.staleLinks, LinkKey, l => !LinkRecent(mode.cutoff, l)))
  }

  ghost predicate StaleExactly<T(!new)>(rows: seq<T>, stale: seq<T>, key: T -> string, isStale: T -> bool) {
    && (forall r :: r in stale <==> r in rows && isStale(r))
    && UniqueKeys(stale, key)
  }

  /** One `classify*` loop: the stale rows of a relation. */
  method StaleOf<T(!new)>(rows: seq<T>, key: T -> string, isStale: T -> bool) returns (stale: seq<T>)
    requires UniqueKeys(rows, key)
    ensures StaleExactly(rows, stale, key, isStale)
  {
    stale := [];
    for i := 0 to |rows|
      invariant StaleExactly(rows[..i], stale, key, isStale)
    {
      assert rows[..i + 1] == rows[..i] + [rows[i]];
      if isStale(rows[i]) {
        forall r | r in stale ensures key(r) != key(rows[i]) {
          var j :| 0 <= j < i && rows[j] == r;
        }
        stale := stale + [rows[i]];
      }
    }
    assert rows[..|rows|] == rows;
  }

  method ActivePullReferences(cutoff: int, pulls: seq<Pull>) returns (active: set<Triple>)
    ensures active == ActivePulls(cutoff, pulls)
  {
    active := {};
    for i := 0 to |pulls|
      invariant active == ActivePulls(cutoff, pulls[..i])
    {
      assert pulls[..i + 1] == pulls[..i] + [pulls[i]];
      if PullRecent(cutoff, pulls[i]) {
        active := active + {PullTriple(pulls[i])};
      }
    }
    assert pulls[..|pulls|] == pulls;
  }

  /** Tag activity by key, and the manifests that active tags point at. */
  method ActiveTagReferences(cutoff: int, tags: seq<Tag>, activePulls: set<Triple>)
    returns (activeTags: map<Triple, bool>, activeManifests: set<Triple>)
    requires UniqueKeys(tags, TagKey)
    ensures forall t :: t in tags ==>
      TagTriple(t) in activeTags && activeTags[TagTriple(t)] == TagActive(cutoff, activePulls, t)
    ensures activeManifests == ActiveTargets(cutoff, activePulls, tags)
  {
    activeTags, activeManifests := map[], {};
    for i := 0 to |tags|
      invariant forall j :: 0 <= j < i ==>
        TagTriple(tags[j]) in activeTags && activeTags[TagTriple(tags[j])] == TagActive(cutoff, activePulls, tags[j])
      invariant activeManifests == ActiveTargets(cutoff, activePulls, tags[..i])
    {
      assert tags[..i + 1] == tags[..i] + [tags[i]];
      var active := TagActive(cutoff, activePulls, tags[i]);
      forall j | 0 <= j < i ensures TagTriple(tags[j]) != TagTriple(tags[i]) {
        assert TagKey(tags[j]) != TagKey(tags[i]);
      }
      activeTags := activeTags[TagTriple(tags[i]) := active];
      if active {
        activeManifests := activeManifests + {TagTarget(tags[i])};
      }
    }
    assert tags[..|tags|] == tags;
  }

  method ProtectRecentBlobActivity(cutoff: int, blobs: seq<Blob>) returns (roots: set<string>)
    ensures roots == BlobRoots(cutoff, blobs)
  {
    roots := {};
    for i := 0 to |blobs|
      invariant roots == BlobRoots(cutoff, blobs[..i])
    {
      assert blobs[..i + 1] == blobs[..i] + [blobs[i]];
      if BlobRecent(cutoff, blobs[i]) {
        roots := roots + {blobs[i].digest, blobs[i].objectKey} - {""};
      }
    }
    assert blobs[..|blobs|] == blobs;
  }

  method ProtectActiveManifests(cutoff: int, manifests: seq<Manifest>, keys: set<Triple>) returns (roots: set<string>)
    ensures roots == ManifestRoots(cutoff, keys, manifests)
  {
    roots := {};
    for i := 0 to |manifests|
      invariant roots == ManifestRoots(cutoff, keys, manifests[..i])
    {
      assert manifests[..i + 1] == manifests[..i] + [manifests[i]];
      if ManifestActive(cutoff, keys, manifests[i]) {
        roots := roots + {manifests[i].digest, manifests[i].objectKey} - {""};
      }
    }
    assert manifests[..|manifests|] == manifests;
  }

  method ProtectActiveTags(cutoff: int, ghost pulls: set<Triple>, tags: seq<Tag>, activeTags: map<Triple, bool>)
    returns (roots: set<string>)
    requires forall t :: t in tags ==>
      TagTriple(t) in activeTags && activeTags[TagTriple(t)] == TagActive(cutoff, pulls, t)
    ensures roots == TagRoots(cutoff, pulls, tags)
  {
    roots := {};
    for i := 0 to |tags|
      invariant roots == TagRoots(cutoff, pulls, tags[..i])
    {
      assert tags[..i + 1] == tags[..i] + [tags[i]];
      if activeTags[TagTriple(tags[i])] {
        roots := roots + {tags[i].digest} - {""};
      }
    }
    assert tags[..|tags|] == tags;
  }

  method ProtectRecentLinks(cutoff: int, links: seq<Link>) returns (roots: set<string>)
    ensures roots == LinkRoots(cutoff, links)
  {
    roots := {};
    for i := 0 to |links|
      invariant roots == LinkRoots(cutoff, links[..i])
    {
      assert links[..i + 1] == links[..i] + [links[i]];
      if LinkRecent(cutoff, links[i]) {
        roots := roots + {links[i].digest} - {""};
      }
    }
    assert links[..|links|] == links;
  }

  method ProtectAllManifests(manifests: seq<Manifest>) returns (roots: set<string>)
    ensures roots == AllManifestRoots(manifests)
  {
    roots := {};
    for i := 0 to |manifests|
      invariant roots == AllManifestRoots(manifests[..i])
    {
      assert manifests[..i + 1] == manifests[..i] + [manifests[i]];
      roots := roots + {manifests[i].digest, manifests[i].objectKey} - {""};
    }
    assert manifests[..|manifests|] == manifests;
  }

  /** One walk, during which the store fails the reads of some flaky keys. */
  method WalkReferences(mode: Mode, w: World, roots: set<string>) returns (r: Result<set<string>>)
    requires roots == Roots(mode, w.meta)
    ensures r.Ok? ==> Walked(mode, w, r.value)
    ensures r.Err? && Steady(mode) ==> r.error in {Canceled, StoreFailed} || !Walkable(mode, w)
    ensures r.Err? ==> r.error in {Canceled, LimitExceeded, Unreadable, StoreFailed}
  {
    var hiccups: set<string> := *;
    var failed := hiccups * mode.flaky;
    r := ProtectManifestGraph(GraphSeen(mode, w, failed), mode.limits, roots);
    if r.Ok? {
      if mode.prune {
        StrictWalked(mode, w, failed);
      } else {
        LenientWalked(mode, w, failed);
      }
    } else if Steady(mode) && r.error !in {Canceled, StoreFailed} {
      WalkFails(mode, w, failed, r.error);
    }
  }

  /** Loads the references of a world. The metadata store may fail, and so may the
      object store on any flaky key. A strict load returns the true protected set or
      an error. Apart from cancellation and a failed read, a steady load fails only
      when the protected set is over budget or holds an unreadable manifest. */
  method LoadReferences(mode: Mode, w: World) returns (r: Result<Refs>)
    requires ValidSnapshot(w.meta)
    ensures r.Ok? ==> RefsOf(mode, w, r.value)
    ensures r.Err? && Steady(mode) ==> r.error in {Canceled, StoreFailed} || !Walkable(mode, w)
    ensures r.Err? ==> r.error in {Canceled, LimitExceeded, Unreadable, StoreFailed}
  {
    var canceled: bool := *;
    if canceled { return Err(Canceled); }
    var failed: bool := *;
    if failed { return Err(StoreFailed); }
    if !mode.prune {
      var all := ProtectAllManifests(w.meta.manifests);
      var walked := WalkReferences(mode, w, all);
      if walked.Err? { return Err(walked.error); }
      return Ok(Refs(walked.value, [], [], []));
    }
    var blobRoots := ProtectRecentBlobActivity(mode.cutoff, w.meta.blobs);
    var pulls := ActivePullReferences(mode.cutoff, w.meta.pulls);
    var activeTags, keys := ActiveTagReferences(mode.cutoff, w.meta.tags, pulls);
    var manifestRoots := ProtectActiveManifests(mode.cutoff, w.meta.manifests, keys);
    var staleManifests := StaleOf(w.meta.manifests, ManifestKey, m => !ManifestActive(mode.cutoff, keys, m));
    var tagRoots := ProtectActiveTags(mode.cutoff, pulls, w.meta.tags, activeTags);
    var staleTags := StaleOf(w.meta.tags, TagKey, t => !TagActive(mode.cutoff, pulls, t));
    var linkRoots := ProtectRecentLinks(mode.cutoff, w.meta.links);
    var staleLinks := StaleOf(w.meta.links, LinkKey, l => !LinkRecent(mode.cutoff, l));
    var roots := blobRoots + manifestRoots + tagRoots + linkRoots;
    var walked := WalkReferences(mode, w, roots);
    if walked.Err? { return Err(walked.error); }
    return Ok(Refs(walked.value, staleTags, staleManifests, staleLinks));
  }
}
