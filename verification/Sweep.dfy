/** The physical sweep itself, with a recheck before every deletion. */
module Sweep {
  import opened Records
  import opened GraphWalk
  import opened References
  import opened Sorting
  import opened SweepPlan
  import opened Stores

  // ---------------------------------------------------------------------------
  // What no sweep may damage

  ghost predicate KeepsRows<T(!new)>(before: seq<T>, after: seq<T>, digest: T -> string, guarded: set<string>) {
    && (forall r :: r in after ==> r in before)
    && (forall r :: r in before && digest(r) in guarded ==> r in after)
  }

  /** `after` only lost rows and objects of digests outside `guarded`. */
  ghost predicate Keeps(guarded: set<string>, before: World, after: World) {
    && KeepsRows(before.meta.blobs, after.meta.blobs, BlobDigest, guarded)
    && KeepsRows(before.meta.tags, after.meta.tags, TagDigest, guarded)
    && KeepsRows(before.meta.manifests, after.meta.manifests, ManifestDigest, guarded)
    && KeepsRows(before.meta.links, after.meta.links, LinkDigest, guarded)
    && after.meta.pulls == before.meta.pulls
    && (forall k :: k in after.objects ==> k in before.objects && after.objects[k] == before.objects[k])
    && (forall k :: k in before.objects && k in guarded ==> k in after.objects)
  }

  /** The recomputed protected set is the original one and all of it is there. */
  ghost predicate Intact(mode: Mode, guarded: set<string>, before: World, after: World) {
    Guarded(mode, after) == guarded && Keeps(guarded, before, after)
  }

  lemma ShedsKeeps(guarded: set<string>, start: World, before: World, after: World, d: string)
    requires Keeps(guarded, start, before) && Sheds(before, after, d) && d !in guarded
    ensures Keeps(guarded, start, after)
  {
  }

  lemma ShedsIntact(mode: Mode, guarded: set<string>, start: World, before: World, after: World, d: string)
    requires Intact(mode, guarded, start, before) && Sheds(before, after, d) && d !in guarded && d != ""
    ensures Intact(mode, guarded, start, after)
  {
    SheddingKeepsGuarded(mode, before, after, d);
    ShedsKeeps(guarded, start, before, after, d);
  }

  // ---------------------------------------------------------------------------
  // Pruning the stale rows of one digest

  /** Every world recorded from `from` on lies inside the deletion of `d`. */
  ghost predicate AllShed(w: World, trace: seq<World>, from: nat, d: string) {
    forall i :: from <= i < |trace| ==> Sheds(w, trace[i], d)
  }

  /** Every world recorded from `from` on has the objects and blob rows of `w`. */
  ghost predicate AllRows(w: World, trace: seq<World>, from: nat) {
    forall i :: from <= i < |trace| ==> trace[i].objects == w.objects && trace[i].meta.blobs == w.meta.blobs
  }

  /** The rows from `i` on are still stored, each under its own key. */
  ghost predicate Pending<T(!new)>(rows: seq<T>, stale: seq<T>, key: T -> string, i: nat) {
    UniqueKeys(stale, key) && forall j :: i <= j < |stale| ==> stale[j] in rows
  }

  ghost predicate Pruned<T(!new)>(rows: seq<T>, stale: seq<T>, digest: T -> string, d: string, i: nat) {
    forall j :: 0 <= j < i && j < |stale| && digest(stale[j]) == d ==> stale[j] !in rows
  }

  lemma PruneStep<T(!new)>(rows: seq<T>, stale: seq<T>, key: T -> string, digest: T -> string, d: string, i: nat)
    requires UniqueKeys(rows, key) && i < |stale| && Pending(rows, stale, key, i)
    requires Pruned(rows, stale, digest, d, i)
    ensures Find(rows, key, key(stale[i])) == Some(stale[i])
    ensures Pending(Except(rows, key, {key(stale[i])}), stale, key, i + 1)
    ensures Pruned(Except(rows, key, {key(stale[i])}), stale, digest, d, i + 1)
  {
    FindsRow(rows, key, stale[i]);
  }

  method PruneTags(store: Store, d: string, stale: seq<Tag>, ghost w: World) returns (r: Result<bool>)
    requires ValidSnapshot(store.world.meta) && Sheds(w, store.world, d)
    requires Pending(store.world.meta.tags, stale, TagKey, 0)
    modifies store
    ensures ValidSnapshot(store.world.meta) && Sheds(w, store.world, d)
    ensures old(store.trace) <= store.trace && AllShed(w, store.trace, |old(store.trace)|, d)
    ensures OnlyTagsChanged(old(store.world), store.world)
    ensures AllRows(old(store.world), store.trace, |old(store.trace)|)
    ensures r.Ok? ==> r.value && Pruned(store.world.meta.tags, stale, TagDigest, d, |stale|)
    ensures r.Err? ==> r.error == StoreFailed
  {
    for i := 0 to |stale|
      invariant ValidSnapshot(store.world.meta) && Sheds(w, store.world, d)
      invariant old(store.trace) <= store.trace && AllShed(w, store.trace, |old(store.trace)|, d)
      invariant OnlyTagsChanged(old(store.world), store.world)
      invariant AllRows(old(store.world), store.trace, |old(store.trace)|)
      invariant Pending(store.world.meta.tags, stale, TagKey, i)
      invariant Pruned(store.world.meta.tags, stale, TagDigest, d, i)
    {
      if stale[i].digest == d {
        PruneStep(store.world.meta.tags, stale, TagKey, TagDigest, d, i);
        ShedsTag(w, store.world, d, stale[i]);
        var deleted := store.DeleteTagIfUnchanged(stale[i]);
        if deleted != Ok(true) { return deleted; }
      }
    }
    return Ok(true);
  }

  method PruneManifests(store: Store, d: string, stale: seq<Manifest>, ghost w: World) returns (r: Result<bool>)
    requires ValidSnapshot(store.world.meta) && Sheds(w, store.world, d)
    requires Pending(store.world.meta.manifests, stale, ManifestKey, 0)
    modifies store
    ensures ValidSnapshot(store.world.meta) && Sheds(w, store.world, d)
    ensures old(store.trace) <= store.trace && AllShed(w, store.trace, |old(store.trace)|, d)
    ensures OnlyManifestsChanged(old(store.world), store.world)
    ensures AllRows(old(store.world), store.trace, |old(store.trace)|)
    ensures r.Ok? ==> r.value && Pruned(store.world.meta.manifests, stale, ManifestDigest, d, |stale|)
    ensures r.Err? ==> r.error == StoreFailed
  {
    for i := 0 to |stale|
      invariant ValidSnapshot(store.world.meta) && Sheds(w, store.world, d)
      invariant old(store.trace) <= store.trace && AllShed(w, store.trace, |old(store.trace)|, d)
      invariant OnlyManifestsChanged(old(store.world), store.world)
      invariant AllRows(old(store.world), store.trace, |old(store.trace)|)
      invariant Pending(store.world.meta.manifests, stale, ManifestKey, i)
      invariant Pruned(store.world.meta.manifests, stale, ManifestDigest, d, i)
    {
      if stale[i].digest == d {
        PruneStep(store.world.meta.manifests, stale, ManifestKey, ManifestDigest, d, i);
        ShedsManifest(w, store.world, d, stale[i]);
        var deleted := store.DeleteManifestIfUnchanged(stale[i]);
        if deleted != Ok(true) { return deleted; }
      }
    }
    return Ok(true);
  }

  method PruneLinks(store: Store, d: string, stale: seq<Link>, ghost w: World) returns (r: Result<bool>)
    requires ValidSnapshot(store.world.meta) && Sheds(w, store.world, d)
    requires Pending(store.world.meta.links, stale, LinkKey, 0)
    modifies store
    ensures ValidSnapshot(store.world.meta) && Sheds(w, store.world, d)
    ensures old(store.trace) <= store.trace && AllShed(w, store.trace, |old(store.trace)|, d)
    ensures OnlyLinksChanged(old(store.world), store.world)
    ensures AllRows(old(store.world), store.trace, |old(store.trace)|)
    ensures r.Ok? ==> r.value && Pruned(store.world.meta.links, stale, LinkDigest, d, |stale|)
    ensures r.Err? ==> r.error == StoreFailed
  {
    for i := 0 to |stale|
      invariant ValidSnapshot(store.world.meta) && Sheds(w, store.world, d)
      invariant old(store.trace) <= store.trace && AllShed(w, store.trace, |old(store.trace)|, d)
      invariant OnlyLinksChanged(old(store.world), store.world)
      invariant AllRows(old(store.world), store.trace, |old(store.trace)|)
      invariant Pending(store.world.meta.links, stale, LinkKey, i)
      invariant Pruned(store.world.meta.links, stale, LinkDigest, d, i)
    {
      if stale[i].digest == d {
        PruneStep(store.world.meta.links, stale, LinkKey, LinkDigest, d, i);
        ShedsLink(w, store.world, d, stale[i]);
        var deleted := store.DeleteLinkIfUnchanged(stale[i]);
        if deleted != Ok(true) { return deleted; }
      }
    }
    return Ok(true);
  }

  ghost predicate OnlyTagsChanged(before: World, after: World) {
    after == before.(meta := before.meta.(tags := after.meta.tags))
  }

  ghost predicate OnlyManifestsChanged(before: World, after: World) {
    after == before.(meta := before.meta.(manifests := after.meta.manifests))
  }

  ghost predicate OnlyLinksChanged(before: World, after: World) {
    after == before.(meta := before.meta.(links := after.meta.links))
  }

  // ---------------------------------------------------------------------------
  // Deleting one blob

  ghost predicate Sound(mode: Mode, guarded: set<string>, start: World, w: World) {
    ValidSnapshot(w.meta) && Intact(mode, guarded, start, w) && Walkable(mode, w)
  }

  ghost predicate AllIntact(mode: Mode, guarded: set<string>, start: World, trace: seq<World>, from: nat) {
    forall i :: from <= i < |trace| ==> Intact(mode, guarded, start, trace[i])
  }

  lemma ShedsSound(mode: Mode, guarded: set<string>, start: World, before: World, after: World, d: string)
    requires Sound(mode, guarded, start, before) && Sheds(before, after, d) && d !in guarded && d != ""
    requires ValidSnapshot(after.meta)
    ensures Sound(mode, guarded, start, after)
  {
    ShedsIntact(mode, guarded, start, before, after, d);
    SheddingKeepsReadable(mode, before, after, d);
  }

  lemma TraceIntact(mode: Mode, guarded: set<string>, start: World, before: World, trace: seq<World>, from: nat,
                    d: string)
    requires Intact(mode, guarded, start, before) && AllShed(before, trace, from, d) && d !in guarded && d != ""
    ensures AllIntact(mode, guarded, start, trace, from)
  {
    forall i | from <= i < |trace| ensures Intact(mode, guarded, start, trace[i]) {
      ShedsIntact(mode, guarded, start, before, trace[i], d);
    }
  }

  /** The faults that may end a pass after its first load. In steady mode neither a
      budget nor a manifest can. */
  predicate LateFault(mode: Mode, e: Fault) {
    e in {Canceled, StoreFailed} || (!Steady(mode) && e in {LimitExceeded, Unreadable})
  }

  /** A second look at one digest: the row as it is now, loaded references, and the
      decision that they give. */
  ghost predicate Rechecked(mode: Mode, w: World, digest: string, report: Report, row: Option<Blob>, refs: Refs,
                            next: Report)
  {
    var found := Find(w.meta.blobs, BlobKey, digest);
    if found.None? then row == None && next == report
    else
      var reason := Classify(mode, refs.guarded, found.value);
      && RefsOf(mode, w, refs)
      && row == (if CandidateEligible(mode, report, reason) then found else None)
      && next == (if CandidateEligible(mode, report, reason) then report else RecordSkip(report, reason))
  }

  /** Rereads the row and the references and decides again. */
  method RecheckBlob(store: Store, mode: Mode, digest: string, report: Report)
    returns (r: Result<(Option<Blob>, Refs, Report)>)
    requires ValidSnapshot(store.world.meta) && Walkable(mode, store.world)
    ensures r.Err? ==> LateFault(mode, r.error)
    ensures r.Ok? ==> Rechecked(mode, store.world, digest, report, r.value.0, r.value.1, r.value.2)
  {
    var found := store.LookupBlob(digest);
    if found.Err? { return Err(found.error); }
    if found.value.None? { return Ok((None, Refs({}, [], [], []), report)); }
    var refs := LoadReferences(mode, store.world);
    if refs.Err? { return Err(refs.error); }
    var reason := Classify(mode, refs.value.guarded, found.value.value);
    if !CandidateEligible(mode, report, reason) {
      return Ok((None, refs.value, RecordSkip(report, reason)));
    }
    return Ok((found.value, refs.value, report));
  }

  ghost predicate RefsPending(mode: Mode, w: World, refs: Refs) {
    && Pending(w.meta.tags, refs.staleTags, TagKey, 0)
    && Pending(w.meta.manifests, refs.staleManifests, ManifestKey, 0)
    && Pending(w.meta.links, refs.staleLinks, LinkKey, 0)
  }

  /** No stale reference to `d` is left. */
  ghost predicate RefsPruned(w: World, refs: Refs, d: string) {
    && Pruned(w.meta.tags, refs.staleTags, TagDigest, d, |refs.staleTags|)
    && Pruned(w.meta.manifests, refs.staleManifests, ManifestDigest, d, |refs.staleManifests|)
    && Pruned(w.meta.links, refs.staleLinks, LinkDigest, d, |refs.staleLinks|)
  }

  method PruneReferences(store: Store, mode: Mode, d: string, refs: Refs, ghost w: World) returns (r: Result<bool>)
    requires ValidSnapshot(store.world.meta) && Sheds(w, store.world, d)
    requires RefsPending(mode, store.world, refs)
    modifies store
    ensures ValidSnapshot(store.world.meta) && Sheds(w, store.world, d)
    ensures old(store.trace) <= store.trace && AllShed(w, store.trace, |old(store.trace)|, d)
    ensures r.Err? ==> r.error == StoreFailed
    ensures store.world.objects == old(store.world).objects
    ensures store.world.meta.blobs == old(store.world).meta.blobs
    ensures AllRows(old(store.world), store.trace, |old(store.trace)|)
    ensures r.Ok? ==> r.value && RefsPruned(store.world, refs, d)
  {
    r := PruneTags(store, d, refs.staleTags, w);
    if r != Ok(true) { return; }
    r := PruneManifests(store, d, refs.staleManifests, w);
    if r != Ok(true) { return; }
    r := PruneLinks(store, d, refs.staleLinks, w);
  }

  method DropBlobRow(store: Store, b: Blob, ghost w: World) returns (r: Result<bool>)
    requires ValidSnapshot(store.world.meta) && b in store.world.meta.blobs && Sheds(w, store.world, b.digest)
    modifies store
    ensures ValidSnapshot(store.world.meta) && Sheds(w, store.world, b.digest)
    ensures old(store.trace) <= store.trace && AllShed(w, store.trace, |old(store.trace)|, b.digest)
    ensures r.Err? ==> r.error == StoreFailed
    ensures r.Ok? ==> r.value && store.world == WithoutBlobs(old(store.world), {b.digest})
    ensures store.trace == old(store.trace) + if r.Ok? then [store.world] else []
  {
    FindsRow(store.world.meta.blobs, BlobKey, b);
    ShedsBlob(w, store.world, b.digest);
    r := store.DeleteBlobIfUnchanged(b);
  }

  /** Every world recorded from `from` on has the objects of `w`, and all but the last
      its blob rows. */
  ghost predicate RowLast(w: World, trace: seq<World>, from: nat) {
    && (forall i :: from <= i < |trace| ==> trace[i].objects == w.objects)
    && (forall i :: from <= i < |trace| - 1 ==> trace[i].meta.blobs == w.meta.blobs)
  }

  /** Prunes the stale references of a digest whose object is gone, then its row. */
  method FinishBlobDeletion(store: Store, mode: Mode, b: Blob, refs: Refs, ghost w: World) returns (r: Result<bool>)
    requires ValidSnapshot(store.world.meta) && b in store.world.meta.blobs && Sheds(w, store.world, b.digest)
    requires mode.prune ==> RefsPending(mode, store.world, refs)
    modifies store
    ensures ValidSnapshot(store.world.meta) && Sheds(w, store.world, b.digest)
    ensures old(store.trace) <= store.trace && AllShed(w, store.trace, |old(store.trace)|, b.digest)
    ensures r.Err? ==> r.error == StoreFailed
    ensures r.Ok? ==> r.value && store.world.objects == old(store.world).objects
    ensures r.Ok? ==> store.world.meta.blobs == Except(old(store.world).meta.blobs, BlobKey, {b.digest})
    ensures r.Ok? && !mode.prune ==> store.world == WithoutBlobs(old(store.world), {b.digest})
    ensures r.Ok? && mode.prune ==> RefsPruned(store.world, refs, b.digest)
    ensures RowLast(old(store.world), store.trace, |old(store.trace)|)
  {
    if mode.prune {
      r := PruneReferences(store, mode, b.digest, refs, w);
      if r != Ok(true) { return; }
    }
    r := DropBlobRow(store, b, w);
  }

  // ---------------------------------------------------------------------------

  datatype Outcome = Outcome(deleted: bool, report: Report, refs: Refs)

  /** Loaded references protect all that must be protected. */
  ghost predicate Covers(mode: Mode, refs: Refs, guarded: set<string>) {
    guarded <= refs.guarded && (Steady(mode) ==> refs.guarded == guarded)
  }

  /** `t` is `s` without every tag, manifest and link of some digests. */
  ghost predicate RowsGone(digests: set<string>, s: Snapshot, t: Snapshot) {
    && (forall r :: r in t.tags <==> r in s.tags && r.digest !in digests)
    && (forall r :: r in t.manifests <==> r in s.manifests && r.digest !in digests)
    && (forall r :: r in t.links <==> r in s.links && r.digest !in digests)
    && t.pulls == s.pulls
  }

  /** The object and the row of one digest are gone; a pruning pass also removed
      exactly its tags, manifests and links, any other pass no other row. */
  ghost predicate Removed(mode: Mode, d: string, before: World, after: World) {
    && after.objects == before.objects - {d}
    && after.meta.blobs == Except(before.meta.blobs, BlobKey, {d})
    && (if mode.prune then RowsGone({d}, before.meta, after.meta)
        else after.meta == before.meta.(blobs := after.meta.blobs))
  }

  /** Every row of an unprotected digest is stale, so pruning leaves none. */
  lemma PrunedAll(mode: Mode, before: World, after: World, refs: Refs, d: string)
    requires mode.prune && d != "" && d !in Guarded(mode, before) && RefsOf(mode, before, refs)
    requires Sheds(before, after, d) && RefsPruned(after, refs, d)
    ensures RowsGone({d}, before.meta, after.meta)
  {
    RootsGuarded(mode, before);
    StaleRows(mode, before.meta, d);
    forall t | t in before.meta.tags && t.digest == d ensures t !in after.meta.tags {
      assert t in refs.staleTags && TagDigest(t) == d;
    }
    forall m | m in before.meta.manifests && m.digest == d ensures m !in after.meta.manifests {
      assert m in refs.staleManifests && ManifestDigest(m) == d;
    }
    forall l | l in before.meta.links && l.digest == d ensures l !in after.meta.links {
      assert l in refs.staleLinks && LinkDigest(l) == d;
    }
    OthersKept(before, after, d);
  }

  lemma OthersKept(before: World, after: World, d: string)
    requires Sheds(before, after, d)
    ensures forall t :: t in before.meta.tags && t.digest != d ==> t in after.meta.tags
    ensures forall m :: m in before.meta.manifests && m.digest != d ==> m in after.meta.manifests
    ensures forall l :: l in before.meta.links && l.digest != d ==> l in after.meta.links
  {
    assert forall t: Tag :: TagDigest(t) == t.digest;
    assert forall m: Manifest :: ManifestDigest(m) == m.digest;
    assert forall l: Link :: LinkDigest(l) == l.digest;
  }

  /** What one deletion attempt does to the report and to the stores. */
  ghost predicate Attempted(mode: Mode, guarded: set<string>, digest: string, report: Report, before: World,
                            after: World, out: Outcome)
  {
    var found := Find(before.meta.blobs, BlobKey, digest);
    if found.None? then !out.deleted && out.report == report && after == before
    else if !CandidateEligible(mode, report, Classify(mode, guarded, found.value)) then
      !out.deleted && out.report == RecordSkip(report, Classify(mode, guarded, found.value)) && after == before
    else
      var stat := StatOf(before.objects, digest);
      && out.deleted && digest !in guarded
      && out.report == RecordDelete(report, found.value, stat.size, stat.missing)
      && Removed(mode, digest, before, after)
  }

  /** The report names a digest if and only if the digest was removed. */
  ghost predicate Tracked(mode: Mode, dry: bool, d: string, report: Report, next: Report, before: World, after: World) {
    || (SameMeasure(report, next) && after == before)
    || (next.deletedDigests == report.deletedDigests + [d] &&
        if dry then after == before else Removed(mode, d, before, after) && Weighed(before.objects, d, report, next))
  }

  /** Nothing more was deleted or measured. */
  predicate SameMeasure(report: Report, next: Report) {
    && next.deletedDigests == report.deletedDigests
    && next.bytesDeleted == report.bytesDeleted && next.missingObjects == report.missingObjects
    && next.eligible == report.eligible && next.deletedBlobs == report.deletedBlobs
  }

  /** What became eligible was deleted. */
  predicate InStep(report: Report, next: Report) {
    next.eligible - report.eligible == next.deletedBlobs - report.deletedBlobs ==
      |next.deletedDigests| - |report.deletedDigests|
  }

  /** Every eligible blob was deleted, and every deleted one is listed. */
  predicate Even(report: Report) {
    report.eligible == report.deletedBlobs == |report.deletedDigests|
  }

  function ObjectSize(objects: Objects, d: string): nat {
    if d in objects then |objects[d]| else 0
  }

  /** The deleted object is weighed as it was stored, or counted as missing. */
  predicate Weighed(objects: Objects, d: string, report: Report, next: Report) {
    && next.bytesDeleted == report.bytesDeleted + ObjectSize(objects, d)
    && next.missingObjects == report.missingObjects + (if d in objects then 0 else 1)
    && next.deletedBlobs == report.deletedBlobs + 1
  }

  function BytesOf(objects: Objects, gone: seq<string>): nat {
    if gone == [] then 0 else BytesOf(objects, gone[..|gone| - 1]) + ObjectSize(objects, gone[|gone| - 1])
  }

  function MissingOf(objects: Objects, gone: seq<string>): nat {
    if gone == [] then 0 else MissingOf(objects, gone[..|gone| - 1]) + if gone[|gone| - 1] in objects then 0 else 1
  }

  /** A report's bytes are those of the objects it names, as they were stored. */
  predicate Measured(objects: Objects, report: Report) {
    && report.bytesDeleted == BytesOf(objects, report.deletedDigests)
    && report.missingObjects == MissingOf(objects, report.deletedDigests)
  }

  lemma MeasuredOneMore(start: Objects, now: Objects, d: string, report: Report, next: Report)
    requires Measured(start, report) && Weighed(now, d, report, next)
    requires next.deletedDigests == report.deletedDigests + [d] && d !in report.deletedDigests
    requires now == start - set x | x in report.deletedDigests
    ensures Measured(start, next)
  {
    assert next.deletedDigests[..|next.deletedDigests| - 1] == report.deletedDigests;
  }

  lemma ObjectShed(w: World, d: string)
    ensures Sheds(w, w.(objects := w.objects - {d}), d)
  {
  }

  lemma StalePending(mode: Mode, w: World, refs: Refs)
    requires mode.prune && ValidSnapshot(w.meta) && RefsOf(mode, w, refs)
    ensures RefsPending(mode, w, refs)
  {
  }

  /** The stores after the object, the row and, in a pruning pass, the loaded stale
      references of one digest went. */
  ghost predicate Erased(mode: Mode, refs: Refs, d: string, before: World, after: World) {
    && Sheds(before, after, d) && after.objects == before.objects - {d}
    && after.meta.blobs == Except(before.meta.blobs, BlobKey, {d})
    && (if mode.prune then RefsPruned(after, refs, d) else after.meta == before.meta.(blobs := after.meta.blobs))
  }

  /** The object first, then the references and the row: at whatever write the deletion
      stops, the object is gone, and the row is there unless it was the last. */
  method EraseBlob(store: Store, mode: Mode, b: Blob, refs: Refs) returns (r: Result<bool>)
    requires ValidSnapshot(store.world.meta) && b in store.world.meta.blobs
    requires mode.prune ==> RefsPending(mode, store.world, refs)
    modifies store
    ensures ValidSnapshot(store.world.meta) && Sheds(old(store.world), store.world, b.digest)
    ensures old(store.trace) <= store.trace
    ensures AllShed(old(store.world), store.trace, |old(store.trace)|, b.digest)
    ensures r.Err? ==> r.error == StoreFailed
    ensures r.Ok? ==> r.value && b.digest != "" && Erased(mode, refs, b.digest, old(store.world), store.world)
    ensures RowLast(old(store.world).(objects := old(store.world).objects - {b.digest}), store.trace,
                    |old(store.trace)|)
  {
    ghost var w := store.world;
    var removed := store.DeleteObject(b.digest);
    if removed.Err? { return Err(removed.error); }
    ObjectShed(w, b.digest);
    r := FinishBlobDeletion(store, mode, b, refs, w);
  }

  lemma ErasedRemoved(mode: Mode, before: World, after: World, refs: Refs, d: string)
    requires d != "" && d !in Guarded(mode, before) && RefsOf(mode, before, refs)
    requires Erased(mode, refs, d, before, after)
    ensures Removed(mode, d, before, after)
  {
    if mode.prune {
      PrunedAll(mode, before, after, refs, d);
    }
  }

  /** In steady mode a second look sees what the first one saw. */
  lemma LooksAlike(mode: Mode, w: World, digest: string, report: Report, row: Option<Blob>, refs: Refs, next: Report,
                   again: Option<Blob>, refsAgain: Refs, nextAgain: Report)
    requires Steady(mode) && row.Some?
    requires Rechecked(mode, w, digest, report, row, refs, next) &&
      Rechecked(mode, w, digest, next, again, refsAgain, nextAgain)
    ensures again == row && nextAgain == next == report
    ensures CandidateEligible(mode, report, Classify(mode, Guarded(mode, w), row.value))
  {
  }

  /** What the looks before a deletion came to. */
  datatype Look = Rejected(report: Report, refs: Refs) | Confirmed(blob: Blob, stat: Stat, report: Report, refs: Refs)

  /** A confirmed blob is stored, outside the protected set, and eligible under
      references that were loaded from this very world. */
  ghost predicate Looked(mode: Mode, guarded: set<string>, w: World, digest: string, report: Report, look: Look) {
    && Covers(mode, look.refs, guarded) && SameMeasure(report, look.report)
    && (look.Confirmed? ==>
          && look.blob in w.meta.blobs && look.blob.digest == digest && digest !in guarded
          && RefsOf(mode, w, look.refs) && look.stat == StatOf(w.objects, digest))
    && (Steady(mode) ==> LookedSteady(mode, guarded, w, digest, report, look))
  }

  ghost predicate LookedSteady(mode: Mode, guarded: set<string>, w: World, digest: string, report: Report, look: Look) {
    var found := Find(w.meta.blobs, BlobKey, digest);
    if found.None? then look == Rejected(report, look.refs)
    else
      var reason := Classify(mode, guarded, found.value);
      if CandidateEligible(mode, report, reason)
      then look.Confirmed? && look.blob == found.value && look.report == report
      else look == Rejected(RecordSkip(report, reason), look.refs)
  }

  lemma RecheckedCovers(mode: Mode, w: World, digest: string, report: Report, row: Option<Blob>, refs: Refs,
                        next: Report)
    requires Rechecked(mode, w, digest, report, row, refs, next)
    ensures SameMeasure(report, next)
    ensures row.Some? ==>
      && row.value in w.meta.blobs && row.value.digest == digest && digest !in Guarded(mode, w)
      && RefsOf(mode, w, refs) && Covers(mode, refs, Guarded(mode, w))
  {
  }

  lemma FirstLookRejects(mode: Mode, w: World, digest: string, report: Report, refs: Refs, next: Report, loaded: Refs)
    requires Steady(mode) && Rechecked(mode, w, digest, report, None, refs, next)
    ensures LookedSteady(mode, Guarded(mode, w), w, digest, report, Rejected(next, loaded))
  {
  }

  /** Load, stat, confirm. */
  method ConfirmBlob(store: Store, mode: Mode, digest: string, report: Report, refs: Refs, ghost guarded: set<string>)
    returns (r: Result<Look>)
    requires ValidSnapshot(store.world.meta) && Walkable(mode, store.world)
    requires guarded == Guarded(mode, store.world) && Covers(mode, refs, guarded)
    ensures r.Err? ==> LateFault(mode, r.error)
    ensures r.Ok? ==> Looked(mode, guarded, store.world, digest, report, r.value)
  {
    var loaded := RecheckBlob(store, mode, digest, report);
    if loaded.Err? { return Err(loaded.error); }
    var (row, loadedRefs, skipped) := loaded.value;
    RecheckedCovers(mode, store.world, digest, report, row, loadedRefs, skipped);
    if row.None? {
      if Steady(mode) {
        FirstLookRejects(mode, store.world, digest, report, loadedRefs, skipped, refs);
      }
      return Ok(Rejected(skipped, refs));
    }
    var stat := store.StatObject(digest);
    if stat.Err? { return Err(stat.error); }
    var confirmed := RecheckBlob(store, mode, digest, skipped);
    if confirmed.Err? { return Err(confirmed.error); }
    var (current, currentRefs, unconfirmed) := confirmed.value;
    RecheckedCovers(mode, store.world, digest, skipped, current, currentRefs, unconfirmed);
    if Steady(mode) {
      LooksAlike(mode, store.world, digest, report, row, loadedRefs, skipped, current, currentRefs, unconfirmed);
    }
    if current.None? || !SameBlobRevision(row.value, current.value) {
      return Ok(Rejected(unconfirmed, loadedRefs));
    }
    return Ok(Confirmed(current.value, stat.value, skipped, currentRefs));
  }

  lemma Erasable(mode: Mode, guarded: set<string>, start: World, w: World, digest: string, report: Report, look: Look)
    requires Sound(mode, guarded, start, w) && Looked(mode, guarded, w, digest, report, look) && look.Confirmed?
    ensures mode.prune ==> RefsPending(mode, w, look.refs)
  {
    if mode.prune {
      StalePending(mode, w, look.refs);
    }
  }

  /** What every point of a confirmed deletion keeps. */
  lemma ErasingKeeps(mode: Mode, guarded: set<string>, start: World, before: World, after: World, trace: seq<World>,
                     from: nat, d: string)
    requires Sound(mode, guarded, start, before) && d !in guarded && d != ""
    requires Sheds(before, after, d) && ValidSnapshot(after.meta) && AllShed(before, trace, from, d)
    ensures Sound(mode, guarded, start, after) && AllIntact(mode, guarded, start, trace, from)
  {
    ShedsSound(mode, guarded, start, before, after, d);
    TraceIntact(mode, guarded, start, before, trace, from, d);
  }

  /** What a completed deletion does. */
  lemma ErasingRemoves(mode: Mode, guarded: set<string>, start: World, before: World, after: World, digest: string,
                       report: Report, look: Look)
    requires Sound(mode, guarded, start, before) && Looked(mode, guarded, before, digest, report, look) &&
      look.Confirmed?
    requires digest != "" && Erased(mode, look.refs, digest, before, after)
    ensures Removed(mode, digest, before, after)
    ensures var next := RecordDelete(look.report, look.blob, look.stat.size, look.stat.missing);
      && Tracked(mode, false, digest, report, next, before, after)
      && (Steady(mode) ==> Attempted(mode, guarded, digest, report, before, after, Outcome(true, next, look.refs)))
  {
    ErasedRemoved(mode, before, after, look.refs, digest);
    ErasingTracked(mode, before, after, digest, report, look);
    if Steady(mode) {
      ErasingAttempted(mode, guarded, before, after, digest, report, look);
    }
  }

  lemma ErasingTracked(mode: Mode, before: World, after: World, digest: string, report: Report, look: Look)
    requires look.Confirmed? && look.blob.digest == digest && SameMeasure(report, look.report)
    requires look.stat == StatOf(before.objects, digest) && Removed(mode, digest, before, after)
    ensures Tracked(mode, false, digest, report,
                    RecordDelete(look.report, look.blob, look.stat.size, look.stat.missing), before, after)
  {
  }

  lemma ErasingAttempted(mode: Mode, guarded: set<string>, before: World, after: World, digest: string,
                         report: Report, look: Look)
    requires LookedSteady(mode, guarded, before, digest, report, look) && look.Confirmed? && digest !in guarded
    requires look.stat == StatOf(before.objects, digest) && Removed(mode, digest, before, after)
    ensures var next := RecordDelete(look.report, look.blob, look.stat.size, look.stat.missing);
      Attempted(mode, guarded, digest, report, before, after, Outcome(true, next, look.refs))
  {
  }

  lemma RejectionAttempts(mode: Mode, guarded: set<string>, w: World, digest: string, report: Report, look: Look)
    requires Steady(mode) && look.Rejected? && Looked(mode, guarded, w, digest, report, look)
    ensures Attempted(mode, guarded, digest, report, w, w, Outcome(false, look.report, look.refs))
  {
  }

  /** Load, stat, confirm, delete, finish. With no concurrent writer the attempt
      deletes a blob only while the references it has just loaded do not protect it,
      and the protected set stays as it was after every write. */
  method DeleteBlob(store: Store, mode: Mode, digest: string, report: Report, refs: Refs, ghost guarded: set<string>,
                    ghost start: World)
    returns (r: Result<Outcome>)
    requires Sound(mode, guarded, start, store.world) && Covers(mode, refs, guarded)
    modifies store
    ensures r.Err? ==> Intact(mode, guarded, start, store.world)
    ensures old(store.trace) <= store.trace && AllIntact(mode, guarded, start, store.trace, |old(store.trace)|)
    ensures r.Err? ==> LateFault(mode, r.error)
    ensures r.Ok? ==> Sound(mode, guarded, start, store.world) && Covers(mode, r.value.refs, guarded)
    ensures r.Ok? ==>
      Tracked(mode, false, digest, report, r.value.report, old(store.world), store.world)
    ensures r.Ok? && r.value.deleted ==>
      && r.value.report.eligible == report.eligible && r.value.report.deletedBlobs == report.deletedBlobs + 1
      && |r.value.report.deletedDigests| == |report.deletedDigests| + 1
    ensures r.Ok? && !r.value.deleted ==>
      SameMeasure(report, r.value.report) && store.world == old(store.world)
    ensures r.Ok? && Steady(mode) ==> Attempted(mode, guarded, digest, report, old(store.world), store.world, r.value)
  {
    ghost var w := store.world;
    var looked := ConfirmBlob(store, mode, digest, report, refs, guarded);
    if looked.Err? { return Err(looked.error); }
    var look := looked.value;
    if look.Rejected? {
      if Steady(mode) {
        RejectionAttempts(mode, guarded, w, digest, report, look);
      }
      return Ok(Outcome(false, look.report, look.refs));
    }
    Erasable(mode, guarded, start, w, digest, report, look);
    var removed := EraseBlob(store, mode, look.blob, look.refs);
    ErasingKeeps(mode, guarded, start, w, store.world, store.trace, |old(store.trace)|, digest);
    if removed.Err? { return Err(removed.error); }
    if !removed.value { return Ok(Outcome(false, look.report, look.refs)); }
    ErasingRemoves(mode, guarded, start, w, store.world, digest, report, look);
    return Ok(Outcome(true, RecordDelete(look.report, look.blob, look.stat.size, look.stat.missing), look.refs));
  }

  // ---------------------------------------------------------------------------
  // The run

  /** A report is the planned one up to what only a real deletion measures. */
  ghost predicate Agrees(actual: Report, plan: Report) {
    actual == plan.(bytesDeleted := actual.bytesDeleted, missingObjects := actual.missingObjects)
  }

  lemma EligibleCore(opts: Options, b: Blob, r: Report, plan: Report)
    requires Agrees(r, plan)
    ensures Agrees(VisitEligible(opts, b, r).report, VisitEligible(opts, b, plan).report)
    ensures VisitEligible(opts, b, r).stop == VisitEligible(opts, b, plan).stop
  {
  }

  lemma SkipCore(r: Report, plan: Report, reason: Reason)
    requires Agrees(r, plan)
    ensures Agrees(RecordSkip(r, reason), RecordSkip(plan, reason))
  {
  }

  /** Visiting ignores the measured fields. */
  lemma VisitCore(mode: Mode, opts: Options, guarded: set<string>, b: Blob, r: Report, plan: Report)
    requires Agrees(r, plan)
    ensures Agrees(Visit(mode, opts, guarded, b, r).report, Visit(mode, opts, guarded, b, plan).report)
    ensures Visit(mode, opts, guarded, b, r).stop == Visit(mode, opts, guarded, b, plan).stop
  {
    if !ScanLimitReached(opts, r) {
      var scanned, planned := r.(scanned := r.scanned + 1), plan.(scanned := plan.scanned + 1);
      var reason := Classify(mode, guarded, b);
      assert Agrees(scanned, planned);
      if CandidateEligible(mode, scanned, reason) {
        EligibleCore(opts, b, scanned, planned);
      } else {
        SkipCore(scanned, planned, reason);
      }
    }
  }

  /** The stores after the digests in `gone` were deleted from `start`. */
  ghost predicate Deleted(mode: Mode, start: World, w: World, gone: seq<string>) {
    var digests := set d | d in gone;
    && w.objects == start.objects - digests
    && w.meta.blobs == Except(start.meta.blobs, BlobKey, digests)
    && (if mode.prune then RowsGone(digests, start.meta, w.meta) else w.meta == start.meta.(blobs := w.meta.blobs))
  }

  lemma RowsGoneTwice(a: set<string>, b: set<string>, s: Snapshot, t: Snapshot, u: Snapshot)
    requires RowsGone(a, s, t) && RowsGone(b, t, u)
    ensures RowsGone(a + b, s, u)
  {
  }

  lemma DeletedOneMore(mode: Mode, start: World, before: World, after: World, gone: seq<string>, d: string)
    requires Deleted(mode, start, before, gone)
    requires Removed(mode, d, before, after)
    ensures Deleted(mode, start, after, gone + [d])
  {
    var digests := set x | x in gone;
    assert (set x | x in gone + [d]) == digests + {d};
    ExceptTwice(start.meta.blobs, BlobKey, digests, {d});
    if mode.prune {
      RowsGoneTwice(digests, {d}, start.meta, before.meta, after.meta);
    }
  }

  /** Nothing deleted so far is a blob from `i` on. */
  ghost predicate Ahead(ordered: seq<Blob>, i: nat, gone: seq<string>) {
    forall j :: i <= j < |ordered| ==> ordered[j].digest !in gone
  }

  /** Counting a candidate as eligible measures nothing. */
  lemma CountedTracked(mode: Mode, d: string, report: Report, next: Report, before: World, after: World)
    requires Tracked(mode, false, d, report.(eligible := report.eligible + 1), next, before, after)
    ensures next.deletedDigests != report.deletedDigests ==> Tracked(mode, false, d, report, next, before, after)
    ensures next.deletedDigests == report.deletedDigests ==>
      Tracked(mode, false, d, report, next.(eligible := report.eligible), before, after)
  {
  }

  /** One real deletion: the report follows the stores, and in steady mode both
      follow the plan. */
  method ProcessEligible(store: Store, mode: Mode, b: Blob, report: Report, refs: Refs, ghost guarded: set<string>,
                         ghost start: World)
    returns (r: Result<(Report, Refs)>)
    requires Sound(mode, guarded, start, store.world) && b in store.world.meta.blobs
    requires Covers(mode, refs, guarded)
    requires CandidateEligible(mode, report, Classify(mode, refs.guarded, b))
    modifies store
    ensures r.Err? ==> Intact(mode, guarded, start, store.world)
    ensures old(store.trace) <= store.trace && AllIntact(mode, guarded, start, store.trace, |old(store.trace)|)
    ensures r.Err? ==> LateFault(mode, r.error)
    ensures r.Ok? ==> Sound(mode, guarded, start, store.world) && Covers(mode, r.value.1, guarded)
    ensures r.Ok? ==>
      Tracked(mode, false, b.digest, report, r.value.0, old(store.world), store.world) && InStep(report, r.value.0)
    ensures r.Ok? && Steady(mode) ==> Agrees(r.value.0, PlanDelete(report.(eligible := report.eligible + 1), b))
    ensures r.Ok? && Steady(mode) ==> Removed(mode, b.digest, old(store.world), store.world)
  {
    FindsRow(store.world.meta.blobs, BlobKey, b);
    var counted := report.(eligible := report.eligible + 1);
    var attempt := DeleteBlob(store, mode, b.digest, counted, refs, guarded, start);
    if attempt.Err? { return Err(attempt.error); }
    var Outcome(deleted, next, current) := attempt.value;
    CountedTracked(mode, b.digest, report, next, old(store.world), store.world);
    if !deleted {
      return Ok((next.(eligible := report.eligible), current));
    }
    return Ok((next, current));
  }

  /** Where the run stands before the `i`-th ordered blob: the stores lost what the
      report names, and in steady mode the report is the planned one. */
  ghost predicate OnPlan(mode: Mode, opts: Options, guarded: set<string>, start: World, w: World, ordered: seq<Blob>,
                         i: nat, report: Report, plan: Report)
    requires i <= |ordered|
  {
    && (forall b :: b in ordered ==> b in start.meta.blobs)
    && Ahead(ordered, i, report.deletedDigests) && Even(report)
    && (if opts.dryRun then w == start
        else Deleted(mode, start, w, report.deletedDigests) && Measured(start.objects, report))
    && (Steady(mode) ==> Agrees(report, plan) && (opts.dryRun ==> report == plan))
  }

  lemma Advance(mode: Mode, opts: Options, guarded: set<string>, start: World, before: World, after: World,
                ordered: seq<Blob>, i: nat, report: Report, plan: Report, next: Report, stop: bool)
    requires i < |ordered| && UniqueKeys(ordered, BlobKey)
    requires OnPlan(mode, opts, guarded, start, before, ordered, i, report, plan)
    requires Tracked(mode, opts.dryRun, ordered[i].digest, report, next, before, after) && InStep(report, next)
    requires Steady(mode) ==> Stepped(mode, opts, guarded, ordered[i], report, next, stop)
    ensures OnPlan(mode, opts, guarded, start, after, ordered, i + 1, next,
                   Visit(mode, opts, guarded, ordered[i], plan).report)
    ensures Steady(mode) ==> (stop <==> Visit(mode, opts, guarded, ordered[i], plan).stop != Running)
  {
    var d := ordered[i].digest;
    forall j | i < j < |ordered| ensures ordered[j].digest !in next.deletedDigests {
      assert BlobKey(ordered[j]) != BlobKey(ordered[i]);
    }
    if next.deletedDigests != report.deletedDigests && !opts.dryRun {
      DeletedOneMore(mode, start, before, after, report.deletedDigests, d);
      MeasuredOneMore(start.objects, before.objects, d, report, next);
    }
    if Steady(mode) {
      VisitCore(mode, opts, guarded, ordered[i], report, plan);
    }
  }

  lemma Skipped(mode: Mode, opts: Options, guarded: set<string>, start: World, w: World, ordered: seq<Blob>, i: nat,
                report: Report, plan: Report)
    requires i < |ordered| && OnPlan(mode, opts, guarded, start, w, ordered, i, report, plan)
    ensures OnPlan(mode, opts, guarded, start, w, ordered, i + 1, report, plan)
  {
  }

  /** The report and the stop flag follow one planned visit. */
  ghost predicate Stepped(mode: Mode, opts: Options, guarded: set<string>, b: Blob, report: Report, next: Report,
                          stop: bool)
  {
    var step := Visit(mode, opts, guarded, b, report);
    Agrees(next, step.report) && (opts.dryRun ==> next == step.report) && (stop <==> step.stop != Running)
  }

  ghost predicate SteppedEligible(opts: Options, b: Blob, scanned: Report, next: Report, stop: bool) {
    var step := VisitEligible(opts, b, scanned);
    Agrees(next, step.report) && (opts.dryRun ==> next == step.report) && (stop <==> step.stop != Running)
  }

  lemma LimitStepped(opts: Options, b: Blob, scanned: Report)
    requires DeleteLimitReached(opts, scanned)
    ensures SteppedEligible(opts, b, scanned, scanned.(limitReached := true), true)
  {
  }

  lemma DeletionStepped(opts: Options, b: Blob, scanned: Report, next: Report)
    requires !DeleteLimitReached(opts, scanned)
    requires var planned := PlanDelete(scanned.(eligible := scanned.eligible + 1), b);
      if opts.dryRun then next == planned else Agrees(next, planned)
    ensures SteppedEligible(opts, b, scanned, next, false)
  {
  }

  /** `processEligibleCandidate`: the delete limit, then the plan or the deletion. */
  method ProcessEligibleCandidate(store: Store, mode: Mode, opts: Options, b: Blob, scanned: Report, refs: Refs,
                                  ghost guarded: set<string>, ghost start: World)
    returns (r: Result<(Report, Refs, bool)>)
    requires Sound(mode, guarded, start, store.world) && Covers(mode, refs, guarded)
    requires !opts.dryRun ==> b in store.world.meta.blobs
    requires CandidateEligible(mode, scanned, Classify(mode, refs.guarded, b))
    modifies store
    ensures r.Err? ==> LateFault(mode, r.error) && Intact(mode, guarded, start, store.world)
    ensures old(store.trace) <= store.trace && AllIntact(mode, guarded, start, store.trace, |old(store.trace)|)
    ensures opts.dryRun ==> store.world == old(store.world) && store.trace == old(store.trace) && r.Ok?
    ensures r.Ok? ==> Sound(mode, guarded, start, store.world) && Covers(mode, r.value.1, guarded)
    ensures r.Ok? ==>
      Tracked(mode, opts.dryRun, b.digest, scanned, r.value.0, old(store.world), store.world) &&
        InStep(scanned, r.value.0)
    ensures r.Ok? && Steady(mode) ==> SteppedEligible(opts, b, scanned, r.value.0, r.value.2)
  {
    if DeleteLimitReached(opts, scanned) {
      LimitStepped(opts, b, scanned);
      return Ok((scanned.(limitReached := true), refs, true));
    }
    if opts.dryRun {
      var planned := PlanDelete(scanned.(eligible := scanned.eligible + 1), b);
      DeletionStepped(opts, b, scanned, planned);
      return Ok((planned, refs, false));
    }
    var done := ProcessEligible(store, mode, b, scanned, refs, guarded, start);
    if done.Err? { return Err(done.error); }
    var (next, current) := done.value;
    if Steady(mode) {
      DeletionStepped(opts, b, scanned, next);
    }
    return Ok((next, current, false));
  }

  lemma ScanLimitStepped(mode: Mode, opts: Options, guarded: set<string>, b: Blob, report: Report)
    requires ScanLimitReached(opts, report)
    ensures Stepped(mode, opts, guarded, b, report, report.(limitReached := true), true)
  {
  }

  lemma SkipStepped(mode: Mode, opts: Options, guarded: set<string>, b: Blob, report: Report)
    requires !ScanLimitReached(opts, report)
    requires !CandidateEligible(mode, report.(scanned := report.scanned + 1), Classify(mode, guarded, b))
    ensures var next := RecordSkip(report.(scanned := report.scanned + 1), Classify(mode, guarded, b));
      Stepped(mode, opts, guarded, b, report, next, false) && SameMeasure(report, next)
  {
  }

  lemma EligibleStepped(mode: Mode, opts: Options, guarded: set<string>, b: Blob, report: Report, next: Report,
                        stop: bool)
    requires !ScanLimitReached(opts, report)
    requires CandidateEligible(mode, report.(scanned := report.scanned + 1), Classify(mode, guarded, b))
    requires SteppedEligible(opts, b, report.(scanned := report.scanned + 1), next, stop)
    ensures Stepped(mode, opts, guarded, b, report, next, stop)
  {
  }

  /** One candidate of the loop: the plan's step, then its effect on the stores. */
  method CleanupCandidate(store: Store, mode: Mode, opts: Options, b: Blob, report: Report, refs: Refs,
                          ghost guarded: set<string>, ghost start: World)
    returns (r: Result<(Report, Refs, bool)>)
    requires Sound(mode, guarded, start, store.world) && Covers(mode, refs, guarded)
    requires !opts.dryRun ==> b in store.world.meta.blobs
    modifies store
    ensures r.Err? ==> LateFault(mode, r.error) && Intact(mode, guarded, start, store.world)
    ensures old(store.trace) <= store.trace && AllIntact(mode, guarded, start, store.trace, |old(store.trace)|)
    ensures opts.dryRun ==> store.trace == old(store.trace) && store.world == old(store.world)
    ensures r.Ok? ==> Sound(mode, guarded, start, store.world) && Covers(mode, r.value.1, guarded)
    ensures r.Ok? ==>
      Tracked(mode, opts.dryRun, b.digest, report, r.value.0, old(store.world), store.world) &&
        InStep(report, r.value.0)
    ensures r.Ok? && Steady(mode) ==> Stepped(mode, opts, guarded, b, report, r.value.0, r.value.2)
  {
    if ScanLimitReached(opts, report) {
      ScanLimitStepped(mode, opts, guarded, b, report);
      return Ok((report.(limitReached := true), refs, true));
    }
    var canceled: bool := *;
    if canceled { return Err(Canceled); }
    var scanned := report.(scanned := report.scanned + 1);
    var reason := Classify(mode, refs.guarded, b);
    if !CandidateEligible(mode, scanned, reason) {
      SkipStepped(mode, opts, refs.guarded, b, report);
      return Ok((RecordSkip(scanned, reason), refs, false));
    }
    r := ProcessEligibleCandidate(store, mode, opts, b, scanned, refs, guarded, start);
    if r.Ok? && Steady(mode) {
      EligibleStepped(mode, opts, guarded, b, report, r.value.0, r.value.2);
    }
  }

  /** A completed pass lost exactly the digests that it reports, and reports the size
      of their objects; a dry run lost nothing. In steady mode the report is the plan,
      apart from the two measured fields. */
  ghost predicate Completed(mode: Mode, opts: Options, guarded: set<string>, start: World, end: World, report: Report) {
    var plan := SweepAll(mode, opts, guarded, start.meta.blobs).report;
    && (if opts.dryRun then end == start
        else Deleted(mode, start, end, report.deletedDigests) && Measured(start.objects, report))
    && Even(report)
    && (Steady(mode) ==> Agrees(report, plan) && (opts.dryRun ==> report == plan))
  }

  /** One pass. Whatever it returns, wherever it stops and whichever reads the store
      fails, the protected set is the one of the start and nothing in it was touched.
      A dry run writes nothing. A steady pass over a graph that is over budget or
      unreadable fails before it writes anything, and over any other graph it fails
      only because its context ended or a store operation failed. */
  method Cleanup(store: Store, mode: Mode, opts: Options) returns (r: Result<Report>, ghost guarded: set<string>)
    requires ValidSnapshot(store.world.meta)
    modifies store
    ensures guarded == Guarded(mode, old(store.world))
    ensures Intact(mode, guarded, old(store.world), store.world)
    ensures old(store.trace) <= store.trace &&
      AllIntact(mode, guarded, old(store.world), store.trace, |old(store.trace)|)
    ensures opts.dryRun ==> store.world == old(store.world) && store.trace == old(store.trace)
    ensures r.Ok? ==> Completed(mode, opts, guarded, old(store.world), store.world, r.value)
    ensures r.Err? && r.error == Invalid <==> !ValidOptions(opts)
    ensures r.Err? && r.error == Invalid <==>
      opts.maxDeletes < 0 || opts.maxScan < 0 || opts.maxBytes < 0 || opts.targetBytes < 0 ||
      0 < opts.maxBytes < opts.targetBytes
    ensures !Walkable(mode, old(store.world)) ==>
      r.Err? && store.world == old(store.world) && store.trace == old(store.trace)
    ensures ValidOptions(opts) && r.Err? && Steady(mode) && Walkable(mode, old(store.world)) ==>
      r.error in {Canceled, StoreFailed}
    ensures r.Err? && Steady(mode) && r.error !in {Canceled, StoreFailed} ==>
      store.world == old(store.world) && store.trace == old(store.trace)
  {
    guarded := Guarded(mode, store.world);
    IntactReflexive(mode, guarded, store.world);
    if !ValidOptions(opts) { return Err(Invalid), guarded; }
    var loaded := LoadReferences(mode, store.world);
    if loaded.Err? { return Err(loaded.error), guarded; }
    r := CleanupLoaded(store, mode, opts, loaded.value);
  }

  lemma IntactReflexive(mode: Mode, guarded: set<string>, w: World)
    requires Guarded(mode, w) == guarded
    ensures Intact(mode, guarded, w, w)
  {
  }

  lemma StartSound(mode: Mode, w: World, refs: Refs)
    requires ValidSnapshot(w.meta) && RefsOf(mode, w, refs)
    ensures Sound(mode, Guarded(mode, w), w, w) && Covers(mode, refs, Guarded(mode, w))
  {
  }

  method CleanupLoaded(store: Store, mode: Mode, opts: Options, loaded: Refs) returns (r: Result<Report>)
    requires ValidSnapshot(store.world.meta) && RefsOf(mode, store.world, loaded)
    modifies store
    ensures Intact(mode, Guarded(mode, old(store.world)), old(store.world), store.world)
    ensures old(store.trace) <= store.trace
    ensures AllIntact(mode, Guarded(mode, old(store.world)), old(store.world), store.trace, |old(store.trace)|)
    ensures opts.dryRun ==> store.world == old(store.world) && store.trace == old(store.trace)
    ensures r.Ok? ==> Completed(mode, opts, Guarded(mode, old(store.world)), old(store.world), store.world, r.value)
    ensures r.Err? ==> LateFault(mode, r.error)
  {
    StartSound(mode, store.world, loaded);
    var blobs := store.world.meta.blobs;
    var initial := InitialReport(opts, blobs);
    var ordered := Order(blobs, initial.capacityExceeded);
    SortUnique(blobs, CapacityLess, BlobKey);
    SortUnique(blobs, AgeLess, BlobKey);
    r := CleanupCandidates(store, mode, opts, ordered, initial, loaded, Guarded(mode, store.world));
  }

  /** The loop's invariant before the `i`-th ordered blob. */
  ghost predicate LoopState(mode: Mode, opts: Options, guarded: set<string>, start: World, w: World, base: seq<World>,
                            trace: seq<World>,
                            ordered: seq<Blob>, i: nat, report: Report, plan: Report)
    requires i <= |ordered|
  {
    && Sound(mode, guarded, start, w)
    && base <= trace && AllIntact(mode, guarded, start, trace, |base|)
    && (opts.dryRun ==> trace == base)
    && OnPlan(mode, opts, guarded, start, w, ordered, i, report, plan)
  }

  method CleanupStep(store: Store, mode: Mode, opts: Options, ordered: seq<Blob>, i: nat, report: Report, refs: Refs,
                     ghost plan: Report, ghost guarded: set<string>, ghost start: World, ghost base: seq<World>)
    returns (r: Result<(Report, Refs, bool)>, ghost next: Report)
    requires i < |ordered| && UniqueKeys(ordered, BlobKey) && Covers(mode, refs, guarded)
    requires LoopState(mode, opts, guarded, start, store.world, base, store.trace, ordered, i, report, plan)
    modifies store
    ensures r.Ok? ==> Covers(mode, r.value.1, guarded)
    ensures r.Ok? ==>
      LoopState(mode, opts, guarded, start, store.world, base, store.trace, ordered, i + 1, r.value.0, next)
    ensures r.Ok? && !IsCandidate(opts, ordered[i]) ==> !r.value.2 && next == plan
    ensures r.Ok? && IsCandidate(opts, ordered[i]) ==>
      var step := Visit(mode, opts, guarded, ordered[i], plan);
      next == step.report && (Steady(mode) ==> (r.value.2 <==> step.stop != Running))
    ensures r.Err? ==> LateFault(mode, r.error)
    ensures r.Err? ==> Intact(mode, guarded, start, store.world)
    ensures r.Err? ==> base <= store.trace && AllIntact(mode, guarded, start, store.trace, |base|)
    ensures r.Err? && opts.dryRun ==> store.trace == old(store.trace) && store.world == old(store.world)
  {
    next := plan;
    ghost var before := store.world;
    if !IsCandidate(opts, ordered[i]) {
      Skipped(mode, opts, guarded, start, store.world, ordered, i, report, plan);
      return Ok((report, refs, false)), plan;
    }
    StillStored(mode, opts, guarded, start, store.world, ordered, i, report, plan);
    r := CleanupCandidate(store, mode, opts, ordered[i], report, refs, guarded, start);
    if r.Ok? {
      Advance(mode, opts, guarded, start, before, store.world, ordered, i, report, plan, r.value.0, r.value.2);
      next := Visit(mode, opts, guarded, ordered[i], plan).report;
    }
  }

  lemma LoopStarts(mode: Mode, opts: Options, guarded: set<string>, start: World, base: seq<World>, ordered: seq<Blob>,
                   initial: Report)
    requires Sound(mode, guarded, start, start)
    requires initial.deletedDigests == [] && initial.bytesDeleted == initial.missingObjects == 0 && Even(initial)
    requires forall b :: b in ordered ==> b in start.meta.blobs
    ensures LoopState(mode, opts, guarded, start, start, base, base, ordered, 0, initial, initial)
  {
    NothingDeleted(mode, start);
  }

  lemma SweepUnrolls(mode: Mode, opts: Options, guarded: set<string>, ordered: seq<Blob>, i: nat, r: Report)
    requires i < |ordered|
    ensures SweepFrom(mode, opts, guarded, ordered[i..], r) ==
      if !IsCandidate(opts, ordered[i]) then SweepFrom(mode, opts, guarded, ordered[i + 1..], r)
      else
        var step := Visit(mode, opts, guarded, ordered[i], r);
        if step.stop != Running then step else SweepFrom(mode, opts, guarded, ordered[i + 1..], step.report)
  {
    assert ordered[i..][0] == ordered[i] && ordered[i..][1..] == ordered[i + 1..];
  }

  method CleanupCandidates(store: Store, mode: Mode, opts: Options, ordered: seq<Blob>, initial: Report, loaded: Refs,
                           ghost guarded: set<string>)
    returns (r: Result<Report>)
    requires UniqueKeys(ordered, BlobKey) && forall b :: b in ordered ==> b in store.world.meta.blobs
    requires Sound(mode, guarded, store.world, store.world) && Covers(mode, loaded, guarded)
    requires initial.deletedDigests == [] && initial.bytesDeleted == initial.missingObjects == 0 && Even(initial)
    modifies store
    ensures Intact(mode, guarded, old(store.world), store.world)
    ensures old(store.trace) <= store.trace &&
      AllIntact(mode, guarded, old(store.world), store.trace, |old(store.trace)|)
    ensures opts.dryRun ==> store.world == old(store.world) && store.trace == old(store.trace)
    ensures r.Ok? && !opts.dryRun ==>
      Deleted(mode, old(store.world), store.world, r.value.deletedDigests) &&
        Measured(old(store.world).objects, r.value)
    ensures r.Ok? ==> Even(r.value)
    ensures r.Ok? && Steady(mode) ==> Agrees(r.value, SweepFrom(mode, opts, guarded, ordered, initial).report)
    ensures r.Ok? && Steady(mode) && opts.dryRun ==> r.value == SweepFrom(mode, opts, guarded, ordered, initial).report
    ensures r.Err? ==> LateFault(mode, r.error)
  {
    ghost var start, base := store.world, store.trace;
    var report, refs := initial, loaded;
    ghost var plan := initial;
    LoopStarts(mode, opts, guarded, start, base, ordered, initial);
    assert ordered[0..] == ordered;
    var i := 0;
    while i < |ordered|
      invariant i <= |ordered| && Covers(mode, refs, guarded)
      invariant LoopState(mode, opts, guarded, start, store.world, base, store.trace, ordered, i, report, plan)
      invariant Steady(mode) ==>
        SweepFrom(mode, opts, guarded, ordered[i..], plan) == SweepFrom(mode, opts, guarded, ordered, initial)
    {
      SweepUnrolls(mode, opts, guarded, ordered, i, plan);
      var step;
      ghost var next;
      step, next := CleanupStep(store, mode, opts, ordered, i, report, refs, plan, guarded, start, base);
      if step.Err? { return Err(step.error); }
      report, refs, plan := step.value.0, step.value.1, next;
      if step.value.2 { return Ok(report); }
      i := i + 1;
    }
    return Ok(report);
  }

  lemma NothingDeleted(mode: Mode, start: World)
    ensures Deleted(mode, start, start, [])
  {
    ExceptNothing(start.meta.blobs, BlobKey);
    var none: seq<string> := [];
    assert (set d | d in none) == {};
  }

  lemma StillStored(mode: Mode, opts: Options, guarded: set<string>, start: World, w: World, ordered: seq<Blob>, i: nat,
                    report: Report, plan: Report)
    requires i < |ordered| && OnPlan(mode, opts, guarded, start, w, ordered, i, report, plan)
    ensures ordered[i] in w.meta.blobs
  {
    assert ordered[i] in start.meta.blobs;
  }
}
