/** The metadata and object stores as the collector drives them. The ghost trace
    records the world after every single successful write, so that a property of
    the trace holds wherever a pass stops. */
module Stores {
  import opened Records
  import opened GraphWalk
  import opened References

  function WithoutTags(w: World, keys: set<string>): World {
    w.(meta := w.meta.(tags := Except(w.meta.tags, TagKey, keys)))
  }

  function WithoutManifests(w: World, keys: set<string>): World {
    w.(meta := w.meta.(manifests := Except(w.meta.manifests, ManifestKey, keys)))
  }

  function WithoutLinks(w: World, keys: set<string>): World {
    w.(meta := w.meta.(links := Except(w.meta.links, LinkKey, keys)))
  }

  function WithoutBlobs(w: World, digests: set<string>): World {
    w.(meta := w.meta.(blobs := Except(w.meta.blobs, BlobKey, digests)))
  }

  predicate SameBlobRevision(a: Blob, b: Blob) {
    && a.digest == b.digest && a.size == b.size && a.objectKey == b.objectKey
    && a.lastAccessAt == b.lastAccessAt && a.updatedAt == b.updatedAt
  }

  predicate BlobUnchanged(blobs: seq<Blob>, expected: Blob) {
    var current := Find(blobs, BlobKey, expected.digest);
    current.Some? && SameBlobRevision(current.value, expected)
  }

  predicate TagUnchanged(tags: seq<Tag>, expected: Tag) {
    var current := Find(tags, TagKey, TagKey(expected));
    current.Some? && current.value.digest == expected.digest && current.value.updatedAt == expected.updatedAt
  }

  predicate ManifestUnchanged(manifests: seq<Manifest>, expected: Manifest) {
    var current := Find(manifests, ManifestKey, ManifestKey(expected));
    && current.Some? && current.value.digest == expected.digest
    && current.value.objectKey == expected.objectKey && current.value.updatedAt == expected.updatedAt
  }

  predicate LinkUnchanged(links: seq<Link>, expected: Link) {
    var current := Find(links, LinkKey, LinkKey(expected));
    current.Some? && current.value.digest == expected.digest && current.value.updatedAt == expected.updatedAt
  }

  // What the comparisons mean, in terms of the stored rows: the key identifies the row
  // and these columns its revision.

  lemma BlobUnchangedIff(blobs: seq<Blob>, expected: Blob)
    requires UniqueKeys(blobs, BlobKey)
    ensures BlobUnchanged(blobs, expected) <==>
      exists b :: b in blobs && b.digest == expected.digest &&
        b.size == expected.size && b.objectKey == expected.objectKey &&
        b.lastAccessAt == expected.lastAccessAt && b.updatedAt == expected.updatedAt
  {
    forall b | b in blobs && b.digest == expected.digest ensures Find(blobs, BlobKey, expected.digest) == Some(b) {
      FindsRow(blobs, BlobKey, b);
    }
  }

  lemma TagUnchangedIff(tags: seq<Tag>, expected: Tag)
    requires UniqueKeys(tags, TagKey)
    ensures TagUnchanged(tags, expected) <==>
      exists t :: t in tags && TagKey(t) == TagKey(expected) &&
        t.digest == expected.digest && t.updatedAt == expected.updatedAt
  {
    forall t | t in tags && TagKey(t) == TagKey(expected) ensures Find(tags, TagKey, TagKey(expected)) == Some(t) {
      FindsRow(tags, TagKey, t);
    }
  }

  lemma ManifestUnchangedIff(rows: seq<Manifest>, expected: Manifest)
    requires UniqueKeys(rows, ManifestKey)
    ensures ManifestUnchanged(rows, expected) <==>
      exists m :: m in rows && ManifestKey(m) == ManifestKey(expected) &&
        m.digest == expected.digest && m.objectKey == expected.objectKey && m.updatedAt == expected.updatedAt
  {
    forall m | m in rows && ManifestKey(m) == ManifestKey(expected)
      ensures Find(rows, ManifestKey, ManifestKey(expected)) == Some(m)
    {
      FindsRow(rows, ManifestKey, m);
    }
  }

  lemma LinkUnchangedIff(links: seq<Link>, expected: Link)
    requires UniqueKeys(links, LinkKey)
    ensures LinkUnchanged(links, expected) <==>
      exists l :: l in links && LinkKey(l) == LinkKey(expected) &&
        l.digest == expected.digest && l.updatedAt == expected.updatedAt
  {
    forall l | l in links && LinkKey(l) == LinkKey(expected)
      ensures Find(links, LinkKey, LinkKey(expected)) == Some(l)
    {
      FindsRow(links, LinkKey, l);
    }
  }

  /** An object's size, or that it is missing. */
  datatype Stat = Stat(size: nat, missing: bool)

  function StatOf(objects: Objects, digest: string): Stat {
    if digest in objects then Stat(|objects[digest]|, false) else Stat(0, true)
  }

  class Store {
    var world: World
    ghost var trace: seq<World>

    constructor (w: World)
      ensures world == w && trace == []
    {
      world, trace := w, [];
    }

    method StatObject(digest: string) returns (r: Result<Stat>)
      ensures r.Ok? ==> digest != "" && r.value == StatOf(world.objects, digest)
      ensures r.Err? ==> r.error == StoreFailed
    {
      var failed: bool := *;
      if failed || digest == "" { return Err(StoreFailed); }
      return Ok(StatOf(world.objects, digest));
    }

    /** Deleting a missing object succeeds; an empty digest is invalid. */
    method DeleteObject(digest: string) returns (r: Result<()>)
      modifies this
      ensures r.Err? ==> world == old(world) && trace == old(trace) && r.error == StoreFailed
      ensures r.Ok? ==> digest != "" && trace == old(trace) + [world]
      ensures r.Ok? ==> world == old(world).(objects := old(world).objects - {digest})
    {
      var failed: bool := *;
      if failed || digest == "" { return Err(StoreFailed); }
      world := world.(objects := world.objects - {digest});
      trace := trace + [world];
      return Ok(());
    }

    method LookupBlob(digest: string) returns (r: Result<Option<Blob>>)
      ensures r.Ok? ==> r.value == Find(world.meta.blobs, BlobKey, digest)
      ensures r.Err? ==> r.error == StoreFailed
    {
      var failed: bool := *;
      if failed { return Err(StoreFailed); }
      return Ok(Find(world.meta.blobs, BlobKey, digest));
    }

    method DeleteBlobIfUnchanged(expected: Blob) returns (r: Result<bool>)
      modifies this
      ensures r.Err? ==> r.error == StoreFailed
      ensures r.Ok? ==> (r.value <==> BlobUnchanged(old(world).meta.blobs, expected))
      ensures r == Ok(true) ==> world == WithoutBlobs(old(world), {expected.digest}) && trace == old(trace) + [world]
      ensures r != Ok(true) ==> world == old(world) && trace == old(trace)
    {
      var failed: bool := *;
      if failed { return Err(StoreFailed); }
      if !BlobUnchanged(world.meta.blobs, expected) { return Ok(false); }
      world := WithoutBlobs(world, {expected.digest});
      trace := trace + [world];
      return Ok(true);
    }

    method DeleteTagIfUnchanged(expected: Tag) returns (r: Result<bool>)
      modifies this
      ensures r.Err? ==> r.error == StoreFailed
      ensures r.Ok? ==> (r.value <==> TagUnchanged(old(world).meta.tags, expected))
      ensures r == Ok(true) ==> world == WithoutTags(old(world), {TagKey(expected)}) && trace == old(trace) + [world]
      ensures r != Ok(true) ==> world == old(world) && trace == old(trace)
    {
      var failed: bool := *;
      if failed { return Err(StoreFailed); }
      if !TagUnchanged(world.meta.tags, expected) { return Ok(false); }
      world := WithoutTags(world, {TagKey(expected)});
      trace := trace + [world];
      return Ok(true);
    }

    method DeleteManifestIfUnchanged(expected: Manifest) returns (r: Result<bool>)
      modifies this
      ensures r.Err? ==> r.error == StoreFailed
      ensures r.Ok? ==> (r.value <==> ManifestUnchanged(old(world).meta.manifests, expected))
      ensures r == Ok(true) ==>
        world == WithoutManifests(old(world), {ManifestKey(expected)}) && trace == old(trace) + [world]
      ensures r != Ok(true) ==> world == old(world) && trace == old(trace)
    {
      var failed: bool := *;
      if failed { return Err(StoreFailed); }
      if !ManifestUnchanged(world.meta.manifests, expected) { return Ok(false); }
      world := WithoutManifests(world, {ManifestKey(expected)});
      trace := trace + [world];
      return Ok(true);
    }

    method DeleteLinkIfUnchanged(expected: Link) returns (r: Result<bool>)
      modifies this
      ensures r.Err? ==> r.error == StoreFailed
      ensures r.Ok? ==> (r.value <==> LinkUnchanged(old(world).meta.links, expected))
      ensures r == Ok(true) ==> world == WithoutLinks(old(world), {LinkKey(expected)}) && trace == old(trace) + [world]
      ensures r != Ok(true) ==> world == old(world) && trace == old(trace)
    {
      var failed: bool := *;
      if failed { return Err(StoreFailed); }
      if !LinkUnchanged(world.meta.links, expected) { return Ok(false); }
      world := WithoutLinks(world, {LinkKey(expected)});
      trace := trace + [world];
      return Ok(true);
    }
  }

  // ---------------------------------------------------------------------------
  // Deleting rows by key

  ghost function KeysAt<T(!new)>(rows: seq<T>, key: T -> string, digest: T -> string, d: string): set<string> {
    set r | r in rows && digest(r) == d :: key(r)
  }

  lemma ExceptOnlyLoses<T(!new)>(before: seq<T>, rows: seq<T>, gone: set<string>, key: T -> string, digest: T -> string,
                                 d: string)
    requires OnlyLoses(before, rows, digest, d) && UniqueKeys(rows, key)
    requires gone <= KeysAt(rows, key, digest, d)
    ensures OnlyLoses(before, Except(rows, key, gone), digest, d)
  {
    forall r, q | r in rows && q in rows && key(q) == key(r) ensures q == r {
      UniqueRow(rows, key, r, q);
    }
  }

  // Deleting further rows of `d` keeps the snapshot valid and stays inside the
  // deletion of `d`.

  lemma ShedsTag(w: World, e: World, d: string, row: Tag)
    requires Sheds(w, e, d) && ValidSnapshot(e.meta) && row in e.meta.tags && row.digest == d
    ensures Sheds(w, WithoutTags(e, {TagKey(row)}), d)
    ensures ValidSnapshot(WithoutTags(e, {TagKey(row)}).meta)
  {
    ExceptOnlyLoses(w.meta.tags, e.meta.tags, {TagKey(row)}, TagKey, TagDigest, d);
    ExceptUnique(e.meta.tags, TagKey, {TagKey(row)});
  }

  lemma ShedsManifest(w: World, e: World, d: string, row: Manifest)
    requires Sheds(w, e, d) && ValidSnapshot(e.meta) && row in e.meta.manifests && row.digest == d
    ensures Sheds(w, WithoutManifests(e, {ManifestKey(row)}), d)
    ensures ValidSnapshot(WithoutManifests(e, {ManifestKey(row)}).meta)
  {
    ExceptOnlyLoses(w.meta.manifests, e.meta.manifests, {ManifestKey(row)}, ManifestKey, ManifestDigest, d);
    ExceptUnique(e.meta.manifests, ManifestKey, {ManifestKey(row)});
  }

  lemma ShedsLink(w: World, e: World, d: string, row: Link)
    requires Sheds(w, e, d) && ValidSnapshot(e.meta) && row in e.meta.links && row.digest == d
    ensures Sheds(w, WithoutLinks(e, {LinkKey(row)}), d)
    ensures ValidSnapshot(WithoutLinks(e, {LinkKey(row)}).meta)
  {
    ExceptOnlyLoses(w.meta.links, e.meta.links, {LinkKey(row)}, LinkKey, LinkDigest, d);
    ExceptUnique(e.meta.links, LinkKey, {LinkKey(row)});
  }

  lemma ShedsBlob(w: World, e: World, d: string)
    requires Sheds(w, e, d) && ValidSnapshot(e.meta)
    ensures Sheds(w, WithoutBlobs(e, {d}), d)
    ensures ValidSnapshot(WithoutBlobs(e, {d}).meta)
  {
    assert forall b :: b in e.meta.blobs && BlobDigest(b) != d ==> BlobKey(b) != d;
    ExceptUnique(e.meta.blobs, BlobKey, {d});
  }
}
