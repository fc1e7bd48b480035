/** The metadata rows and object store that the collector, the planners and the
    transfer code share. Only the fields those components read are kept.

    A time is a natural number and 0 is the zero time. Strings are sequences of
    bytes, so `|s|` is Go's `len(s)`. */
module Records {
  datatype Option<+T> = None | Some(value: T)

  type Time = nat

  datatype Manifest = Manifest(
    alias: string, repository: string, reference: string, acceptKey: string,
    digest: string, mediaType: string, size: int, objectKey: string,
    createdAt: Time, updatedAt: Time)

  datatype Tag = Tag(
    alias: string, repository: string, reference: string, digest: string,
    createdAt: Time, updatedAt: Time)

  datatype Blob = Blob(
    digest: string, size: int, objectKey: string,
    createdAt: Time, updatedAt: Time, lastAccessAt: Time)

  datatype Link = Link(
    alias: string, repository: string, digest: string,
    createdAt: Time, updatedAt: Time, lastAccessAt: Time, lastVerifiedAt: Time)

  datatype Pull = Pull(
    alias: string, repository: string, reference: string,
    lastPullAt: Time, lastUpstreamPullAt: Time, createdAt: Time, updatedAt: Time)

  /** A key that the source joins with NUL bytes; a row never contains NUL. */
  datatype Triple = Triple(alias: string, repository: string, name: string)

  /** The five relations of one cleanup snapshot, in the store's page order. */
  datatype Snapshot = Snapshot(
    manifests: seq<Manifest>, tags: seq<Tag>, blobs: seq<Blob>,
    links: seq<Link>, pulls: seq<Pull>)

  type Objects = map<string, string>

  /** Metadata store and object store together. */
  datatype World = World(meta: Snapshot, objects: Objects)

  /** Reading a missing key of a map of slices gives the empty slice. */
  function At<K, V>(m: map<K, seq<V>>, k: K): seq<V> {
    if k in m then m[k] else []
  }

  // The unique key columns of the metadata schema.

  function ManifestKey(m: Manifest): string { m.alias + "/" + m.repository + "@" + m.digest }

  function TagKey(t: Tag): string { t.alias + "/" + t.repository + ":" + t.reference }

  function LinkKey(l: Link): string { l.alias + "/" + l.repository + "@" + l.digest }

  function BlobKey(b: Blob): string { b.digest }

  /** The manifest key that a tag resolves to. */
  function TargetKey(t: Tag): string { t.alias + "/" + t.repository + "@" + t.digest }

  /** No slash in the alias, and the separator not in the repository. */
  predicate Plain(alias: string, repository: string, sep: char) {
    '/' !in alias && sep !in repository
  }

  /** A joined key splits in one way only. */
  lemma JoinedOnce(a: string, r: string, n: string, b: string, s: string, o: string, sep: char)
    requires Plain(a, r, sep) && Plain(b, s, sep)
    requires a + "/" + r + [sep] + n == b + "/" + s + [sep] + o
    ensures a == b && r == s && n == o
  {
    HeadOnce(a, r + [sep] + n, b, s + [sep] + o, '/') by {
      assert a + ['/'] + (r + [sep] + n) == a + "/" + r + [sep] + n;
      assert b + ['/'] + (s + [sep] + o) == b + "/" + s + [sep] + o;
    }
    HeadOnce(r, n, s, o, sep);
  }

  lemma HeadOnce(a: string, x: string, b: string, y: string, sep: char)
    requires sep !in a && sep !in b && a + [sep] + x == b + [sep] + y
    ensures a == b && x == y
  {
    var s := a + [sep] + x;
    assert forall i :: 0 <= i < |a| ==> s[i] == a[i];
    assert forall i :: 0 <= i < |b| ==> s[i] == b[i];
    assert s[|a|] == sep && s[|b|] == sep;
    assert |a| == |b|;
    assert a == s[..|a|] && b == s[..|b|] && x == s[|a| + 1..] && y == s[|b| + 1..];
  }

  /** Rows of one relation have the same key exactly when they agree on its columns. */
  lemma KeysSeparate(m: Manifest, q: Manifest, t: Tag, u: Tag, l: Link, k: Link)
    requires Plain(m.alias, m.repository, '@') && Plain(q.alias, q.repository, '@')
    requires Plain(t.alias, t.repository, ':') && Plain(u.alias, u.repository, ':')
    requires Plain(l.alias, l.repository, '@') && Plain(k.alias, k.repository, '@')
    ensures ManifestKey(m) == ManifestKey(q) <==>
      m.alias == q.alias && m.repository == q.repository && m.digest == q.digest
    ensures TagKey(t) == TagKey(u) <==>
      t.alias == u.alias && t.repository == u.repository && t.reference == u.reference
    ensures LinkKey(l) == LinkKey(k) <==> l.alias == k.alias && l.repository == k.repository && l.digest == k.digest
  {
    if ManifestKey(m) == ManifestKey(q) {
      JoinedOnce(m.alias, m.repository, m.digest, q.alias, q.repository, q.digest, '@');
    }
    if TagKey(t) == TagKey(u) {
      JoinedOnce(t.alias, t.repository, t.reference, u.alias, u.repository, u.reference, ':');
    }
    if LinkKey(l) == LinkKey(k) {
      JoinedOnce(l.alias, l.repository, l.digest, k.alias, k.repository, k.digest, '@');
    }
  }

  /** A tag resolves to the row of its own repository with its digest. */
  lemma TargetIsRow(t: Tag, m: Manifest)
    requires Plain(t.alias, t.repository, '@') && Plain(m.alias, m.repository, '@')
    ensures TargetKey(t) == ManifestKey(m) <==>
      t.alias == m.alias && t.repository == m.repository && t.digest == m.digest
  {
    if TargetKey(t) == ManifestKey(m) {
      JoinedOnce(t.alias, t.repository, t.digest, m.alias, m.repository, m.digest, '@');
    }
  }

  ghost predicate UniqueKeys<T>(rows: seq<T>, key: T -> string) {
    forall i, j :: 0 <= i < j < |rows| ==> key(rows[i]) != key(rows[j])
  }

  /** What the schema's unique columns and key validation guarantee. */
  ghost predicate ValidSnapshot(s: Snapshot) {
    && UniqueKeys(s.manifests, ManifestKey)
    && UniqueKeys(s.tags, TagKey)
    && UniqueKeys(s.blobs, BlobKey)
    && UniqueKeys(s.links, LinkKey)
    && (forall b :: b in s.blobs ==> b.digest != "")
    && (forall m :: m in s.manifests ==> m.digest != "")
    && (forall l :: l in s.links ==> l.digest != "")
  }

  /** The rows whose key is outside `gone`, in their order. */
  function Except<T(!new)>(rows: seq<T>, key: T -> string, gone: set<string>): (kept: seq<T>)
    ensures forall r :: r in kept <==> r in rows && key(r) !in gone
  {
    if rows == [] then []
    else
      var rest := Except(rows[1..], key, gone);
      assert forall r :: r in rows <==> r == rows[0] || r in rows[1..];
      if key(rows[0]) in gone then rest else [rows[0]] + rest
  }

  lemma {:induction false} ExceptTwice<T(!new)>(rows: seq<T>, key: T -> string, a: set<string>, b: set<string>)
    ensures Except(Except(rows, key, a), key, b) == Except(rows, key, a + b)
  {
    if rows != [] {
      ExceptTwice(rows[1..], key, a, b);
      var rest := Except(rows[1..], key, a);
      assert ([rows[0]] + rest)[1..] == rest;
    }
  }

  lemma {:induction false} ExceptNothing<T(!new)>(rows: seq<T>, key: T -> string)
    ensures Except(rows, key, {}) == rows
  {
    if rows != [] {
      ExceptNothing(rows[1..], key);
    }
  }

  lemma {:induction false} ExceptUnique<T(!new)>(rows: seq<T>, key: T -> string, gone: set<string>)
    requires UniqueKeys(rows, key)
    ensures UniqueKeys(Except(rows, key, gone), key)
  {
    if rows != [] {
      var tail := rows[1..];
      assert forall i, j :: 0 <= i < j < |tail| ==> tail[i] == rows[i + 1] && tail[j] == rows[j + 1];
      ExceptUnique(tail, key, gone);
      var rest := Except(tail, key, gone);
      forall r | r in rest ensures key(r) != key(rows[0]) {
        var i :| 0 <= i < |tail| && tail[i] == r;
        assert rows[i + 1] == r;
      }
    }
  }

  /** The first row with key `k`: a primary-key lookup. */
  function Find<T(!new)>(rows: seq<T>, key: T -> string, k: string): (found: Option<T>)
    ensures found.Some? ==> found.value in rows && key(found.value) == k
    ensures found.None? ==> forall r :: r in rows ==> key(r) != k
  {
    if rows == [] then None
    else if key(rows[0]) == k then Some(rows[0])
    else Find(rows[1..], key, k)
  }

  lemma UniqueRow<T>(rows: seq<T>, key: T -> string, r: T, q: T)
    requires UniqueKeys(rows, key) && r in rows && q in rows && key(r) == key(q)
    ensures r == q
  {
    var i :| 0 <= i < |rows| && rows[i] == r;
    var j :| 0 <= j < |rows| && rows[j] == q;
    assert !(i < j) && !(j < i);
  }

  lemma FindsRow<T(!new)>(rows: seq<T>, key: T -> string, r: T)
    requires UniqueKeys(rows, key) && r in rows
    ensures Find(rows, key, key(r)) == Some(r)
  {
    UniqueRow(rows, key, r, Find(rows, key, key(r)).value);
  }

  // Recency.

  function Latest(values: seq<Time>): Time {
    if values == [] then 0
    else
      var rest := Latest(values[1..]);
      if values[0] > rest then values[0] else rest
  }

  /** No known time, or the newest known time is not before the cutoff. */
  predicate IsRecent(cutoff: int, values: seq<Time>) {
    Latest(values) == 0 || Latest(values) >= cutoff
  }

  /** `isRecent` as the source folds it, with its `found` flag. */
  method FoldRecent(cutoff: int, values: seq<Time>) returns (recent: bool)
    ensures recent == IsRecent(cutoff, values)
    ensures recent <==>
      ((forall i :: 0 <= i < |values| ==> values[i] == 0) ||
       (exists i :: 0 <= i < |values| && values[i] != 0 && values[i] >= cutoff))
  {
    var found, newest := false, 0;
    for i := 0 to |values|
      invariant found <==> exists j :: 0 <= j < i && values[j] != 0
      invariant found ==> exists j :: 0 <= j < i && values[j] == newest && newest != 0
      invariant forall j :: 0 <= j < i ==> values[j] <= newest
      invariant !found ==> newest == 0
    {
      if values[i] != 0 && (!found || values[i] > newest) {
        newest, found := values[i], true;
      }
    }
    LatestIsNewest(values);
    recent := !found || newest >= cutoff;
  }

  /** Recency in terms of single times: none is known, or some is not before the cutoff. */
  lemma TimesIff(cutoff: int, values: seq<Time>)
    ensures IsRecent(cutoff, values) <==>
      (forall t :: t in values ==> t == 0) || (exists t :: t in values && t != 0 && t >= cutoff)
  {
    LatestIsNewest(values);
    forall t | t in values ensures t <= Latest(values) {
      var i :| 0 <= i < |values| && values[i] == t;
    }
  }

  lemma {:induction false} LatestIsNewest(values: seq<Time>)
    ensures forall i :: 0 <= i < |values| ==> values[i] <= Latest(values)
    ensures values != [] ==> Latest(values) in values
    ensures values == [] ==> Latest(values) == 0
  {
    if values != [] {
      LatestIsNewest(values[1..]);
      assert forall i :: 0 < i < |values| ==> values[i] == values[1..][i - 1];
      if |values| == 1 { assert values[0] == Latest(values); }
    }
  }
}
