/** Retiring the metadata of selected packages, and the dry-run view of it. */
module PackageApply {
  import opened Records
  import opened GraphWalk
  import opened References
  import opened Stores
  import opened PackagePlan

  /** The rows a pass retires, by key. */
  datatype Retired = Retired(tags: map<string, Tag>, manifests: map<string, Manifest>, links: map<string, Link>)

  datatype Keys = Keys(tags: set<string>, manifests: set<string>, links: set<string>)

  function KeysOf(r: Retired): Keys {
    Keys(r.tags.Keys, r.manifests.Keys, r.links.Keys)
  }

  // ---------------------------------------------------------------------------
  // Which keys are retired

  // Keys of the first `n` groups that are selected, or that are not.

  ghost function TagKeys(groups: seq<Group>, n: nat, selected: set<nat>, chosen: bool): set<string> {
    set i: nat, t | i < n && i < |groups| && (i in selected) == chosen && t in groups[i].tags :: TagKey(t)
  }

  ghost function ManifestKeys(groups: seq<Group>, n: nat, selected: set<nat>, chosen: bool): set<string> {
    set i: nat, m | i < n && i < |groups| && (i in selected) == chosen && m in groups[i].manifests :: ManifestKey(m)
  }

  ghost function LinkKeys(groups: seq<Group>, n: nat, selected: set<nat>, chosen: bool): set<string> {
    set i: nat, l | i < n && i < |groups| && (i in selected) == chosen && l in groups[i].links :: LinkKey(l)
  }

  /** The manifests that tags outside `gone` resolve to. */
  function KeptTargets(tags: seq<Tag>, gone: set<string>): set<string> {
    set t | t in tags && TagKey(t) !in gone :: TargetKey(t)
  }

  function KeptRepos(manifests: seq<Manifest>, gone: set<string>): set<(string, string)> {
    set m | m in manifests && ManifestKey(m) !in gone :: (m.alias, m.repository)
  }

  predicate OrphanLink(l: Link, kept: set<(string, string)>, candidates: set<string>, cutoff: int) {
    && l.digest in candidates && (l.alias, l.repository) !in kept
    && l.lastAccessAt != 0 && !LinkRecent(cutoff, l)
  }

  ghost function RetiredTags(groups: seq<Group>, selected: set<nat>): set<string> {
    TagKeys(groups, |groups|, selected, true) - TagKeys(groups, |groups|, selected, false)
  }

  ghost function RetiredManifests(inv: Snapshot, groups: seq<Group>, selected: set<nat>): set<string> {
    ManifestKeys(groups, |groups|, selected, true) - ManifestKeys(groups, |groups|, selected, false)
      - KeptTargets(inv.tags, RetiredTags(groups, selected))
  }

  ghost function RetiredLinks(groups: seq<Group>, selected: set<nat>): set<string> {
    LinkKeys(groups, |groups|, selected, true) - LinkKeys(groups, |groups|, selected, false)
  }

  function OrphanLinks(links: seq<Link>, kept: set<(string, string)>, candidates: set<string>,
                       cutoff: int): set<string>
  {
    set l | l in links && OrphanLink(l, kept, candidates, cutoff) :: LinkKey(l)
  }

  ghost function RetiredKeys(inv: Snapshot, groups: seq<Group>, s: Selection, cutoff: int): Keys {
    var manifests := RetiredManifests(inv, groups, s.selected);
    Keys(RetiredTags(groups, s.selected), manifests,
         RetiredLinks(groups, s.selected) +
         OrphanLinks(inv.links, KeptRepos(inv.manifests, manifests), s.candidates, cutoff))
  }

  // ---------------------------------------------------------------------------
  // Building the retirement

  ghost function KeysIn<T(!new)>(rows: seq<T>, key: T -> string): set<string> {
    set r | r in rows :: key(r)
  }

  /** Each key maps to a row with that key. */
  ghost predicate KeyedBy<T(!new)>(m: map<string, T>, key: T -> string) {
    forall k :: k in m ==> key(m[k]) == k
  }

  method IncludeRows<T(!new)>(into: map<string, T>, rows: seq<T>, key: T -> string, ghost source: iset<T>)
    returns (m: map<string, T>)
    requires KeyedBy(into, key) && (forall k :: k in into ==> into[k] in source) &&
      (forall r :: r in rows ==> r in source)
    ensures KeyedBy(m, key) && forall k :: k in m ==> m[k] in source
    ensures m.Keys == into.Keys + KeysIn(rows, key)
  {
    m := into;
    for i := 0 to |rows|
      invariant KeyedBy(m, key) && forall k :: k in m ==> m[k] in source
      invariant m.Keys == into.Keys + KeysIn(rows[..i], key)
    {
      assert rows[..i + 1] == rows[..i] + [rows[i]];
      m := m[key(rows[i]) := rows[i]];
    }
    assert rows[..|rows|] == rows;
  }

  /** Every row of every group comes from the inventory. */
  ghost predicate FromInventory(inv: Snapshot, groups: seq<Group>) {
    forall g :: g in groups ==>
      && (forall t :: t in g.tags ==> t in inv.tags)
      && (forall m :: m in g.manifests ==> m in inv.manifests)
      && (forall l :: l in g.links ==> l in inv.links)
  }

  ghost predicate Stored(inv: Snapshot, r: Retired) {
    && KeyedBy(r.tags, TagKey) && (forall k :: k in r.tags ==> r.tags[k] in inv.tags)
    && KeyedBy(r.manifests, ManifestKey) && (forall k :: k in r.manifests ==> r.manifests[k] in inv.manifests)
    && KeyedBy(r.links, LinkKey) && (forall k :: k in r.links ==> r.links[k] in inv.links)
  }

  lemma TagKeysStep(groups: seq<Group>, i: nat, selected: set<nat>, chosen: bool)
    requires i < |groups|
    ensures TagKeys(groups, i + 1, selected, chosen) ==
      TagKeys(groups, i, selected, chosen) + (if (i in selected) == chosen then KeysIn(groups[i].tags, TagKey) else {})
  {
  }

  method CollectTags(inv: Snapshot, groups: seq<Group>, selected: set<nat>, chosen: bool) returns (m: map<string, Tag>)
    requires FromInventory(inv, groups)
    ensures m.Keys == TagKeys(groups, |groups|, selected, chosen)
    ensures KeyedBy(m, TagKey) && forall k :: k in m ==> m[k] in inv.tags
  {
    m := map[];
    for i := 0 to |groups|
      invariant m.Keys == TagKeys(groups, i, selected, chosen)
      invariant KeyedBy(m, TagKey) && forall k :: k in m ==> m[k] in inv.tags
    {
      TagKeysStep(groups, i, selected, chosen);
      if (i in selected) == chosen {
        m := IncludeRows(m, groups[i].tags, TagKey, iset t | t in inv.tags);
      }
    }
  }

  lemma ManifestKeysStep(groups: seq<Group>, i: nat, selected: set<nat>, chosen: bool)
    requires i < |groups|
    ensures ManifestKeys(groups, i + 1, selected, chosen) ==
      ManifestKeys(groups, i, selected, chosen) +
      (if (i in selected) == chosen then KeysIn(groups[i].manifests, ManifestKey) else {})
  {
  }

  method CollectManifests(inv: Snapshot, groups: seq<Group>, selected: set<nat>, chosen: bool)
    returns (m: map<string, Manifest>)
    requires FromInventory(inv, groups)
    ensures m.Keys == ManifestKeys(groups, |groups|, selected, chosen)
    ensures KeyedBy(m, ManifestKey) && forall k :: k in m ==> m[k] in inv.manifests
  {
    m := map[];
    for i := 0 to |groups|
      invariant m.Keys == ManifestKeys(groups, i, selected, chosen)
      invariant KeyedBy(m, ManifestKey) && forall k :: k in m ==> m[k] in inv.manifests
    {
      ManifestKeysStep(groups, i, selected, chosen);
      if (i in selected) == chosen {
        m := IncludeRows(m, groups[i].manifests, ManifestKey, iset t | t in inv.manifests);
      }
    }
  }

  lemma LinkKeysStep(groups: seq<Group>, i: nat, selected: set<nat>, chosen: bool)
    requires i < |groups|
    ensures LinkKeys(groups, i + 1, selected, chosen) ==
      LinkKeys(groups, i, selected, chosen) +
      (if (i in selected) == chosen then KeysIn(groups[i].links, LinkKey) else {})
  {
  }

  method CollectLinks(inv: Snapshot, groups: seq<Group>, selected: set<nat>, chosen: bool)
    returns (m: map<string, Link>)
    requires FromInventory(inv, groups)
    ensures m.Keys == LinkKeys(groups, |groups|, selected, chosen)
    ensures KeyedBy(m, LinkKey) && forall k :: k in m ==> m[k] in inv.links
  {
    m := map[];
    for i := 0 to |groups|
      invariant m.Keys == LinkKeys(groups, i, selected, chosen)
      invariant KeyedBy(m, LinkKey) && forall k :: k in m ==> m[k] in inv.links
    {
      LinkKeysStep(groups, i, selected, chosen);
      if (i in selected) == chosen {
        m := IncludeRows(m, groups[i].links, LinkKey, iset t | t in inv.links);
      }
    }
  }

  method PackageRetirements(inv: Snapshot, groups: seq<Group>, selected: set<nat>) returns (r: Retired)
    requires FromInventory(inv, groups)
    ensures KeysOf(r) ==
      Keys(RetiredTags(groups, selected), RetiredManifests(inv, groups, selected), RetiredLinks(groups, selected))
    ensures Stored(inv, r)
  {
    var tags := CollectTags(inv, groups, selected, true);
    var keptTags := CollectTags(inv, groups, selected, false);
    tags := tags - keptTags.Keys;
    // A tag that stays keeps its manifest, whichever package holds it.
    var targets := KeptTargets(inv.tags, tags.Keys);
    var manifests := CollectManifests(inv, groups, selected, true);
    var keptManifests := CollectManifests(inv, groups, selected, false);
    manifests := manifests - keptManifests.Keys - targets;
    var links := CollectLinks(inv, groups, selected, true);
    var keptLinks := CollectLinks(inv, groups, selected, false);
    links := links - keptLinks.Keys;
    r := Retired(tags, manifests, links);
  }

  lemma OrphansOneMore(links: seq<Link>, l: Link, kept: set<(string, string)>, candidates: set<string>, cutoff: int)
    ensures OrphanLinks(links + [l], kept, candidates, cutoff) ==
      OrphanLinks(links, kept, candidates, cutoff) +
      (if OrphanLink(l, kept, candidates, cutoff) then {LinkKey(l)} else {})
  {
    assert l in links + [l];
  }

  method RetireOrphanLinks(inv: Snapshot, candidates: set<string>, cutoff: int, retired: Retired) returns (r: Retired)
    requires Stored(inv, retired)
    ensures KeysOf(r) == KeysOf(retired).(links := retired.links.Keys +
      OrphanLinks(inv.links, KeptRepos(inv.manifests, retired.manifests.Keys), candidates, cutoff))
    ensures Stored(inv, r)
  {
    var kept := KeptRepos(inv.manifests, retired.manifests.Keys);
    var links := AddOrphanLinks(inv.links, kept, candidates, cutoff, retired.links);
    r := retired.(links := links);
  }

  method AddOrphanLinks(all: seq<Link>, kept: set<(string, string)>, candidates: set<string>, cutoff: int,
                        retired: map<string, Link>)
    returns (links: map<string, Link>)
    requires KeyedBy(retired, LinkKey) && forall k :: k in retired ==> retired[k] in all
    ensures KeyedBy(links, LinkKey) && forall k :: k in links ==> links[k] in all
    ensures links.Keys == retired.Keys + OrphanLinks(all, kept, candidates, cutoff)
  {
    links := retired;
    for i := 0 to |all|
      invariant KeyedBy(links, LinkKey) && forall k :: k in links ==> links[k] in all
      invariant links.Keys == retired.Keys + OrphanLinks(all[..i], kept, candidates, cutoff)
    {
      assert all[..i + 1] == all[..i] + [all[i]];
      OrphansOneMore(all[..i], all[i], kept, candidates, cutoff);
      if OrphanLink(all[i], kept, candidates, cutoff) {
        links := links[LinkKey(all[i]) := all[i]];
      }
    }
    assert all[..|all|] == all;
  }

  // ---------------------------------------------------------------------------
  // Which rows that retires

  /** Some group has the row that is selected, or that is not. */
  ghost predicate HasTag(groups: seq<Group>, selected: set<nat>, chosen: bool, t: Tag) {
    exists i: nat :: i < |groups| && (i in selected) == chosen && t in groups[i].tags
  }

  ghost predicate HasManifest(groups: seq<Group>, selected: set<nat>, chosen: bool, m: Manifest) {
    exists i: nat :: i < |groups| && (i in selected) == chosen && m in groups[i].manifests
  }

  ghost predicate HasLink(groups: seq<Group>, selected: set<nat>, chosen: bool, l: Link) {
    exists i: nat :: i < |groups| && (i in selected) == chosen && l in groups[i].links
  }

  lemma TagKeysIff(inv: Snapshot, groups: seq<Group>, selected: set<nat>, chosen: bool, t: Tag)
    requires ValidSnapshot(inv) && FromInventory(inv, groups) && t in inv.tags
    ensures TagKey(t) in TagKeys(groups, |groups|, selected, chosen) <==> HasTag(groups, selected, chosen, t)
  {
    if i: nat, q :| i < |groups| && (i in selected) == chosen && q in groups[i].tags && TagKey(q) == TagKey(t) {
      assert groups[i] in groups;
      UniqueRow(inv.tags, TagKey, q, t);
    }
  }

  lemma ManifestKeysIff(inv: Snapshot, groups: seq<Group>, selected: set<nat>, chosen: bool, m: Manifest)
    requires ValidSnapshot(inv) && FromInventory(inv, groups) && m in inv.manifests
    ensures ManifestKey(m) in ManifestKeys(groups, |groups|, selected, chosen) <==>
      HasManifest(groups, selected, chosen, m)
  {
    if ManifestKey(m) in ManifestKeys(groups, |groups|, selected, chosen) {
      var i: nat, q :| i < |groups| && (i in selected) == chosen && q in groups[i].manifests &&
        ManifestKey(q) == ManifestKey(m);
      assert groups[i] in groups;
      UniqueRow(inv.manifests, ManifestKey, q, m);
    }
  }

  lemma LinkKeysIff(inv: Snapshot, groups: seq<Group>, selected: set<nat>, chosen: bool, l: Link)
    requires ValidSnapshot(inv) && FromInventory(inv, groups) && l in inv.links
    ensures LinkKey(l) in LinkKeys(groups, |groups|, selected, chosen) <==> HasLink(groups, selected, chosen, l)
  {
    if i: nat, q :| i < |groups| && (i in selected) == chosen && q in groups[i].links && LinkKey(q) == LinkKey(l) {
      assert groups[i] in groups;
      UniqueRow(inv.links, LinkKey, q, l);
    }
  }

  /** A tag goes exactly when a selected package has it and no other does. */
  lemma TagRetiredIff(inv: Snapshot, groups: seq<Group>, s: Selection, cutoff: int, t: Tag)
    requires ValidSnapshot(inv) && FromInventory(inv, groups) && t in inv.tags
    ensures TagKey(t) in RetiredKeys(inv, groups, s, cutoff).tags <==>
      HasTag(groups, s.selected, true, t) && !HasTag(groups, s.selected, false, t)
  {
    TagKeysIff(inv, groups, s.selected, true, t);
    TagKeysIff(inv, groups, s.selected, false, t);
  }

  /** A manifest goes exactly when, besides, no tag that stays resolves to it. */
  lemma ManifestRetiredIff(inv: Snapshot, groups: seq<Group>, s: Selection, cutoff: int, m: Manifest)
    requires ValidSnapshot(inv) && FromInventory(inv, groups) && m in inv.manifests
    ensures ManifestKey(m) in RetiredKeys(inv, groups, s, cutoff).manifests <==>
      && HasManifest(groups, s.selected, true, m) && !HasManifest(groups, s.selected, false, m)
      && !exists t :: t in inv.tags && TagKey(t) !in RetiredKeys(inv, groups, s, cutoff).tags &&
            t.alias + "/" + t.repository + "@" + t.digest == ManifestKey(m)
  {
    ManifestKeysIff(inv, groups, s.selected, true, m);
    ManifestKeysIff(inv, groups, s.selected, false, m);
  }

  /** A link goes with its package, or when it is a stale link of a candidate whose
      repository keeps no manifest at all. */
  lemma LinkRetiredIff(inv: Snapshot, groups: seq<Group>, s: Selection, cutoff: int, l: Link)
    requires ValidSnapshot(inv) && FromInventory(inv, groups) && l in inv.links
    ensures LinkKey(l) in RetiredKeys(inv, groups, s, cutoff).links <==>
      || (HasLink(groups, s.selected, true, l) && !HasLink(groups, s.selected, false, l))
      || (&& l.digest in s.candidates && l.lastAccessAt != 0
          && l.lastAccessAt < cutoff && l.lastVerifiedAt < cutoff && l.updatedAt < cutoff && l.createdAt < cutoff
          && !exists m :: m in inv.manifests && ManifestKey(m) !in RetiredKeys(inv, groups, s, cutoff).manifests &&
                m.alias == l.alias && m.repository == l.repository)
  {
    LinkKeysIff(inv, groups, s.selected, true, l);
    LinkKeysIff(inv, groups, s.selected, false, l);
    var gone := RetiredKeys(inv, groups, s, cutoff).manifests;
    var kept := KeptRepos(inv.manifests, gone);
    OrphanLinksIff(inv, kept, s.candidates, cutoff, l);
    assert (l.alias, l.repository) in kept <==>
      exists m :: m in inv.manifests && ManifestKey(m) !in gone && m.alias == l.alias && m.repository == l.repository;
  }

  lemma OrphanLinksIff(inv: Snapshot, kept: set<(string, string)>, candidates: set<string>, cutoff: int, l: Link)
    requires ValidSnapshot(inv) && l in inv.links
    ensures LinkKey(l) in OrphanLinks(inv.links, kept, candidates, cutoff) <==>
      && l.digest in candidates && (l.alias, l.repository) !in kept && l.lastAccessAt != 0
      && l.lastAccessAt < cutoff && l.lastVerifiedAt < cutoff && l.updatedAt < cutoff && l.createdAt < cutoff
  {
    if q :| q in inv.links && LinkKey(q) == LinkKey(l) && OrphanLink(q, kept, candidates, cutoff) {
      UniqueRow(inv.links, LinkKey, q, l);
    }
    var times := [l.lastAccessAt, l.lastVerifiedAt, l.updatedAt, l.createdAt];
    TimesIff(cutoff, times);
    assert times[0] in times && times[1] in times && times[2] in times && times[3] in times;
  }

  // ---------------------------------------------------------------------------
  // Applying it

  /** The snapshot without the retired rows: what the dry run reads, and what a
      real run leaves. */
  function View(inv: Snapshot, k: Keys): Snapshot {
    inv.(manifests := Except(inv.manifests, ManifestKey, k.manifests),
         tags := Except(inv.tags, TagKey, k.tags),
         links := Except(inv.links, LinkKey, k.links))
  }

  lemma ViewValid(inv: Snapshot, k: Keys)
    requires ValidSnapshot(inv)
    ensures ValidSnapshot(View(inv, k))
  {
    ExceptUnique(inv.manifests, ManifestKey, k.manifests);
    ExceptUnique(inv.tags, TagKey, k.tags);
    ExceptUnique(inv.links, LinkKey, k.links);
  }

  /** A point inside retirement: some tags, then some manifests, then some links. */
  ghost predicate Retiring(inv: World, k: Keys, w: World) {
    exists done: Keys :: RetiredSoFar(inv, k, done, w)
  }

  ghost predicate RetiredSoFar(inv: World, k: Keys, done: Keys, w: World) {
    && w == inv.(meta := View(inv.meta, done))
    && done.tags <= k.tags && done.manifests <= k.manifests && done.links <= k.links
    && (done.manifests != {} ==> done.tags == k.tags)
    && (done.links != {} ==> done.tags == k.tags && done.manifests == k.manifests)
  }

  ghost predicate AllRetiring(inv: World, k: Keys, trace: seq<World>, from: nat) {
    forall i :: from <= i < |trace| ==> Retiring(inv, k, trace[i])
  }

  lemma RetireTagStep(inv: World, k: Keys, done: Keys, row: Tag, w: World)
    requires ValidSnapshot(inv.meta) && row in inv.meta.tags
    requires TagKey(row) in k.tags && TagKey(row) !in done.tags
    requires RetiredSoFar(inv, k, done, w) && done.manifests == {} && done.links == {}
    ensures TagUnchanged(w.meta.tags, row)
    ensures RetiredSoFar(inv, k, done.(tags := done.tags + {TagKey(row)}), WithoutTags(w, {TagKey(row)}))
  {
    ExceptUnique(inv.meta.tags, TagKey, done.tags);
    FindsRow(w.meta.tags, TagKey, row);
    ExceptTwice(inv.meta.tags, TagKey, done.tags, {TagKey(row)});
  }

  method RetireTags(store: Store, rows: map<string, Tag>, ghost inv: World, ghost k: Keys) returns (r: Result<()>)
    requires ValidSnapshot(inv.meta) && rows.Keys == k.tags
    requires KeyedBy(rows, TagKey) && forall key :: key in rows ==> rows[key] in inv.meta.tags
    requires RetiredSoFar(inv, k, Keys({}, {}, {}), store.world)
    modifies store
    ensures old(store.trace) <= store.trace && AllRetiring(inv, k, store.trace, |old(store.trace)|)
    ensures Retiring(inv, k, store.world)
    ensures r.Ok? ==> RetiredSoFar(inv, k, Keys(k.tags, {}, {}), store.world)
    ensures r.Err? ==> r.error == StoreFailed
  {
    var todo := rows.Keys;
    ghost var done := Keys({}, {}, {});
    while todo != {}
      invariant todo <= rows.Keys && done == Keys(k.tags - todo, {}, {})
      invariant RetiredSoFar(inv, k, done, store.world)
      invariant old(store.trace) <= store.trace && AllRetiring(inv, k, store.trace, |old(store.trace)|)
    {
      var key :| key in todo;
      RetireTagStep(inv, k, done, rows[key], store.world);
      var deleted := store.DeleteTagIfUnchanged(rows[key]);
      if deleted.Err? { return Err(deleted.error); }
      if !deleted.value { return Err(Changed); }
      todo, done := todo - {key}, done.(tags := done.tags + {key});
    }
    assert done == Keys(k.tags, {}, {});
    return Ok(());
  }

  lemma RetireManifestStep(inv: World, k: Keys, done: Keys, row: Manifest, w: World)
    requires ValidSnapshot(inv.meta) && row in inv.meta.manifests
    requires ManifestKey(row) in k.manifests && ManifestKey(row) !in done.manifests
    requires RetiredSoFar(inv, k, done, w) && done.tags == k.tags && done.links == {}
    ensures ManifestUnchanged(w.meta.manifests, row)
    ensures RetiredSoFar(inv, k, done.(manifests := done.manifests + {ManifestKey(row)}),
                         WithoutManifests(w, {ManifestKey(row)}))
  {
    ExceptUnique(inv.meta.manifests, ManifestKey, done.manifests);
    FindsRow(w.meta.manifests, ManifestKey, row);
    ExceptTwice(inv.meta.manifests, ManifestKey, done.manifests, {ManifestKey(row)});
  }

  method RetireManifests(store: Store, rows: map<string, Manifest>, ghost inv: World, ghost k: Keys)
    returns (r: Result<()>)
    requires ValidSnapshot(inv.meta) && rows.Keys == k.manifests
    requires KeyedBy(rows, ManifestKey) && forall key :: key in rows ==> rows[key] in inv.meta.manifests
    requires RetiredSoFar(inv, k, Keys(k.tags, {}, {}), store.world)
    modifies store
    ensures old(store.trace) <= store.trace && AllRetiring(inv, k, store.trace, |old(store.trace)|)
    ensures Retiring(inv, k, store.world)
    ensures r.Ok? ==> RetiredSoFar(inv, k, Keys(k.tags, k.manifests, {}), store.world)
    ensures r.Err? ==> r.error == StoreFailed
  {
    var todo := rows.Keys;
    ghost var done := Keys(k.tags, {}, {});
    while todo != {}
      invariant todo <= rows.Keys && done == Keys(k.tags, k.manifests - todo, {})
      invariant RetiredSoFar(inv, k, done, store.world)
      invariant old(store.trace) <= store.trace && AllRetiring(inv, k, store.trace, |old(store.trace)|)
    {
      var key :| key in todo;
      RetireManifestStep(inv, k, done, rows[key], store.world);
      var deleted := store.DeleteManifestIfUnchanged(rows[key]);
      if deleted.Err? { return Err(deleted.error); }
      if !deleted.value { return Err(Changed); }
      todo, done := todo - {key}, done.(manifests := done.manifests + {key});
    }
    assert done == Keys(k.tags, k.manifests, {});
    return Ok(());
  }

  lemma RetireLinkStep(inv: World, k: Keys, done: Keys, row: Link, w: World)
    requires ValidSnapshot(inv.meta) && row in inv.meta.links
    requires LinkKey(row) in k.links && LinkKey(row) !in done.links
    requires RetiredSoFar(inv, k, done, w) && done.tags == k.tags && done.manifests == k.manifests
    ensures LinkUnchanged(w.meta.links, row)
    ensures RetiredSoFar(inv, k, done.(links := done.links + {LinkKey(row)}), WithoutLinks(w, {LinkKey(row)}))
  {
    ExceptUnique(inv.meta.links, LinkKey, done.links);
    FindsRow(w.meta.links, LinkKey, row);
    ExceptTwice(inv.meta.links, LinkKey, done.links, {LinkKey(row)});
  }

  method RetireLinks(store: Store, rows: map<string, Link>, ghost inv: World, ghost k: Keys) returns (r: Result<()>)
    requires ValidSnapshot(inv.meta) && rows.Keys == k.links
    requires KeyedBy(rows, LinkKey) && forall key :: key in rows ==> rows[key] in inv.meta.links
    requires RetiredSoFar(inv, k, Keys(k.tags, k.manifests, {}), store.world)
    modifies store
    ensures old(store.trace) <= store.trace && AllRetiring(inv, k, store.trace, |old(store.trace)|)
    ensures Retiring(inv, k, store.world)
    ensures r.Ok? ==> RetiredSoFar(inv, k, k, store.world)
    ensures r.Err? ==> r.error == StoreFailed
  {
    var todo := rows.Keys;
    ghost var done := Keys(k.tags, k.manifests, {});
    while todo != {}
      invariant todo <= rows.Keys && done == Keys(k.tags, k.manifests, k.links - todo)
      invariant RetiredSoFar(inv, k, done, store.world)
      invariant old(store.trace) <= store.trace && AllRetiring(inv, k, store.trace, |old(store.trace)|)
    {
      var key :| key in todo;
      RetireLinkStep(inv, k, done, rows[key], store.world);
      var deleted := store.DeleteLinkIfUnchanged(rows[key]);
      if deleted.Err? { return Err(deleted.error); }
      if !deleted.value { return Err(Changed); }
      todo, done := todo - {key}, done.(links := done.links + {key});
    }
    assert done == k;
    return Ok(());
  }

  /** With no writer the only failure is the store's own; then, and after every
      write, the stores are a prefix of the retirement. */
  method RetirePackageMetadata(store: Store, retired: Retired) returns (r: Result<()>)
    requires ValidSnapshot(store.world.meta) && Stored(store.world.meta, retired)
    modifies store
    ensures old(store.trace) <= store.trace &&
      AllRetiring(old(store.world), KeysOf(retired), store.trace, |old(store.trace)|)
    ensures Retiring(old(store.world), KeysOf(retired), store.world)
    ensures r.Ok? ==> store.world == old(store.world).(meta := View(old(store.world).meta, KeysOf(retired)))
    ensures r.Err? ==> r.error == StoreFailed
  {
    ghost var inv, k := store.world, KeysOf(retired);
    ExceptNothing(inv.meta.tags, TagKey);
    ExceptNothing(inv.meta.manifests, ManifestKey);
    ExceptNothing(inv.meta.links, LinkKey);
    assert RetiredSoFar(inv, k, Keys({}, {}, {}), inv);
    r := RetireTags(store, retired.tags, inv, k);
    if r.Err? { return; }
    r := RetireManifests(store, retired.manifests, inv, k);
    if r.Err? { return; }
    r := RetireLinks(store, retired.links, inv, k);
  }
}
