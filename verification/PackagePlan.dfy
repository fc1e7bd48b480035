/** Selecting stale packages under the scan and deletion budgets. */
module PackagePlan {
  import opened Records
  import opened Sorting
  import opened Stores

  /** An ecosystem's complete logical eviction unit. */
  datatype Group = Group(
    ecosystem: string, alias: string, package: string, lastAccessAt: Time,
    manifests: seq<Manifest>, tags: seq<Tag>, links: seq<Link>, digests: seq<string>)

  datatype PlanOptions = PlanOptions(now: int, unusedFor: int, maxScan: int, maxDeletes: int, dryRun: bool)

  /** Ecosystem name and alias to the alias its pulls are recorded under. */
  type Scope = (string, string) -> string

  /** What the rechecks read: the current stores and the planning inventory. */
  datatype Context = Context(world: World, inventory: seq<Blob>, scope: Scope, cutoff: int)

  datatype Selection = Selection(
    selected: set<nat>, candidates: set<string>,
    scanned: nat, eligible: nat, evicted: nat, limitReached: bool)

  predicate GroupLess(a: Group, b: Group) {
    if (a.lastAccessAt == 0) != (b.lastAccessAt == 0) then b.lastAccessAt == 0
    else if a.lastAccessAt != b.lastAccessAt then a.lastAccessAt < b.lastAccessAt
    else if a.ecosystem != b.ecosystem then StringLess(a.ecosystem, b.ecosystem)
    else if a.alias != b.alias then StringLess(a.alias, b.alias)
    else StringLess(a.package, b.package)
  }

  predicate StaleGroup(cutoff: int, g: Group) {
    g.lastAccessAt != 0 && g.lastAccessAt < cutoff
  }

  function Digests(g: Group): set<string> {
    set d | d in g.digests && d != ""
  }

  // ---------------------------------------------------------------------------
  // Recent pulls

  function PullKey(p: Pull): string { p.alias + "/" + p.repository + ":" + p.reference }

  function TripleKey(k: Triple): string { k.alias + "/" + k.repository + ":" + k.name }

  /** The newest of a pull row's four times is not before the cutoff. */
  predicate PullIsRecent(c: Context, k: Triple) {
    var row := Find(c.world.meta.pulls, PullKey, TripleKey(k));
    row.Some? &&
    Latest([row.value.lastPullAt, row.value.lastUpstreamPullAt, row.value.updatedAt, row.value.createdAt]) >= c.cutoff
  }

  predicate Usable(k: Triple) { k.repository != "" && k.name != "" }

  function ScopedKey(c: Context, g: Group, alias: string, repository: string, name: string): Triple {
    Triple(c.scope(g.ecosystem, alias), repository, name)
  }

  /** The pull keys of a group, in the order they are checked. */
  function PullKeys(c: Context, g: Group): seq<Triple> {
    TagPullKeys(c, g, g.tags) + ManifestPullKeys(c, g, g.manifests)
  }

  function TagPullKeys(c: Context, g: Group, tags: seq<Tag>): seq<Triple> {
    if tags == [] then []
    else [ScopedKey(c, g, tags[0].alias, tags[0].repository, tags[0].reference)] + TagPullKeys(c, g, tags[1..])
  }

  function ManifestPullKeys(c: Context, g: Group, rows: seq<Manifest>): seq<Triple> {
    if rows == [] then []
    else
      [ScopedKey(c, g, rows[0].alias, rows[0].repository, rows[0].reference),
       ScopedKey(c, g, rows[0].alias, rows[0].repository, rows[0].digest)] + ManifestPullKeys(c, g, rows[1..])
  }

  ghost predicate HasRecentPull(c: Context, g: Group) {
    exists k :: k in PullKeys(c, g) && Usable(k) && PullIsRecent(c, k)
  }

  /** Keys known to be recent, kept from one group to the next. */
  ghost predicate TrueMemo(c: Context, recent: set<Triple>) {
    forall k :: k in recent ==> PullIsRecent(c, k)
  }

  /** The memoised check answers exactly what direct lookups would. */
  method PackageHasRecentPull(c: Context, g: Group, memo: set<Triple>) returns (recent: bool, known: set<Triple>)
    requires TrueMemo(c, memo)
    ensures recent <==> HasRecentPull(c, g)
    ensures TrueMemo(c, known) && memo <= known
  {
    var keys := PullKeys(c, g);
    var checked: set<Triple> := {};
    known := memo;
    for i := 0 to |keys|
      invariant TrueMemo(c, known) && memo <= known
      invariant forall k :: k in checked ==> !PullIsRecent(c, k)
      invariant forall j :: 0 <= j < i ==> !(Usable(keys[j]) && PullIsRecent(c, keys[j]))
    {
      var k := keys[i];
      if Usable(k) && k !in checked {
        checked := checked + {k};
        if k in known { return true, known; }
        if PullIsRecent(c, k) {
          return true, known + {k};
        }
      }
    }
    return false, known;
  }

  /** A pull row is found under its own alias, repository and reference only. */
  lemma PullKeySeparates(p: Pull, k: Triple)
    requires Plain(p.alias, p.repository, ':') && Plain(k.alias, k.repository, ':')
    ensures PullKey(p) == TripleKey(k) <==>
      p.alias == k.alias && p.repository == k.repository && p.reference == k.name
  {
    if PullKey(p) == TripleKey(k) {
      JoinedOnce(p.alias, p.repository, p.reference, k.alias, k.repository, k.name, ':');
    }
  }

  /** The pull row stored under these names was touched since the cutoff. */
  ghost predicate PulledSince(c: Context, alias: string, repository: string, reference: string, p: Pull) {
    && repository != "" && reference != ""
    && Find(c.world.meta.pulls, PullKey, alias + "/" + repository + ":" + reference) == Some(p)
    && (p.lastPullAt >= c.cutoff || p.lastUpstreamPullAt >= c.cutoff || p.updatedAt >= c.cutoff ||
        p.createdAt >= c.cutoff)
  }

  /** The row was pulled by its tag's name, its own reference or its digest. */
  ghost predicate TagPulled(c: Context, g: Group, t: Tag) {
    exists p :: PulledSince(c, c.scope(g.ecosystem, t.alias), t.repository, t.reference, p)
  }

  ghost predicate ManifestPulled(c: Context, g: Group, m: Manifest) {
    exists p :: PulledSince(c, c.scope(g.ecosystem, m.alias), m.repository, m.reference, p) ||
      PulledSince(c, c.scope(g.ecosystem, m.alias), m.repository, m.digest, p)
  }

  lemma PullRecentIff(c: Context, alias: string, repository: string, reference: string)
    ensures Usable(Triple(alias, repository, reference)) && PullIsRecent(c, Triple(alias, repository, reference)) <==>
      exists p :: PulledSince(c, alias, repository, reference, p)
  {
    var row := Find(c.world.meta.pulls, PullKey, alias + "/" + repository + ":" + reference);
    if row.Some? {
      var p := row.value;
      var times := [p.lastPullAt, p.lastUpstreamPullAt, p.updatedAt, p.createdAt];
      LatestIsNewest(times);
      assert times[0] <= Latest(times) && times[1] <= Latest(times);
      assert times[2] <= Latest(times) && times[3] <= Latest(times);
      assert Latest(times) in times;
      assert PulledSince(c, alias, repository, reference, p) <==>
        repository != "" && reference != "" && Latest(times) >= c.cutoff;
    }
  }

  ghost predicate AnyRecent(c: Context, keys: seq<Triple>) {
    exists k :: k in keys && Usable(k) && PullIsRecent(c, k)
  }

  lemma AnyRecentConcat(c: Context, a: seq<Triple>, b: seq<Triple>)
    ensures AnyRecent(c, a + b) <==> AnyRecent(c, a) || AnyRecent(c, b)
  {
    assert forall k :: k in a + b <==> k in a || k in b;
  }

  lemma OneRecent(c: Context, alias: string, repository: string, reference: string)
    ensures AnyRecent(c, [Triple(alias, repository, reference)]) <==>
      exists p :: PulledSince(c, alias, repository, reference, p)
  {
    PullRecentIff(c, alias, repository, reference);
    assert Triple(alias, repository, reference) in [Triple(alias, repository, reference)];
  }

  ghost predicate AnyTagPulled(c: Context, g: Group, tags: seq<Tag>) {
    exists t :: t in tags && TagPulled(c, g, t)
  }

  ghost predicate AnyManifestPulled(c: Context, g: Group, rows: seq<Manifest>) {
    exists m :: m in rows && ManifestPulled(c, g, m)
  }

  lemma {:induction false} TagKeysPulled(c: Context, g: Group, tags: seq<Tag>)
    ensures AnyRecent(c, TagPullKeys(c, g, tags)) <==> AnyTagPulled(c, g, tags)
  {
    if tags != [] {
      var t, rest := tags[0], tags[1..];
      TagKeysPulled(c, g, rest);
      OneRecent(c, c.scope(g.ecosystem, t.alias), t.repository, t.reference);
      AnyRecentConcat(c, [ScopedKey(c, g, t.alias, t.repository, t.reference)], TagPullKeys(c, g, rest));
      assert forall u :: u in tags <==> u == t || u in rest;
      assert AnyTagPulled(c, g, tags) <==> TagPulled(c, g, t) || AnyTagPulled(c, g, rest);
    }
  }

  lemma {:induction false} ManifestKeysPulled(c: Context, g: Group, rows: seq<Manifest>)
    ensures AnyRecent(c, ManifestPullKeys(c, g, rows)) <==> AnyManifestPulled(c, g, rows)
  {
    if rows != [] {
      var m, rest := rows[0], rows[1..];
      var byReference := ScopedKey(c, g, m.alias, m.repository, m.reference);
      var byDigest := ScopedKey(c, g, m.alias, m.repository, m.digest);
      ManifestKeysPulled(c, g, rest);
      OneRecent(c, c.scope(g.ecosystem, m.alias), m.repository, m.reference);
      OneRecent(c, c.scope(g.ecosystem, m.alias), m.repository, m.digest);
      AnyRecentConcat(c, [byReference], [byDigest]);
      assert [byReference] + [byDigest] == [byReference, byDigest];
      AnyRecentConcat(c, [byReference, byDigest], ManifestPullKeys(c, g, rest));
      assert forall q :: q in rows <==> q == m || q in rest;
      assert AnyManifestPulled(c, g, rows) <==> ManifestPulled(c, g, m) || AnyManifestPulled(c, g, rest);
    }
  }

  /** A group counts as pulled exactly when one of its tags' names, or one of its rows'
      references or digests, has a pull row touched since the cutoff. */
  lemma HasRecentPullIff(c: Context, g: Group)
    ensures HasRecentPull(c, g) <==>
      (exists t :: t in g.tags && TagPulled(c, g, t)) || (exists m :: m in g.manifests && ManifestPulled(c, g, m))
  {
    TagKeysPulled(c, g, g.tags);
    ManifestKeysPulled(c, g, g.manifests);
    AnyRecentConcat(c, TagPullKeys(c, g, g.tags), ManifestPullKeys(c, g, g.manifests));
  }

  // ---------------------------------------------------------------------------
  // Rechecks

  predicate PackageManifestUnchanged(rows: seq<Manifest>, expected: Manifest) {
    var current := Find(rows, ManifestKey, ManifestKey(expected));
    current.Some? && current.value.objectKey == expected.objectKey && current.value.updatedAt == expected.updatedAt
  }

  /** A planned blob row is as it was, or the blob is as absent as it was. */
  predicate PackageBlobUnchanged(c: Context, digest: string) {
    var expected := Find(c.inventory, BlobKey, digest);
    if expected.Some? then BlobUnchanged(c.world.meta.blobs, expected.value)
    else Find(c.world.meta.blobs, BlobKey, digest).None? && digest !in c.world.objects
  }

  ghost predicate RowsUnchanged(c: Context, g: Group) {
    && (forall t :: t in g.tags ==> TagUnchanged(c.world.meta.tags, t))
    && (forall m :: m in g.manifests ==> PackageManifestUnchanged(c.world.meta.manifests, m))
    && (forall d :: d in g.digests ==> PackageBlobUnchanged(c, d))
  }

  ghost predicate Unchanged(c: Context, g: Group) {
    RowsUnchanged(c, g) && !HasRecentPull(c, g)
  }

  method PackageUnchanged(c: Context, g: Group, memo: set<Triple>) returns (same: bool, known: set<Triple>)
    requires TrueMemo(c, memo)
    ensures same <==> Unchanged(c, g)
    ensures TrueMemo(c, known)
  {
    for i := 0 to |g.tags|
      invariant forall j :: 0 <= j < i ==> TagUnchanged(c.world.meta.tags, g.tags[j])
    {
      if !TagUnchanged(c.world.meta.tags, g.tags[i]) { return false, memo; }
    }
    for i := 0 to |g.manifests|
      invariant forall j :: 0 <= j < i ==> PackageManifestUnchanged(c.world.meta.manifests, g.manifests[j])
    {
      if !PackageManifestUnchanged(c.world.meta.manifests, g.manifests[i]) { return false, memo; }
    }
    for i := 0 to |g.digests|
      invariant forall j :: 0 <= j < i ==> PackageBlobUnchanged(c, g.digests[j])
    {
      if !PackageBlobUnchanged(c, g.digests[i]) { return false, memo; }
    }
    var recent;
    recent, known := PackageHasRecentPull(c, g, memo);
    same := !recent;
  }

  // ---------------------------------------------------------------------------
  // Budget and selection

  ghost predicate FitsBudget(g: Group, limit: int, s: Selection) {
    limit == 0 || s.evicted == 0 || |s.candidates + Digests(g)| <= limit
  }

  /** The source counts the digests it has not seen instead of forming a union. */
  method PackageFitsBudget(g: Group, limit: int, s: Selection) returns (fits: bool)
    ensures fits <==> FitsBudget(g, limit, s)
  {
    if limit == 0 || s.evicted == 0 { return true; }
    var count := |s.candidates|;
    var seen: set<string> := {};
    for i := 0 to |g.digests|
      invariant forall j :: 0 <= j < i ==> g.digests[j] == "" || g.digests[j] in s.candidates + seen
      invariant seen <= Digests(g) && seen !! s.candidates
      invariant count == |s.candidates| + |seen|
    {
      var d := g.digests[i];
      assert d in g.digests;
      if d != "" && d !in s.candidates && d !in seen {
        count := count + 1;
        seen := seen + {d};
      }
    }
    AllCounted(g, s.candidates, seen);
    return count <= limit;
  }

  lemma AllCounted(g: Group, candidates: set<string>, seen: set<string>)
    requires seen <= Digests(g) && seen !! candidates
    requires forall j :: 0 <= j < |g.digests| ==> g.digests[j] == "" || g.digests[j] in candidates + seen
    ensures |candidates + Digests(g)| == |candidates| + |seen|
  {
    forall d | d in Digests(g) ensures d in candidates + seen {
      var j :| 0 <= j < |g.digests| && g.digests[j] == d;
    }
    assert candidates + Digests(g) == candidates + seen;
    assert |candidates + seen| == |candidates| + |seen|;
  }

  ghost function SelectGroup(c: Context, limit: int, g: Group, i: nat, s: Selection): Selection {
    var scanned := s.(scanned := s.scanned + 1);
    if !StaleGroup(c.cutoff, g) then scanned
    else
      var eligible := scanned.(eligible := s.eligible + 1);
      if !FitsBudget(g, limit, eligible) then eligible.(limitReached := true)
      else if !Unchanged(c, g) then eligible
      else eligible.(evicted := s.evicted + 1, selected := s.selected + {i}, candidates := s.candidates + Digests(g))
  }

  /** Selection without the memo: groups `i..`, oldest first. */
  ghost function SelectFrom(c: Context, opts: PlanOptions, groups: seq<Group>, i: nat, s: Selection): Selection
    requires i <= |groups|
    decreases |groups| - i
  {
    if i == |groups| then s
    else if opts.maxScan > 0 && s.scanned >= opts.maxScan then s.(limitReached := true)
    else SelectFrom(c, opts, groups, i + 1, SelectGroup(c, opts.maxDeletes, groups[i], i, s))
  }

  const NOTHING_SELECTED := Selection({}, {}, 0, 0, 0, false)

  method SelectPackage(c: Context, limit: int, g: Group, i: nat, s: Selection, memo: set<Triple>)
    returns (next: Selection, known: set<Triple>)
    requires TrueMemo(c, memo)
    ensures next == SelectGroup(c, limit, g, i, s)
    ensures TrueMemo(c, known)
  {
    next, known := s.(scanned := s.scanned + 1), memo;
    if !StaleGroup(c.cutoff, g) { return; }
    next := next.(eligible := s.eligible + 1);
    var fits := PackageFitsBudget(g, limit, next);
    if !fits {
      next := next.(limitReached := true);
      return;
    }
    var same;
    same, known := PackageUnchanged(c, g, memo);
    if !same { return; }
    next := next.(evicted := s.evicted + 1, selected := s.selected + {i}, candidates := s.candidates + Digests(g));
  }

  method SelectPackages(c: Context, opts: PlanOptions, groups: seq<Group>) returns (s: Selection)
    ensures s == SelectFrom(c, opts, groups, 0, NOTHING_SELECTED)
  {
    s := NOTHING_SELECTED;
    var memo: set<Triple> := {};
    for i := 0 to |groups|
      invariant TrueMemo(c, memo)
      invariant SelectFrom(c, opts, groups, i, s) == SelectFrom(c, opts, groups, 0, NOTHING_SELECTED)
    {
      if opts.maxScan > 0 && s.scanned >= opts.maxScan {
        return s.(limitReached := true);
      }
      s, memo := SelectPackage(c, opts.maxDeletes, groups[i], i, s, memo);
    }
  }

  // ---------------------------------------------------------------------------
  // What selection guarantees

  /** Only stale groups that passed every recheck were evicted. */
  ghost predicate OnlyStale(c: Context, groups: seq<Group>, s: Selection) {
    s.evicted == |s.selected| &&
    forall i :: i in s.selected ==> i < |groups| && StaleGroup(c.cutoff, groups[i]) && Unchanged(c, groups[i])
  }

  /** The candidates are the nonempty digests of the evicted groups. */
  ghost predicate Covered(groups: seq<Group>, selected: set<nat>, candidates: set<string>) {
    && (forall i :: i in selected && i < |groups| ==> Digests(groups[i]) <= candidates)
    && (forall d :: d in candidates ==> exists i :: i in selected && i < |groups| && d in Digests(groups[i]))
  }

  /** `f` was evicted first; it alone may exceed the limit. */
  ghost predicate WithinBudget(limit: int, groups: seq<Group>, selected: set<nat>, candidates: set<string>, f: nat) {
    && f in selected && f < |groups| && (forall i :: i in selected ==> f <= i)
    && |candidates| <= Larger(limit, |Digests(groups[f])|)
  }

  ghost predicate Selected(c: Context, opts: PlanOptions, groups: seq<Group>, s: Selection) {
    && OnlyStale(c, groups, s) && Covered(groups, s.selected, s.candidates)
    && (opts.maxDeletes > 0 && s.selected != {} ==>
      exists f :: WithinBudget(opts.maxDeletes, groups, s.selected, s.candidates, f))
  }

  function Larger(a: int, b: int): int { if a > b then a else b }

  lemma SelectGroupCovers(groups: seq<Group>, i: nat, s: Selection, next: Selection)
    requires i < |groups| && Covered(groups, s.selected, s.candidates)
    requires next.selected == s.selected + {i} && next.candidates == s.candidates + Digests(groups[i])
    ensures Covered(groups, next.selected, next.candidates)
  {
    forall d | d in next.candidates ensures exists j :: j in next.selected && j < |groups| && d in Digests(groups[j]) {
      if d in s.candidates {
        var j :| j in s.selected && j < |groups| && d in Digests(groups[j]);
        assert j in next.selected;
      } else {
        assert i in next.selected;
      }
    }
  }

  lemma SelectGroupFits(limit: int, groups: seq<Group>, i: nat, s: Selection, next: Selection)
    requires i < |groups| && limit > 0 && s.evicted == |s.selected| && Covered(groups, s.selected, s.candidates)
    requires forall j :: j in s.selected ==> j < i
    requires next.selected == s.selected + {i} && next.candidates == s.candidates + Digests(groups[i])
    requires FitsBudget(groups[i], limit, s)
    requires s.selected != {} ==> exists f :: WithinBudget(limit, groups, s.selected, s.candidates, f)
    ensures exists f :: WithinBudget(limit, groups, next.selected, next.candidates, f)
  {
    if s.selected == {} {
      assert s.candidates == {};
      assert next.candidates == Digests(groups[i]);
      assert WithinBudget(limit, groups, next.selected, next.candidates, i);
    } else {
      var f :| WithinBudget(limit, groups, s.selected, s.candidates, f);
      assert WithinBudget(limit, groups, next.selected, next.candidates, f);
    }
  }

  /** `next` is `s` with group `i` evicted. */
  ghost predicate Evicts(c: Context, limit: int, g: Group, i: nat, s: Selection, next: Selection) {
    && next.selected == s.selected + {i} && next.candidates == s.candidates + Digests(g)
    && next.evicted == s.evicted + 1 && FitsBudget(g, limit, s)
    && StaleGroup(c.cutoff, g) && Unchanged(c, g)
  }

  ghost predicate EvictsNone(s: Selection, next: Selection) {
    next.selected == s.selected && next.candidates == s.candidates && next.evicted == s.evicted
  }

  lemma SelectGroupCases(c: Context, limit: int, g: Group, i: nat, s: Selection)
    ensures var next := SelectGroup(c, limit, g, i, s);
      EvictsNone(s, next) || Evicts(c, limit, g, i, s, next)
  {
  }

  lemma EvictsOnlyStale(c: Context, limit: int, groups: seq<Group>, i: nat, s: Selection, next: Selection)
    requires i < |groups| && OnlyStale(c, groups, s) && i !in s.selected
    requires Evicts(c, limit, groups[i], i, s, next)
    ensures OnlyStale(c, groups, next)
  {
  }

  lemma EvictsSound(c: Context, opts: PlanOptions, groups: seq<Group>, i: nat, s: Selection, next: Selection)
    requires i < |groups| && Selected(c, opts, groups, s) && forall j :: j in s.selected ==> j < i
    requires Evicts(c, opts.maxDeletes, groups[i], i, s, next)
    ensures Selected(c, opts, groups, next)
  {
    EvictsOnlyStale(c, opts.maxDeletes, groups, i, s, next);
    SelectGroupCovers(groups, i, s, next);
    if opts.maxDeletes > 0 {
      SelectGroupFits(opts.maxDeletes, groups, i, s, next);
    }
  }

  lemma SelectGroupSound(c: Context, opts: PlanOptions, groups: seq<Group>, i: nat, s: Selection, next: Selection)
    requires i < |groups| && Selected(c, opts, groups, s) && forall j :: j in s.selected ==> j < i
    requires EvictsNone(s, next) || Evicts(c, opts.maxDeletes, groups[i], i, s, next)
    ensures Selected(c, opts, groups, next) && forall j :: j in next.selected ==> j <= i
  {
    if !EvictsNone(s, next) {
      EvictsSound(c, opts, groups, i, s, next);
    }
  }

  lemma {:induction false} SelectFromSound(c: Context, opts: PlanOptions, groups: seq<Group>, i: nat, s: Selection)
    requires i <= |groups| && Selected(c, opts, groups, s) && forall j :: j in s.selected ==> j < i
    ensures Selected(c, opts, groups, SelectFrom(c, opts, groups, i, s))
    decreases |groups| - i
  {
    if i < |groups| && !(opts.maxScan > 0 && s.scanned >= opts.maxScan) {
      var next := SelectGroup(c, opts.maxDeletes, groups[i], i, s);
      SelectGroupCases(c, opts.maxDeletes, groups[i], i, s);
      SelectGroupSound(c, opts, groups, i, s, next);
      SelectFromSound(c, opts, groups, i + 1, next);
    }
  }

  /** Selecting the first `k` groups and then the rest is selecting them all, as
      long as the scan limit lies beyond `k`. */
  lemma {:induction false} SelectFromSplits(c: Context, opts: PlanOptions, groups: seq<Group>, i: nat, s: Selection,
                                            k: nat)
    requires i <= k <= |groups| && (opts.maxScan > 0 ==> s.scanned + (k - i) <= opts.maxScan)
    ensures SelectFrom(c, opts, groups, i, s) ==
      SelectFrom(c, opts, groups, k, SelectFrom(c, opts, groups[..k], i, s))
    ensures SelectFrom(c, opts, groups[..k], i, s).scanned == s.scanned + (k - i)
    decreases k - i
  {
    if i < k {
      assert groups[..k][i] == groups[i];
      SelectFromSplits(c, opts, groups, i + 1, SelectGroup(c, opts.maxDeletes, groups[i], i, s), k);
    }
  }

  /** Group `k` is evicted exactly when the scan limit lies beyond it, it is stale,
      it passes every recheck, and it fits beside what the groups before it took. */
  lemma SelectedIff(c: Context, opts: PlanOptions, groups: seq<Group>, k: nat)
    requires k < |groups| && opts.maxScan >= 0
    ensures k in SelectFrom(c, opts, groups, 0, NOTHING_SELECTED).selected <==>
      && (opts.maxScan > 0 ==> k < opts.maxScan)
      && 0 < groups[k].lastAccessAt < c.cutoff && Unchanged(c, groups[k])
      && var before := SelectFrom(c, opts, groups[..k], 0, NOTHING_SELECTED);
         opts.maxDeletes == 0 || before.selected == {} || |before.candidates + Digests(groups[k])| <= opts.maxDeletes
  {
    if opts.maxScan > 0 && opts.maxScan <= k {
      SelectFromSplits(c, opts, groups, 0, NOTHING_SELECTED, opts.maxScan);
      SelectFromBelow(c, opts, groups[..opts.maxScan], 0, NOTHING_SELECTED);
    } else {
      SelectFromSplits(c, opts, groups, 0, NOTHING_SELECTED, k);
      var before := SelectFrom(c, opts, groups[..k], 0, NOTHING_SELECTED);
      SelectFromSound(c, opts, groups[..k], 0, NOTHING_SELECTED);
      SelectFromBelow(c, opts, groups[..k], 0, NOTHING_SELECTED);
      SelectFromLater(c, opts, groups, k + 1, SelectGroup(c, opts.maxDeletes, groups[k], k, before), k);
    }
  }

  lemma {:induction false} SelectFromBelow(c: Context, opts: PlanOptions, groups: seq<Group>, i: nat, s: Selection)
    requires i <= |groups| && forall j :: j in s.selected ==> j < |groups|
    ensures forall j :: j in SelectFrom(c, opts, groups, i, s).selected ==> j < |groups|
    decreases |groups| - i
  {
    if i < |groups| && !(opts.maxScan > 0 && s.scanned >= opts.maxScan) {
      SelectFromBelow(c, opts, groups, i + 1, SelectGroup(c, opts.maxDeletes, groups[i], i, s));
    }
  }

  /** Later groups leave the verdict on an earlier one alone. */
  lemma {:induction false} SelectFromLater(c: Context, opts: PlanOptions, groups: seq<Group>, i: nat, s: Selection,
                                           k: nat)
    requires k < i <= |groups|
    ensures k in SelectFrom(c, opts, groups, i, s).selected <==> k in s.selected
    decreases |groups| - i
  {
    if i < |groups| && !(opts.maxScan > 0 && s.scanned >= opts.maxScan) {
      SelectFromLater(c, opts, groups, i + 1, SelectGroup(c, opts.maxDeletes, groups[i], i, s), k);
    }
  }

  /** Only a limit leaves a stale, unchanged group behind. */
  lemma LimitLeavesBehind(c: Context, opts: PlanOptions, groups: seq<Group>, k: nat)
    requires k < |groups| && opts.maxScan >= 0 && StaleGroup(c.cutoff, groups[k]) && Unchanged(c, groups[k])
    requires k !in SelectFrom(c, opts, groups, 0, NOTHING_SELECTED).selected
    ensures SelectFrom(c, opts, groups, 0, NOTHING_SELECTED).limitReached
  {
    SelectedIff(c, opts, groups, k);
    if opts.maxScan > 0 && opts.maxScan <= k {
      SelectFromSplits(c, opts, groups, 0, NOTHING_SELECTED, opts.maxScan);
    } else {
      SelectFromSplits(c, opts, groups, 0, NOTHING_SELECTED, k);
      var before := SelectFrom(c, opts, groups[..k], 0, NOTHING_SELECTED);
      SelectFromGrows(c, opts, groups, k + 1, SelectGroup(c, opts.maxDeletes, groups[k], k, before));
    }
  }

  lemma {:induction false} SelectFromGrows(c: Context, opts: PlanOptions, groups: seq<Group>, i: nat, s: Selection)
    requires i <= |groups|
    ensures var end := SelectFrom(c, opts, groups, i, s);
      s.selected <= end.selected && (s.limitReached ==> end.limitReached)
    decreases |groups| - i
  {
    if i < |groups| && !(opts.maxScan > 0 && s.scanned >= opts.maxScan) {
      SelectFromGrows(c, opts, groups, i + 1, SelectGroup(c, opts.maxDeletes, groups[i], i, s));
    }
  }

  function StaleCount(cutoff: int, groups: seq<Group>): nat {
    if groups == [] then 0
    else (if 0 < groups[0].lastAccessAt < cutoff then 1 else 0) + StaleCount(cutoff, groups[1..])
  }

  /** A run scans the groups up to the scan limit and counts the stale ones among them. */
  lemma {:induction false} SelectionCounts(c: Context, opts: PlanOptions, groups: seq<Group>, i: nat, s: Selection)
    requires opts.maxScan >= 0 && i <= |groups| && s.scanned == i && (opts.maxScan > 0 ==> i <= opts.maxScan)
    ensures var end := SelectFrom(c, opts, groups, i, s);
      var n := if opts.maxScan > 0 && opts.maxScan < |groups| then opts.maxScan else |groups|;
      end.scanned == n && end.eligible == s.eligible + StaleCount(c.cutoff, groups[i..n])
    decreases |groups| - i
  {
    var n := if opts.maxScan > 0 && opts.maxScan < |groups| then opts.maxScan else |groups|;
    if i < n {
      GroupCounts(c, opts.maxDeletes, groups[i], i, s);
      StaleCountHead(c.cutoff, groups, i, n);
      SelectionCounts(c, opts, groups, i + 1, SelectGroup(c, opts.maxDeletes, groups[i], i, s));
    } else {
      assert groups[i..n] == [];
    }
  }

  lemma GroupCounts(c: Context, limit: int, g: Group, i: nat, s: Selection)
    ensures SelectGroup(c, limit, g, i, s).scanned == s.scanned + 1
    ensures SelectGroup(c, limit, g, i, s).eligible == s.eligible + if 0 < g.lastAccessAt < c.cutoff then 1 else 0
  {
  }

  lemma StaleCountHead(cutoff: int, groups: seq<Group>, i: nat, n: nat)
    requires i < n <= |groups|
    ensures StaleCount(cutoff, groups[i..n]) ==
      (if 0 < groups[i].lastAccessAt < cutoff then 1 else 0) + StaleCount(cutoff, groups[i + 1..n])
  {
    assert groups[i..n][1..] == groups[i + 1..n];
  }

  // ---------------------------------------------------------------------------
  // Orphans

  predicate StaleOrphan(owned: set<string>, cutoff: int, b: Blob) {
    b.digest !in owned && b.lastAccessAt != 0 && b.lastAccessAt < cutoff
  }

  predicate OrphanBudgetReached(opts: PlanOptions, s: Selection) {
    || (opts.maxDeletes > 0 && |s.candidates| >= opts.maxDeletes)
    || (opts.maxScan > 0 && s.scanned >= opts.maxScan)
  }

  function AddOrphans(opts: PlanOptions, cutoff: int, owned: set<string>, blobs: seq<Blob>, s: Selection): Selection {
    if blobs == [] then s
    else if !StaleOrphan(owned, cutoff, blobs[0]) then AddOrphans(opts, cutoff, owned, blobs[1..], s)
    else if OrphanBudgetReached(opts, s) then s.(limitReached := true)
    else AddOrphans(opts, cutoff, owned, blobs[1..],
                    s.(scanned := s.scanned + 1, candidates := s.candidates + {blobs[0].digest}))
  }

  function OwnedDigests(groups: seq<Group>): set<string> {
    set g, d | g in groups && d in g.digests :: d
  }

  /** The digests of the stale orphans among some rows. */
  function OrphanDigests(owned: set<string>, cutoff: int, blobs: seq<Blob>): set<string> {
    set b | b in blobs && b.digest !in owned && 0 < b.lastAccessAt < cutoff :: b.digest
  }

  /** Every stale orphan before `k` was added and nothing else; if `k` is not the
      end, a budget was reached when the stale orphan at `k` came up. */
  ghost predicate StopsAt(opts: PlanOptions, cutoff: int, owned: set<string>, blobs: seq<Blob>, s: Selection,
                          end: Selection, k: nat)
  {
    && k <= |blobs| && end.candidates == s.candidates + OrphanDigests(owned, cutoff, blobs[..k])
    && end.selected == s.selected && end.eligible == s.eligible && end.evicted == s.evicted
    && (if k < |blobs| then
          && blobs[k].digest !in owned && 0 < blobs[k].lastAccessAt < cutoff && end.limitReached
          && ((opts.maxDeletes > 0 && |end.candidates| >= opts.maxDeletes) ||
              (opts.maxScan > 0 && end.scanned >= opts.maxScan))
        else end.limitReached == s.limitReached)
  }

  lemma OrphanDigestsHead(owned: set<string>, cutoff: int, b: Blob, rest: seq<Blob>)
    ensures OrphanDigests(owned, cutoff, [b] + rest) ==
      (if StaleOrphan(owned, cutoff, b) then {b.digest} else {}) + OrphanDigests(owned, cutoff, rest)
  {
  }

  /** `s` after the first of some rows, which no budget stopped. */
  function OrphanStep(owned: set<string>, cutoff: int, b: Blob, s: Selection): Selection {
    if StaleOrphan(owned, cutoff, b) then s.(scanned := s.scanned + 1, candidates := s.candidates + {b.digest}) else s
  }

  lemma StopShifts(opts: PlanOptions, cutoff: int, owned: set<string>, blobs: seq<Blob>, s: Selection, end: Selection,
                   j: nat)
    requires blobs != [] && StopsAt(opts, cutoff, owned, blobs[1..], OrphanStep(owned, cutoff, blobs[0], s), end, j)
    ensures StopsAt(opts, cutoff, owned, blobs, s, end, j + 1)
  {
    assert blobs[..j + 1] == [blobs[0]] + blobs[1..][..j];
    OrphanDigestsHead(owned, cutoff, blobs[0], blobs[1..][..j]);
    if j < |blobs[1..]| {
      assert blobs[1..][j] == blobs[j + 1];
    }
  }

  lemma OrphansUnroll(opts: PlanOptions, cutoff: int, owned: set<string>, blobs: seq<Blob>, s: Selection)
    ensures AddOrphans(opts, cutoff, owned, blobs, s) ==
      if blobs == [] then s
      else if StaleOrphan(owned, cutoff, blobs[0]) && OrphanBudgetReached(opts, s) then s.(limitReached := true)
      else AddOrphans(opts, cutoff, owned, blobs[1..], OrphanStep(owned, cutoff, blobs[0], s))
  {
  }

  lemma StopsHere(opts: PlanOptions, cutoff: int, owned: set<string>, blobs: seq<Blob>, s: Selection)
    requires blobs != [] ==> StaleOrphan(owned, cutoff, blobs[0]) && OrphanBudgetReached(opts, s)
    ensures StopsAt(opts, cutoff, owned, blobs, s, if blobs == [] then s else s.(limitReached := true), 0)
  {
    assert blobs[..0] == [];
  }

  lemma {:induction false} OrphansStop(opts: PlanOptions, cutoff: int, owned: set<string>, blobs: seq<Blob>,
                                       s: Selection) returns (k: nat)
    ensures StopsAt(opts, cutoff, owned, blobs, s, AddOrphans(opts, cutoff, owned, blobs, s), k)
  {
    OrphansUnroll(opts, cutoff, owned, blobs, s);
    if blobs == [] || (StaleOrphan(owned, cutoff, blobs[0]) && OrphanBudgetReached(opts, s)) {
      StopsHere(opts, cutoff, owned, blobs, s);
      return 0;
    }
    var j := OrphansStop(opts, cutoff, owned, blobs[1..], OrphanStep(owned, cutoff, blobs[0], s));
    StopShifts(opts, cutoff, owned, blobs, s, AddOrphans(opts, cutoff, owned, blobs, s), j);
    return j + 1;
  }

  /** Without budgets every stale orphan becomes a candidate. */
  lemma AllOrphansAdded(opts: PlanOptions, cutoff: int, owned: set<string>, blobs: seq<Blob>, s: Selection)
    requires opts.maxDeletes == 0 && opts.maxScan == 0
    ensures AddOrphans(opts, cutoff, owned, blobs, s).candidates == s.candidates + OrphanDigests(owned, cutoff, blobs)
  {
    var k := OrphansStop(opts, cutoff, owned, blobs, s);
    assert blobs[..|blobs|] == blobs;
  }

  method AddOrphanCandidates(opts: PlanOptions, cutoff: int, groups: seq<Group>, blobs: seq<Blob>, s0: Selection)
    returns (s: Selection)
    ensures s == AddOrphans(opts, cutoff, OwnedDigests(groups), blobs, s0)
  {
    var owned := OwnedDigests(groups);
    s := s0;
    for i := 0 to |blobs|
      invariant AddOrphans(opts, cutoff, owned, blobs[i..], s) == AddOrphans(opts, cutoff, owned, blobs, s0)
    {
      assert blobs[i..][0] == blobs[i] && blobs[i..][1..] == blobs[i + 1..];
      if StaleOrphan(owned, cutoff, blobs[i]) {
        if OrphanBudgetReached(opts, s) {
          return s.(limitReached := true);
        }
        s := s.(scanned := s.scanned + 1, candidates := s.candidates + {blobs[i].digest});
      }
    }
  }

  /** Orphans never push the candidates or the scanned rows past the larger of the limit
      and what was there before, and add only stale digests that no group owns. */
  lemma {:induction false} OrphansWithinBudget(opts: PlanOptions, cutoff: int, owned: set<string>, blobs: seq<Blob>,
                                               s: Selection)
    ensures var end := AddOrphans(opts, cutoff, owned, blobs, s);
      && s.candidates <= end.candidates && end.selected == s.selected && end.evicted == s.evicted
      && (opts.maxDeletes > 0 ==> |end.candidates| <= Larger(opts.maxDeletes, |s.candidates|))
      && (opts.maxScan > 0 ==> end.scanned <= Larger(opts.maxScan, s.scanned))
      && (forall d :: d in end.candidates && d !in s.candidates ==>
            d !in owned && exists b :: b in blobs && b.digest == d && StaleOrphan(owned, cutoff, b))
  {
    if blobs != [] {
      if !StaleOrphan(owned, cutoff, blobs[0]) {
        OrphansWithinBudget(opts, cutoff, owned, blobs[1..], s);
      } else if !OrphanBudgetReached(opts, s) {
        var next := s.(scanned := s.scanned + 1, candidates := s.candidates + {blobs[0].digest});
        OrphansWithinBudget(opts, cutoff, owned, blobs[1..], next);
        assert blobs[0] in blobs;
      }
    }
  }

  /** The whole selection: sorted groups, then orphans. */
  ghost function Choose(c: Context, opts: PlanOptions, groups: seq<Group>): Selection {
    AddOrphans(opts, c.cutoff, OwnedDigests(groups), c.inventory, SelectFrom(c, opts, groups, 0, NOTHING_SELECTED))
  }

  /** A digest that some group owns is a candidate exactly when an evicted group has it. */
  lemma OwnedCandidateIff(c: Context, opts: PlanOptions, groups: seq<Group>, d: string)
    requires d in OwnedDigests(groups) && d != ""
    ensures d in Choose(c, opts, groups).candidates <==> Evicted(groups, Choose(c, opts, groups).selected, d)
  {
    var s := SelectFrom(c, opts, groups, 0, NOTHING_SELECTED);
    SelectFromSound(c, opts, groups, 0, NOTHING_SELECTED);
    OrphansWithinBudget(opts, c.cutoff, OwnedDigests(groups), c.inventory, s);
    assert d in s.candidates <==> Evicted(groups, s.selected, d);
  }

  ghost predicate Evicted(groups: seq<Group>, selected: set<nat>, d: string) {
    exists i :: i in selected && i < |groups| && d in groups[i].digests
  }

  lemma ChosenStale(c: Context, opts: PlanOptions, groups: seq<Group>, i: nat)
    requires i in Choose(c, opts, groups).selected
    ensures i < |groups| && 0 < groups[i].lastAccessAt < c.cutoff && Unchanged(c, groups[i])
  {
    var s := SelectFrom(c, opts, groups, 0, NOTHING_SELECTED);
    SelectFromSound(c, opts, groups, 0, NOTHING_SELECTED);
    OrphansWithinBudget(opts, c.cutoff, OwnedDigests(groups), c.inventory, s);
  }

  /** A package whose tag, reference or digest was pulled since the cutoff is never
      selected, and neither is one with a row that changed since it was planned. */
  lemma PulledNotSelected(c: Context, opts: PlanOptions, groups: seq<Group>, k: nat)
    requires k < |groups|
    requires || (exists t :: t in groups[k].tags && (TagPulled(c, groups[k], t) || TagChanged(c, t)))
             || (exists m :: m in groups[k].manifests && (ManifestPulled(c, groups[k], m) || ManifestChanged(c, m)))
             || (exists d :: d in groups[k].digests && BlobChanged(c, d))
    ensures k !in Choose(c, opts, groups).selected
  {
    HasRecentPullIff(c, groups[k]);
    var s := SelectFrom(c, opts, groups, 0, NOTHING_SELECTED);
    SelectFromSound(c, opts, groups, 0, NOTHING_SELECTED);
    OrphansWithinBudget(opts, c.cutoff, OwnedDigests(groups), c.inventory, s);
  }

  /** The stored row is gone or another revision. */
  predicate TagChanged(c: Context, t: Tag) {
    var now := Find(c.world.meta.tags, TagKey, t.alias + "/" + t.repository + ":" + t.reference);
    now.None? || now.value.digest != t.digest || now.value.updatedAt != t.updatedAt
  }

  predicate ManifestChanged(c: Context, m: Manifest) {
    var now := Find(c.world.meta.manifests, ManifestKey, m.alias + "/" + m.repository + "@" + m.digest);
    now.None? || now.value.objectKey != m.objectKey || now.value.updatedAt != m.updatedAt
  }

  predicate BlobChanged(c: Context, d: string) {
    var planned, now := Find(c.inventory, BlobKey, d), Find(c.world.meta.blobs, BlobKey, d);
    if planned.None? then now.Some? || d in c.world.objects
    else
      || now.None? || now.value.size != planned.value.size || now.value.objectKey != planned.value.objectKey
      || now.value.lastAccessAt != planned.value.lastAccessAt || now.value.updatedAt != planned.value.updatedAt
  }

  /** Conversely only a pull or such a change fails the rechecks. */
  lemma UnchangedIff(c: Context, g: Group)
    ensures Unchanged(c, g) <==>
      && (forall t :: t in g.tags ==> !TagPulled(c, g, t) && !TagChanged(c, t))
      && (forall m :: m in g.manifests ==> !ManifestPulled(c, g, m) && !ManifestChanged(c, m))
      && (forall d :: d in g.digests ==> !BlobChanged(c, d))
  {
    HasRecentPullIff(c, g);
  }

  /** Final candidates number at most the larger of the limit and the first
      evicted group's distinct nonempty digests, orphans included. */
  lemma CandidateBudget(c: Context, opts: PlanOptions, groups: seq<Group>)
    requires opts.maxDeletes > 0
    ensures var end := Choose(c, opts, groups);
      || |end.candidates| <= opts.maxDeletes
      || exists f :: f in end.selected && f < |groups| && (forall i :: i in end.selected ==> f <= i) &&
           |end.candidates| <= |Digests(groups[f])|
  {
    var s := SelectFrom(c, opts, groups, 0, NOTHING_SELECTED);
    SelectFromSound(c, opts, groups, 0, NOTHING_SELECTED);
    OrphansWithinBudget(opts, c.cutoff, OwnedDigests(groups), c.inventory, s);
    if s.selected == {} {
      assert s.candidates == {};
    } else {
      var f :| WithinBudget(opts.maxDeletes, groups, s.selected, s.candidates, f);
    }
  }

  lemma GroupOrderIsStrictWeak()
    ensures StrictWeak(GroupLess)
  {
    forall x, y | GroupLess(x, y) ensures !GroupLess(y, x) {
      StringLessTotal(x.ecosystem, y.ecosystem);
      StringLessTotal(x.alias, y.alias);
      StringLessTotal(x.package, y.package);
    }
    forall x, y, z | !GroupLess(x, y) && !GroupLess(y, z) ensures !GroupLess(x, z) {
      GroupOrderTransitive(x, y, z);
    }
  }

  /** `a` may come before `b`: known times before unknown ones, the earlier first, then
      by ecosystem, alias and package name. */
  ghost predicate NotLater(a: Group, b: Group) {
    && (b.lastAccessAt != 0 ==> a.lastAccessAt != 0 && a.lastAccessAt <= b.lastAccessAt)
    && (a.lastAccessAt == b.lastAccessAt ==>
          && !(exists k: nat :: DiffersAt(b.ecosystem, a.ecosystem, k))
          && (a.ecosystem == b.ecosystem ==>
                && !(exists k: nat :: DiffersAt(b.alias, a.alias, k))
                && (a.alias == b.alias ==> !exists k: nat :: DiffersAt(b.package, a.package, k))))
  }

  lemma GroupLessMeans(a: Group, b: Group)
    ensures !GroupLess(b, a) ==> NotLater(a, b)
  {
    StringLessIff(b.ecosystem, a.ecosystem);
    StringLessIff(b.alias, a.alias);
    StringLessIff(b.package, a.package);
    StringLessTotal(a.ecosystem, b.ecosystem);
    StringLessTotal(a.alias, b.alias);
  }

  /** A planner lists its groups by alias and package name. */
  ghost predicate ByPackage(groups: seq<Group>) {
    forall i, j :: 0 <= i < j < |groups| ==> Listed(groups[i], groups[j])
  }

  ghost predicate Listed(a: Group, b: Group) {
    && !(exists k: nat :: DiffersAt(b.alias, a.alias, k))
    && (a.alias == b.alias ==> !exists k: nat :: DiffersAt(b.package, a.package, k))
  }

  predicate PackageLess(a: Group, b: Group) {
    if a.alias != b.alias then StringLess(a.alias, b.alias) else StringLess(a.package, b.package)
  }

  lemma PackageLessMeans(a: Group, b: Group)
    ensures !PackageLess(b, a) ==> Listed(a, b)
  {
    StringLessIff(b.alias, a.alias);
    StringLessIff(b.package, a.package);
    StringLessTotal(a.alias, b.alias);
  }

  lemma PackageOrderIsStrictWeak()
    ensures StrictWeak(PackageLess)
  {
    forall x, y | PackageLess(x, y) ensures !PackageLess(y, x) {
      StringLessTotal(x.alias, y.alias);
      StringLessTotal(x.package, y.package);
    }
    forall x, y, z | !PackageLess(x, y) && !PackageLess(y, z) ensures !PackageLess(x, z) {
      StringLessTotal(x.alias, y.alias);
      StringLessTotal(y.alias, z.alias);
      StringLessTotal(x.alias, z.alias);
      if !StringLess(x.alias, y.alias) && !StringLess(y.alias, z.alias) {
        StringLessTransitive(x.alias, y.alias, z.alias);
      }
      if !StringLess(x.package, y.package) && !StringLess(y.package, z.package) {
        StringLessTransitive(x.package, y.package, z.package);
      }
    }
  }

  lemma SortedByPackage(groups: seq<Group>)
    ensures ByPackage(Sort(groups, PackageLess))
  {
    PackageOrderIsStrictWeak();
    SortSorted(groups, PackageLess);
    var sorted := Sort(groups, PackageLess);
    forall i, j | 0 <= i < j < |sorted| ensures Listed(sorted[i], sorted[j]) {
      PackageLessMeans(sorted[i], sorted[j]);
    }
  }

  /** Packages are considered oldest first. */
  lemma GroupsOldestFirst(groups: seq<Group>, i: nat, j: nat)
    requires i < j < |Sort(groups, GroupLess)|
    ensures NotLater(Sort(groups, GroupLess)[i], Sort(groups, GroupLess)[j])
  {
    GroupOrderIsStrictWeak();
    SortSorted(groups, GroupLess);
    GroupLessMeans(Sort(groups, GroupLess)[i], Sort(groups, GroupLess)[j]);
  }

  lemma GroupOrderTransitive(x: Group, y: Group, z: Group)
    requires !GroupLess(x, y) && !GroupLess(y, z)
    ensures !GroupLess(x, z)
  {
    StringLessTotal(x.ecosystem, y.ecosystem);
    StringLessTotal(y.ecosystem, z.ecosystem);
    StringLessTotal(x.alias, y.alias);
    StringLessTotal(y.alias, z.alias);
    StringLessTotal(x.ecosystem, z.ecosystem);
    StringLessTotal(x.alias, z.alias);
    if !StringLess(x.ecosystem, y.ecosystem) && !StringLess(y.ecosystem, z.ecosystem) {
      StringLessTransitive(x.ecosystem, y.ecosystem, z.ecosystem);
    }
    if !StringLess(x.alias, y.alias) && !StringLess(y.alias, z.alias) {
      StringLessTransitive(x.alias, y.alias, z.alias);
    }
    if !StringLess(x.package, y.package) && !StringLess(y.package, z.package) {
      StringLessTransitive(x.package, y.package, z.package);
    }
  }
}
