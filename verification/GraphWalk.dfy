/** The bounded walk over the OCI manifest graph. */
module GraphWalk {
  import opened Records
  import opened Reachability

  const MANIFEST_READ_LIMIT := 0x40_0000

  datatype Fault =
    | Canceled          // the caller's context ended
    | LimitExceeded     // ErrCleanupSnapshotLimit
    | Unreadable        // a manifest body could not be read or parsed
    | Invalid           // rejected options or an invalid digest
    | Changed           // metadata changed under the pass
    | StoreFailed       // a store operation failed

  datatype Result<+T> = Ok(value: T) | Err(error: Fault)

  /** What decoding a manifest body yields. */
  datatype Parsed = References(refs: seq<string>) | Malformed | OverBudget | InvalidJson

  /** The media-type test and the JSON decoder, which stay uninterpreted. */
  datatype Env = Env(oci: string -> bool, parse: (string, string) -> Parsed)

  /** Manifest rows, the objects their bodies live in, the reading mode, and the
      object keys whose read the store fails during the walk. */
  datatype Graph = Graph(rows: seq<Manifest>, objects: Objects, env: Env, strict: bool, failing: set<string>)

  datatype Limits = Limits(maxRecords: nat, maxBytes: nat)

  predicate NeedsTraversal(env: Env, m: Manifest) {
    env.oci(m.mediaType) || (m.mediaType == "" && 0 < m.size <= MANIFEST_READ_LIMIT)
  }

  function BodyKey(m: Manifest): string {
    if m.objectKey != "" then m.objectKey else m.digest
  }

  function ReadManifest(objects: Objects, m: Manifest): Result<string> {
    var key := BodyKey(m);
    if key == "" then Ok("")
    else if key !in objects || |objects[key]| > MANIFEST_READ_LIMIT then Err(Unreadable)
    else Ok(objects[key])
  }

  /** The store fails the read of the row's body. */
  predicate ReadFails(g: Graph, m: Manifest) {
    NeedsTraversal(g.env, m) && BodyKey(m) != "" && BodyKey(m) in g.failing
  }

  /** The descriptors a row's body references; a lenient walk reads an unread or
      faulty body as having none, unless its JSON is invalid or over budget. */
  function Children(g: Graph, m: Manifest): Result<seq<string>> {
    if !NeedsTraversal(g.env, m) then Ok([])
    else if ReadFails(g, m) then (if g.strict then Err(StoreFailed) else Ok([]))
    else
      var body := ReadManifest(g.objects, m);
      if body.Err? then (if g.strict then Err(Unreadable) else Ok([]))
      else
        match g.env.parse(m.mediaType, body.value)
        case References(refs) => Ok(refs)
        case Malformed => if g.strict then Err(Unreadable) else Ok([])
        case OverBudget => Err(Unreadable)
        case InvalidJson => Err(Unreadable)
  }

  function ChildSet(g: Graph, m: Manifest): set<string> {
    var kids := Children(g, m);
    if kids.Ok? then (set c | c in kids.value) else {}
  }

  /** Everything that protecting a row protects. */
  function Targets(g: Graph, m: Manifest): set<string> {
    {m.digest, m.objectKey} + ChildSet(g, m) - {""}
  }

  function DigestsOf(rows: seq<Manifest>): set<string> {
    set m | m in rows :: m.digest
  }

  function EdgesOf(g: Graph): Edges {
    map d | d in DigestsOf(g.rows) ::
      set m, t | m in g.rows && m.digest == d && t in Targets(g, m) :: t
  }

  ghost function Reach(g: Graph, roots: set<string>): set<string> {
    Closure(EdgesOf(g), roots)
  }

  ghost predicate Fits(limits: Limits, s: set<string>) {
    |s| <= limits.maxRecords && TotalBytes(s) <= limits.maxBytes
  }

  ghost predicate Readable(g: Graph, digests: set<string>) {
    forall m :: m in g.rows && m.digest in digests ==> Children(g, m).Ok?
  }

  /** Some row of these digests has no children because of this fault. */
  ghost predicate Faulty(g: Graph, digests: set<string>, fault: Fault) {
    exists m :: m in g.rows && m.digest in digests && Children(g, m) == Err(fault)
  }

  lemma Charge(s: set<string>, digest: string)
    requires digest !in s
    ensures |s + {digest}| == |s| + 1
    ensures TotalBytes(s + {digest}) == TotalBytes(s) + |digest|
  {
    TotalBytesRemove(s + {digest}, digest);
    assert s + {digest} - {digest} == s;
  }

  method IndexManifestRecords(rows: seq<Manifest>) returns (index: map<string, seq<Manifest>>)
    ensures forall m :: m in rows ==> m.digest in index
    ensures forall d, m :: d in index ==> (m in index[d] <==> m in rows && m.digest == d)
  {
    index := map[];
    for i := 0 to |rows|
      invariant forall d :: d in index <==> exists m :: m in rows[..i] && m.digest == d
      invariant forall d, m :: d in index ==> (m in index[d] <==> m in rows[..i] && m.digest == d)
    {
      var m := rows[i];
      assert rows[..i + 1] == rows[..i] + [m];
      var before := if m.digest in index then index[m.digest] else [];
      index := index[m.digest := before + [m]];
    }
    assert rows[..|rows|] == rows;
  }

  lemma EdgesLink(g: Graph)
    ensures Linked(g, EdgesOf(g))
  {
  }

  /** `e` has exactly the edges that the rows' targets make. */
  ghost predicate Linked(g: Graph, e: Edges) {
    && (forall m :: m in g.rows ==> Targets(g, m) <= Succ(e, m.digest))
    && (forall d, t :: t in Succ(e, d) ==> exists m :: m in g.rows && m.digest == d && t in Targets(g, m))
  }

  class ManifestGraphWalk {
    const graph: Graph
    const limits: Limits
    ghost const edges: Edges
    ghost const reach: set<string>   // the closure the walk may not leave
    var byDigest: map<string, seq<Manifest>>
    var guarded: set<string>
    var visited: set<string>
    var queue: seq<string>
    var records: nat
    var bytes: nat

    ghost predicate Indexed()
      reads this
    {
      && (forall m :: m in graph.rows ==> m.digest in byDigest)
      && (forall d, m :: d in byDigest ==> (m in byDigest[d] <==> m in graph.rows && m.digest == d))
    }

    /** Every reserved digest is guarded, and is either visited or queued once. */
    ghost predicate Valid()
      reads this
    {
      && (forall i, j :: 0 <= i < j < |queue| ==> queue[i] != queue[j])
      && (forall d :: d in queue ==> d !in visited)
      && (forall d :: d in guarded <==> d in visited || d in queue)
      && guarded <= reach
      && records == |guarded|
      && bytes == TotalBytes(guarded)
      && Fits(limits, guarded)
    }

    /** Everything visited, except the digest being expanded, is done. */
    ghost predicate Expanded(current: set<string>)
      reads this
    {
      && (forall d :: d in visited - current ==> Succ(edges, d) <= guarded)
      && Readable(graph, visited - current)
    }

    constructor (g: Graph, l: Limits, ghost e: Edges, ghost closure: set<string>)
      ensures graph == g && limits == l && edges == e && reach == closure
      ensures Indexed() && Valid() && guarded == {} && visited == {}
    {
      graph, limits, edges, reach := g, l, e, closure;
      guarded, visited, queue, records, bytes := {}, {}, [], 0, 0;
      new;
      byDigest := IndexManifestRecords(g.rows);
    }

    /** Charges one digest to both budgets, adds it to the set and queues it. */
    method Admit(digest: string) returns (r: Result<()>)
      requires Valid() && digest !in guarded && digest in reach
      modifies this
      ensures Valid() && visited == old(visited) && byDigest == old(byDigest)
      ensures r.Ok? ==> guarded == old(guarded) + {digest} && queue == old(queue) + [digest]
      ensures r.Err? ==> guarded == old(guarded) && r.error == LimitExceeded
      ensures r.Err? ==> !Fits(limits, reach)
    {
      Charge(guarded, digest);
      if records >= limits.maxRecords || |digest| > limits.maxBytes - bytes {
        SubsetFits(guarded + {digest}, reach);
        return Err(LimitExceeded);
      }
      records, bytes := records + 1, bytes + |digest|;
      guarded, queue := guarded + {digest}, queue + [digest];
      return Ok(());
    }

    method ProtectOne(digest: string) returns (r: Result<()>)
      requires Valid() && (digest == "" || digest in reach)
      modifies this
      ensures Valid() && visited == old(visited) && byDigest == old(byDigest)
      ensures old(guarded) <= guarded
      ensures r.Ok? ==> guarded == old(guarded) + ({digest} - {""})
      ensures r.Err? ==> r.error in {Canceled, LimitExceeded}
      ensures r.Err? && r.error == LimitExceeded ==> !Fits(limits, reach)
    {
      var canceled: bool := *;
      if canceled { return Err(Canceled); }
      if digest == "" || digest in guarded { return Ok(()); }
      r := Admit(digest);
    }

    method Protect(digests: seq<string>) returns (r: Result<()>)
      requires Valid() && forall d :: d in digests ==> d == "" || d in reach
      modifies this
      ensures Valid() && visited == old(visited) && byDigest == old(byDigest)
      ensures old(guarded) <= guarded
      ensures r.Ok? ==> forall d :: d in digests ==> d == "" || d in guarded
      ensures r.Err? ==> r.error in {Canceled, LimitExceeded}
      ensures r.Err? && r.error == LimitExceeded ==> !Fits(limits, reach)
    {
      for i := 0 to |digests|
        invariant Valid() && visited == old(visited) && byDigest == old(byDigest)
        invariant old(guarded) <= guarded
        invariant forall j :: 0 <= j < i ==> digests[j] == "" || digests[j] in guarded
      {
        r := ProtectOne(digests[i]);
        if r.Err? { return; }
      }
      return Ok(());
    }

    method Pop() returns (digest: string)
      requires Valid() && queue != []
      modifies this
      ensures Valid() && visited == old(visited) + {digest} && digest !in old(visited)
      ensures guarded == old(guarded) && byDigest == old(byDigest) && digest in guarded
    {
      digest := queue[0];
      assert queue == [digest] + queue[1..];
      queue := queue[1..];
      visited := visited + {digest};
    }

    /** Protects a row, its object key and its readable children. */
    method ProtectRow(m: Manifest) returns (r: Result<()>)
      requires Valid() && Targets(graph, m) <= reach
      modifies this
      ensures Valid() && visited == old(visited) && byDigest == old(byDigest)
      ensures old(guarded) <= guarded
      ensures r.Ok? ==> Targets(graph, m) <= guarded && Children(graph, m).Ok?
      ensures r.Err? ==> r.error in {Canceled, LimitExceeded} || Children(graph, m) == Err(r.error)
      ensures r.Err? && r.error == LimitExceeded ==> !Fits(limits, reach)
    {
      r := Protect([m.digest, m.objectKey]);
      if r.Err? { return; }
      var children := Children(graph, m);
      if children.Err? { return Err(children.error); }
      assert forall c :: c in ChildSet(graph, m) <==> c in children.value;
      r := Protect(children.value);
    }

    /** Expands one visited digest: all of its rows. */
    method ProtectDigest(digest: string) returns (r: Result<()>)
      requires Indexed() && Valid() && digest in visited && Expanded({digest})
      requires Linked(graph, edges) && Succ(edges, digest) <= reach
      modifies this
      ensures Valid() && visited == old(visited) && byDigest == old(byDigest)
      ensures old(guarded) <= guarded
      ensures r.Ok? ==> Expanded({})
      ensures r.Err? ==> r.error in {Canceled, LimitExceeded} || Faulty(graph, reach, r.error)
      ensures r.Err? && r.error == LimitExceeded ==> !Fits(limits, reach)
    {
      var rows := if digest in byDigest then byDigest[digest] else [];
      for i := 0 to |rows|
        invariant Valid() && visited == old(visited) && byDigest == old(byDigest)
        invariant old(guarded) <= guarded
        invariant forall m :: m in rows[..i] ==> Targets(graph, m) <= guarded && Children(graph, m).Ok?
      {
        var m := rows[i];
        assert rows[..i + 1] == rows[..i] + [m];
        assert m in graph.rows && m.digest == digest;
        r := ProtectRow(m);
        if r.Err? { return; }
      }
      assert rows[..|rows|] == rows;
      return Ok(());
    }

    /** Reserves and queues every root, in any order. */
    method Seed(roots: set<string>) returns (r: Result<()>)
      requires Valid() && guarded == {} && visited == {} && roots <= reach
      modifies this
      ensures Valid() && visited == {} && byDigest == old(byDigest)
      ensures r.Ok? ==> guarded == roots
      ensures r.Err? ==> r.error in {Canceled, LimitExceeded}
      ensures r.Err? && r.error == LimitExceeded ==> !Fits(limits, reach)
    {
      var pending := roots;
      while pending != {}
        invariant Valid() && visited == {} && byDigest == old(byDigest)
        invariant pending <= roots && guarded == roots - pending
      {
        var canceled: bool := *;
        if canceled { return Err(Canceled); }
        var digest :| digest in pending;
        r := Admit(digest);
        if r.Err? { return; }
        pending := pending - {digest};
      }
      return Ok(());
    }

    /** Empties the queue. No digest is ever popped twice: the source's check
        of `visited` after a pop never skips anything. */
    method Drain() returns (r: Result<()>)
      requires Indexed() && Valid() && Expanded({}) && Linked(graph, edges)
      requires forall d :: d in reach ==> Succ(edges, d) <= reach
      modifies this
      ensures Valid() && old(guarded) <= guarded
      ensures r.Ok? ==> guarded == visited && Expanded({})
      ensures r.Err? ==> r.error in {Canceled, LimitExceeded} || Faulty(graph, reach, r.error)
      ensures r.Err? && r.error == LimitExceeded ==> !Fits(limits, reach)
    {
      while queue != []
        invariant Indexed() && Valid() && Expanded({}) && old(guarded) <= guarded
        decreases reach - visited
      {
        var canceled: bool := *;
        if canceled { return Err(Canceled); }
        ghost var before := visited;
        var digest := Pop();
        assert visited - {digest} == before;
        r := ProtectDigest(digest);
        if r.Err? { return; }
      }
      return Ok(());
    }
  }

  /** Walks the graph from `roots`. On success the result is exactly the least
      set containing the roots and closed under object keys and children, it
      fits both budgets and every row in it was readable. The walk reports a
      budget only when that set does not fit, and a fault of a manifest only when
      the set has a row with that fault. */
  method ProtectManifestGraph(g: Graph, limits: Limits, roots: set<string>) returns (r: Result<set<string>>)
    ensures r.Ok? ==> r.value == Reach(g, roots) && Fits(limits, Reach(g, roots)) && Readable(g, Reach(g, roots))
    ensures r.Err? ==> r.error in {Canceled, LimitExceeded} || Faulty(g, Reach(g, roots), r.error)
    ensures r.Err? && r.error == LimitExceeded ==> !Fits(limits, Reach(g, roots))
  {
    EdgesLink(g);
    ClosureIsLeast(EdgesOf(g), roots);
    r := WalkFrom(g, limits, roots, EdgesOf(g), Reach(g, roots));
    assert r.Ok? ==> Encloses(EdgesOf(g), roots, r.value);
  }

  /** The walk relative to any closed set that contains the roots. */
  method WalkFrom(g: Graph, limits: Limits, roots: set<string>, ghost edges: Edges, ghost reach: set<string>)
    returns (r: Result<set<string>>)
    requires Linked(g, edges) && Encloses(edges, roots, reach)
    ensures r.Ok? ==>
      r.value <= reach && Encloses(edges, roots, r.value) && Fits(limits, r.value) && Readable(g, r.value)
    ensures r.Err? ==> r.error in {Canceled, LimitExceeded} || Faulty(g, reach, r.error)
    ensures r.Err? && r.error == LimitExceeded ==> !Fits(limits, reach)
  {
    var walk := new ManifestGraphWalk(g, limits, edges, reach);
    var seeded := walk.Seed(roots);
    if seeded.Err? { return Err(seeded.error); }
    var drained := walk.Drain();
    if drained.Err? { return Err(drained.error); }
    return Ok(walk.guarded);
  }

  // ---------------------------------------------------------------------------
  // The protected set in terms of the store and the JSON decoder alone

  /** A row whose body the walk looks into: typed, or untyped of a known size. */
  predicate LookedInto(g: Graph, m: Manifest) {
    g.env.oci(m.mediaType) || (m.mediaType == "" && 1 <= m.size <= 4 * 1024 * 1024)
  }

  /** The body that the walk gets; a row without any key has an empty one. */
  predicate Body(g: Graph, m: Manifest, body: string) {
    var key := if m.objectKey == "" then m.digest else m.objectKey;
    if key == "" then body == ""
    else key !in g.failing && key in g.objects && g.objects[key] == body && |body| <= 4 * 1024 * 1024
  }

  ghost predicate BodyNames(g: Graph, m: Manifest, d: string) {
    LookedInto(g, m) &&
    exists body ::
      Body(g, m, body) && g.env.parse(m.mediaType, body).References? && d in g.env.parse(m.mediaType, body).refs
  }

  ghost predicate BodyFails(g: Graph, m: Manifest) {
    LookedInto(g, m) &&
    ((g.strict && forall body :: Body(g, m, body) ==> !g.env.parse(m.mediaType, body).References?) ||
     exists body :: Body(g, m, body) && g.env.parse(m.mediaType, body) in {OverBudget, InvalidJson})
  }

  /** A row's children are exactly what its body names. A strict walk fails on every
      body that it cannot read, a lenient one only on invalid or oversized JSON. */
  lemma ChildrenIff(g: Graph, m: Manifest)
    ensures forall d :: d in ChildSet(g, m) <==> BodyNames(g, m, d)
    ensures Children(g, m).Err? <==> BodyFails(g, m)
  {
    var key := BodyKey(m);
    var stored := key in g.objects && |g.objects[key]| <= MANIFEST_READ_LIMIT && key !in g.failing;
    if LookedInto(g, m) && (key == "" || stored) {
      assert Body(g, m, if key == "" then "" else g.objects[key]);
    }
  }

  /** The protected set has every root, every object key of a row in it and everything
      that such a row's body names, and it is the least such set. */
  lemma ReachIsLeast(g: Graph, roots: set<string>)
    ensures NamesClosed(g, roots, Reach(g, roots))
    ensures forall s :: NamesClosed(g, roots, s) ==> Reach(g, roots) <= s
  {
    ClosureIsLeast(EdgesOf(g), roots);
    forall m | m in g.rows && m.digest in Reach(g, roots)
      ensures (m.objectKey == "" || m.objectKey in Reach(g, roots))
      ensures forall d :: BodyNames(g, m, d) ==> d == "" || d in Reach(g, roots)
    {
      ReachHolds(g, roots, m);
    }
    forall s | NamesClosed(g, roots, s) ensures Reach(g, roots) <= s {
      NamesEnclose(g, roots, s);
    }
  }

  lemma ReachHolds(g: Graph, roots: set<string>, m: Manifest)
    requires m in g.rows && m.digest in Reach(g, roots)
    ensures m.objectKey == "" || m.objectKey in Reach(g, roots)
    ensures forall d :: BodyNames(g, m, d) ==> d == "" || d in Reach(g, roots)
  {
    EdgesLink(g);
    ClosureIsLeast(EdgesOf(g), roots);
    ChildrenIff(g, m);
    assert Targets(g, m) <= Succ(EdgesOf(g), m.digest);
  }

  lemma NamesEnclose(g: Graph, roots: set<string>, s: set<string>)
    requires NamesClosed(g, roots, s)
    ensures Encloses(EdgesOf(g), roots, s)
  {
    EdgesLink(g);
    forall x, t | x in s && t in Succ(EdgesOf(g), x) ensures t in s {
      var m :| m in g.rows && m.digest == x && t in Targets(g, m);
      ChildrenIff(g, m);
    }
  }

  ghost predicate NamesClosed(g: Graph, roots: set<string>, s: set<string>) {
    && roots <= s
    && (forall m :: m in g.rows && m.digest in s && m.objectKey != "" ==> m.objectKey in s)
    && (forall m, d :: m in g.rows && m.digest in s && BodyNames(g, m, d) && d != "" ==> d in s)
  }

  // ---------------------------------------------------------------------------
  // Reads that the store fails

  /** The same graph with a store that fails no read. */
  function Healthy(g: Graph): Graph { g.(failing := {}) }

  lemma FaultIsReal(g: Graph, m: Manifest)
    ensures Children(g, m) == Err(StoreFailed) <==> g.strict && ReadFails(g, m)
    ensures !ReadFails(g, m) ==> Children(g, m) == Children(Healthy(g), m) && Targets(g, m) == Targets(Healthy(g), m)
    ensures Targets(g, m) <= Targets(Healthy(g), m)
  {
  }

  lemma FewerFailuresEnclose(g: Graph, h: Graph, roots: set<string>, s: set<string>)
    requires h == g.(failing := h.failing) && h.failing <= g.failing && Encloses(EdgesOf(h), roots, s)
    ensures Encloses(EdgesOf(g), roots, s)
  {
    EdgesLink(g);
    EdgesLink(h);
    forall x, t | x in s && t in Succ(EdgesOf(g), x) ensures t in s {
      var m :| m in g.rows && m.digest == x && t in Targets(g, m);
      FewerFailuresReadMore(g, h, m);
      assert Targets(h, m) <= Succ(EdgesOf(h), x);
    }
  }

  lemma FewerFailuresReadMore(g: Graph, h: Graph, m: Manifest)
    requires h == g.(failing := h.failing) && h.failing <= g.failing
    ensures Targets(g, m) <= Targets(h, m)
  {
    assert ReadFails(h, m) ==> ReadFails(g, m);
  }

  /** A walk protects less the more reads fail. */
  lemma FewerFailuresProtectMore(g: Graph, failing: set<string>, roots: set<string>)
    requires failing <= g.failing
    ensures Reach(g, roots) <= Reach(g.(failing := failing), roots)
  {
    var h := g.(failing := failing);
    ClosureIsLeast(EdgesOf(h), roots);
    FewerFailuresEnclose(g, h, roots, Reach(h, roots));
    ClosureIsLeast(EdgesOf(g), roots);
  }

  /** A row with a failing read. */
  ghost predicate Unread(g: Graph, digests: set<string>, m: Manifest) {
    m in g.rows && m.digest in digests && ReadFails(g, m)
  }

  /** A strict walk turns a failed read in the closure into an error; so when it
      succeeds, its set is the one that a store without failures gives. */
  lemma StrictReadFailureIsError(g: Graph, roots: set<string>)
    requires g.strict
    ensures (exists m :: Unread(g, Reach(g, roots), m)) ==> !Readable(g, Reach(g, roots))
    ensures Readable(g, Reach(g, roots)) ==> Reach(g, roots) == Reach(Healthy(g), roots)
  {
    if Readable(g, Reach(g, roots)) {
      forall x | x in Reach(g, roots) ensures Succ(EdgesOf(g), x) == Succ(EdgesOf(Healthy(g)), x) {
        SameEdges(g, x);
      }
      ClosureAgrees(EdgesOf(g), EdgesOf(Healthy(g)), roots);
    }
  }

  lemma SameEdges(g: Graph, x: string)
    requires forall m :: m in g.rows && m.digest == x ==> !ReadFails(g, m)
    ensures Succ(EdgesOf(g), x) == Succ(EdgesOf(Healthy(g)), x)
  {
    EdgesLink(g);
    EdgesLink(Healthy(g));
    forall t ensures t in Succ(EdgesOf(g), x) <==> t in Succ(EdgesOf(Healthy(g)), x) {
      if t in Succ(EdgesOf(g), x) {
        var m :| m in g.rows && m.digest == x && t in Targets(g, m);
        FaultIsReal(g, m);
      }
      if t in Succ(EdgesOf(Healthy(g)), x) {
        var m :| m in g.rows && m.digest == x && t in Targets(Healthy(g), m);
        FaultIsReal(g, m);
      }
    }
  }

  /** A lenient walk with failed reads protects what a healthy one does if and only
      if every child of an unread body is protected by something else. */
  lemma LenientReadFailureIff(g: Graph, roots: set<string>)
    requires !g.strict
    ensures Reach(g, roots) == Reach(Healthy(g), roots) <==>
      forall m :: Unread(g, Reach(g, roots), m) ==> ChildSet(Healthy(g), m) - {""} <= Reach(g, roots)
  {
    var h, reach := Healthy(g), Reach(g, roots);
    EdgesLink(g);
    EdgesLink(h);
    ClosureIsLeast(EdgesOf(g), roots);
    ClosureIsLeast(EdgesOf(h), roots);
    FewerFailuresProtectMore(g, {}, roots);
    if forall m :: Unread(g, reach, m) ==> ChildSet(h, m) - {""} <= reach {
      forall x, t | x in reach && t in Succ(EdgesOf(h), x) ensures t in reach {
        var m :| m in h.rows && m.digest == x && t in Targets(h, m);
        FaultIsReal(g, m);
        assert Targets(g, m) <= Succ(EdgesOf(g), x);
        assert ReadFails(g, m) ==> Unread(g, reach, m);
      }
      assert Encloses(EdgesOf(h), roots, reach);
    } else {
      var m :| Unread(g, reach, m) && !(ChildSet(h, m) - {""} <= reach);
      var t :| t in ChildSet(h, m) - {""} && t !in reach;
      assert t in Targets(h, m) && Targets(h, m) <= Succ(EdgesOf(h), m.digest);
    }
  }
}
