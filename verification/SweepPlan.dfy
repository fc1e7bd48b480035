/** The physical sweep as a function of the protected set: which blobs a pass
    deletes, in which order, and what it reports. */
module SweepPlan {
  import opened Records
  import opened References
  import opened Sorting

  datatype Options = Options(
    maxDeletes: int, maxScan: int, maxBytes: int, targetBytes: int,
    dryRun: bool, candidates: Option<set<string>>)

  datatype Report = Report(
    scanned: nat, recent: nat, missingTime: nat, guarded: nat,
    eligible: nat, deletedBlobs: nat, missingObjects: nat,
    bytesBefore: int, bytesAfter: int, bytesTarget: int, bytesDeleted: int,
    capacityExceeded: bool, limitReached: bool, deletedDigests: seq<string>)

  datatype Reason = Eligible | MissingTime | Recent | InUse

  datatype Stop = Running | ByScan | ByDeletes

  datatype Swept = Swept(report: Report, stop: Stop)

  predicate ValidOptions(opts: Options) {
    && opts.maxDeletes >= 0 && opts.maxScan >= 0
    && opts.maxBytes >= 0 && opts.targetBytes >= 0
    && (opts.maxBytes > 0 ==> opts.targetBytes <= opts.maxBytes)
  }

  predicate IsCandidate(opts: Options, b: Blob) {
    opts.candidates.Some? ==> b.digest in opts.candidates.value
  }

  function Classify(mode: Mode, guarded: set<string>, b: Blob): Reason {
    if b.digest in guarded then InUse
    else if !mode.prune then
      if b.lastAccessAt == 0 then MissingTime
      else if b.lastAccessAt >= mode.cutoff then Recent
      else Eligible
    else if b.lastAccessAt == 0 && b.updatedAt == 0 && b.createdAt == 0 then MissingTime
    else if BlobRecent(mode.cutoff, b) then Recent
    else Eligible
  }

  predicate CandidateEligible(mode: Mode, r: Report, reason: Reason) {
    || reason == Eligible
    || (r.capacityExceeded && r.bytesAfter > r.bytesTarget &&
        (reason == Recent || (reason == MissingTime && !mode.prune)))
  }

  function RecordSkip(r: Report, reason: Reason): Report {
    match reason
    case Eligible => r
    case MissingTime => r.(missingTime := r.missingTime + 1)
    case Recent => r.(recent := r.recent + 1)
    case InUse => r.(guarded := r.guarded + 1)
  }

  function Remaining(a: int, b: int): int {
    if b <= 0 then a else if b >= a then 0 else a - b
  }

  /** What deleting `b` adds to a report when its object weighs `bytes`. */
  function RecordDelete(r: Report, b: Blob, bytes: int, missing: bool): Report {
    r.(deletedBlobs := r.deletedBlobs + 1,
       deletedDigests := r.deletedDigests + [b.digest],
       bytesDeleted := r.bytesDeleted + bytes,
       missingObjects := r.missingObjects + (if missing then 1 else 0),
       bytesAfter := Remaining(r.bytesAfter, b.size))
  }

  function PlanDelete(r: Report, b: Blob): Report {
    RecordDelete(r, b, if b.size > 0 then b.size else 0, false)
  }

  predicate ScanLimitReached(opts: Options, r: Report) {
    opts.maxScan > 0 && r.scanned >= opts.maxScan
  }

  predicate DeleteLimitReached(opts: Options, r: Report) {
    opts.maxDeletes > 0 && r.deletedBlobs >= opts.maxDeletes
  }

  /** An eligible candidate, already counted as scanned. */
  function VisitEligible(opts: Options, b: Blob, scanned: Report): Swept {
    if DeleteLimitReached(opts, scanned) then Swept(scanned.(limitReached := true), ByDeletes)
    else Swept(PlanDelete(scanned.(eligible := scanned.eligible + 1), b), Running)
  }

  /** One candidate. */
  function Visit(mode: Mode, opts: Options, guarded: set<string>, b: Blob, r: Report): Swept {
    if ScanLimitReached(opts, r) then Swept(r.(limitReached := true), ByScan)
    else
      var scanned := r.(scanned := r.scanned + 1);
      var reason := Classify(mode, guarded, b);
      if !CandidateEligible(mode, scanned, reason) then Swept(RecordSkip(scanned, reason), Running)
      else VisitEligible(opts, b, scanned)
  }

  /** The visit plans a deletion. */
  predicate Deletes(mode: Mode, opts: Options, guarded: set<string>, b: Blob, r: Report) {
    var scanned := r.(scanned := r.scanned + 1);
    && !ScanLimitReached(opts, r)
    && CandidateEligible(mode, scanned, Classify(mode, guarded, b))
    && !DeleteLimitReached(opts, scanned)
  }

  function SweepFrom(mode: Mode, opts: Options, guarded: set<string>, blobs: seq<Blob>, r: Report): Swept {
    if blobs == [] then Swept(r, Running)
    else if !IsCandidate(opts, blobs[0]) then SweepFrom(mode, opts, guarded, blobs[1..], r)
    else
      var step := Visit(mode, opts, guarded, blobs[0], r);
      if step.stop != Running then step
      else SweepFrom(mode, opts, guarded, blobs[1..], step.report)
  }

  function CandidateBytes(opts: Options, blobs: seq<Blob>): nat {
    if blobs == [] then 0
    else (if IsCandidate(opts, blobs[0]) && blobs[0].size > 0 then blobs[0].size else 0) +
         CandidateBytes(opts, blobs[1..])
  }

  /** The bytes add up over the candidates, and a row without a size weighs nothing. */
  lemma {:induction false} CandidateBytesAdd(opts: Options, a: seq<Blob>, b: Blob)
    ensures CandidateBytes(opts, []) == 0
    ensures CandidateBytes(opts, a + [b]) == CandidateBytes(opts, a) +
      if (opts.candidates.None? || b.digest in opts.candidates.value) && b.size > 0 then b.size else 0
  {
    if a == [] {
      assert [] + [b] == [b] && [b][1..] == [];
    } else {
      CandidateBytesAdd(opts, a[1..], b);
      assert (a + [b])[1..] == a[1..] + [b];
    }
  }

  function InitialReport(opts: Options, blobs: seq<Blob>): Report {
    var before := CandidateBytes(opts, blobs);
    Report(0, 0, 0, 0, 0, 0, 0, before, before,
           if opts.targetBytes > 0 then opts.targetBytes else opts.maxBytes,
           0, opts.maxBytes > 0 && before > opts.maxBytes, false, [])
  }

  // ---------------------------------------------------------------------------
  // Order

  /** Earlier known times first, unknown times last. */
  predicate TimeLess(a: Time, b: Time) { a != 0 && (b == 0 || a < b) }

  predicate AgeLess(a: Blob, b: Blob) {
    if a.lastAccessAt != b.lastAccessAt then TimeLess(a.lastAccessAt, b.lastAccessAt)
    else if a.size != b.size then a.size < b.size
    else StringLess(a.digest, b.digest)
  }

  predicate CapacityLess(a: Blob, b: Blob) {
    if (a.lastAccessAt == 0) != (b.lastAccessAt == 0) then a.lastAccessAt == 0
    else if a.size != b.size then a.size > b.size
    else TimeLess(a.lastAccessAt, b.lastAccessAt)
  }

  function Order(blobs: seq<Blob>, capacity: bool): (r: seq<Blob>)
    ensures forall b :: b in r <==> b in blobs
  {
    if capacity then Sort(blobs, CapacityLess) else Sort(blobs, AgeLess)
  }

  lemma AgeIsStrictWeak()
    ensures StrictWeak(AgeLess)
  {
    forall x, y | AgeLess(x, y) ensures !AgeLess(y, x) {
      StringLessTotal(x.digest, y.digest);
    }
    forall x, y, z | !AgeLess(x, y) && !AgeLess(y, z) ensures !AgeLess(x, z) {
      if !StringLess(x.digest, y.digest) && !StringLess(y.digest, z.digest) {
        StringLessTransitive(x.digest, y.digest, z.digest);
      }
    }
  }

  lemma CapacityIsStrictWeak()
    ensures StrictWeak(CapacityLess)
  {
  }

  /** The age order of distinct digests does not depend on the sort algorithm. */
  lemma AgeOrderUnique(blobs: seq<Blob>, other: seq<Blob>)
    requires UniqueKeys(blobs, BlobKey)
    requires multiset(other) == multiset(blobs) && Sorted(other, AgeLess)
    ensures Order(blobs, false) == other
  {
    AgeIsStrictWeak();
    SortSorted(blobs, AgeLess);
    var sorted := Sort(blobs, AgeLess);
    forall x, y | x in sorted && y in sorted && x != y ensures AgeLess(x, y) || AgeLess(y, x) {
      StringLessTotal(x.digest, y.digest);
      if x.digest == y.digest {
        assert BlobKey(x) == BlobKey(y);
        UniqueRow(blobs, BlobKey, x, y);
      }
    }
    SortedOrderUnique(sorted, other, AgeLess);
  }

  lemma {:induction false} OrderKeepsBytes(opts: Options, xs: seq<Blob>, x: Blob, less: (Blob, Blob) -> bool)
    ensures CandidateBytes(opts, Insert(x, xs, less)) == CandidateBytes(opts, [x]) + CandidateBytes(opts, xs)
  {
    if xs == [] || !less(xs[0], x) {
      assert ([x] + xs)[1..] == xs;
    } else {
      OrderKeepsBytes(opts, xs[1..], x, less);
      var rest := Insert(x, xs[1..], less);
      assert ([xs[0]] + rest)[1..] == rest;
    }
  }

  lemma {:induction false} SortKeepsBytes(opts: Options, xs: seq<Blob>, less: (Blob, Blob) -> bool)
    ensures CandidateBytes(opts, Sort(xs, less)) == CandidateBytes(opts, xs)
  {
    if xs != [] {
      SortKeepsBytes(opts, xs[1..], less);
      OrderKeepsBytes(opts, Sort(xs[1..], less), xs[0], less);
    }
  }

  // ---------------------------------------------------------------------------
  // Accounting

  /** Counters that agree at every loop head; `refused` counts the candidate
      that a reached delete limit turned away. */
  predicate Balanced(r: Report, refused: nat) {
    && r.deletedBlobs == r.eligible == |r.deletedDigests|
    && r.scanned == r.recent + r.missingTime + r.guarded + r.eligible + refused
    && r.bytesAfter + r.bytesDeleted == r.bytesBefore
  }

  /** Starting balanced, a sweep ends balanced; `scanned` is one more exactly
      when the delete limit stopped it, and no subtraction was ever clamped. */
  lemma {:induction false} SweepBalances(mode: Mode, opts: Options, guarded: set<string>, blobs: seq<Blob>, r: Report)
    requires Balanced(r, 0) && CandidateBytes(opts, blobs) <= r.bytesAfter && !r.limitReached
    ensures var end := SweepFrom(mode, opts, guarded, blobs, r);
      && Balanced(end.report, if end.stop == ByDeletes then 1 else 0)
      && (end.report.limitReached <==> end.stop != Running)
      && 0 <= end.report.bytesAfter <= r.bytesAfter
      && end.report.bytesBefore == r.bytesBefore
  {
    if blobs != [] {
      if !IsCandidate(opts, blobs[0]) {
        SweepBalances(mode, opts, guarded, blobs[1..], r);
      } else {
        var step := Visit(mode, opts, guarded, blobs[0], r);
        if step.stop == Running {
          SweepBalances(mode, opts, guarded, blobs[1..], step.report);
        }
      }
    }
  }

  /** The whole sweep of a snapshot's blobs. */
  function SweepAll(mode: Mode, opts: Options, guarded: set<string>, blobs: seq<Blob>): Swept {
    var start := InitialReport(opts, blobs);
    SweepFrom(mode, opts, guarded, Order(blobs, start.capacityExceeded), start)
  }

  lemma SweepAccounting(mode: Mode, opts: Options, guarded: set<string>, blobs: seq<Blob>)
    ensures var end := SweepAll(mode, opts, guarded, blobs);
      var r := end.report;
      && r.deletedBlobs == r.eligible == |r.deletedDigests|
      && r.scanned == r.recent + r.missingTime + r.guarded + r.eligible + (if end.stop == ByDeletes then 1 else 0)
      && r.bytesAfter + r.bytesDeleted == r.bytesBefore == CandidateBytes(opts, blobs)
      && r.bytesAfter >= 0
      && (r.limitReached <==> end.stop != Running)
  {
    var start := InitialReport(opts, blobs);
    SortKeepsBytes(opts, blobs, CapacityLess);
    SortKeepsBytes(opts, blobs, AgeLess);
    SweepBalances(mode, opts, guarded, Order(blobs, start.capacityExceeded), start);
  }

  /** `end` extends `start`'s deletions, and every new one was an unprotected candidate. */
  lemma {:induction false} SweepDeletesCandidates(mode: Mode, opts: Options, guarded: set<string>, blobs: seq<Blob>,
                                                  r: Report)
    ensures var end := SweepFrom(mode, opts, guarded, blobs, r).report;
      && r.deletedDigests <= end.deletedDigests
      && end.capacityExceeded == r.capacityExceeded && end.bytesTarget == r.bytesTarget
    ensures var end := SweepFrom(mode, opts, guarded, blobs, r).report;
      forall d :: d in end.deletedDigests ==>
        (d in r.deletedDigests ||
         exists b :: b in blobs && b.digest == d && IsCandidate(opts, b) && d !in guarded)
  {
    if blobs != [] {
      if !IsCandidate(opts, blobs[0]) {
        SweepDeletesCandidates(mode, opts, guarded, blobs[1..], r);
      } else {
        var step := Visit(mode, opts, guarded, blobs[0], r);
        if step.stop == Running {
          SweepDeletesCandidates(mode, opts, guarded, blobs[1..], step.report);
        }
      }
    }
  }

  /** A sweep over capacity that no limit stopped ends at or below its target, or
      has deleted every unprotected candidate. */
  lemma {:induction false} SweepMeetsTarget(mode: Mode, opts: Options, guarded: set<string>, blobs: seq<Blob>,
                                            r: Report)
    requires !mode.prune && r.capacityExceeded && 0 <= CandidateBytes(opts, blobs) <= r.bytesAfter
    requires Balanced(r, 0) && !r.limitReached
    requires SweepFrom(mode, opts, guarded, blobs, r).stop == Running
    ensures var end := SweepFrom(mode, opts, guarded, blobs, r).report;
      end.bytesAfter <= end.bytesTarget ||
      forall b :: b in blobs && IsCandidate(opts, b) && b.digest !in guarded ==> b.digest in end.deletedDigests
  {
    if blobs != [] {
      assert blobs == [blobs[0]] + blobs[1..];
      if !IsCandidate(opts, blobs[0]) {
        SweepMeetsTarget(mode, opts, guarded, blobs[1..], r);
      } else {
        var step := Visit(mode, opts, guarded, blobs[0], r);
        var end := SweepFrom(mode, opts, guarded, blobs[1..], step.report);
        SweepMeetsTarget(mode, opts, guarded, blobs[1..], step.report);
        SweepDeletesCandidates(mode, opts, guarded, blobs[1..], step.report);
        SweepBalances(mode, opts, guarded, blobs[1..], step.report);
        if blobs[0].digest !in guarded && end.report.bytesAfter > end.report.bytesTarget {
          assert blobs[0].digest in step.report.deletedDigests;
        }
      }
    }
  }

  lemma CapacitySweepMeetsTarget(mode: Mode, opts: Options, guarded: set<string>, blobs: seq<Blob>)
    requires !mode.prune && opts.maxBytes > 0 && CandidateBytes(opts, blobs) > opts.maxBytes
    requires SweepAll(mode, opts, guarded, blobs).stop == Running
    ensures var end := SweepAll(mode, opts, guarded, blobs).report;
      end.bytesAfter <= (if opts.targetBytes > 0 then opts.targetBytes else opts.maxBytes) ||
      forall b :: b in blobs && IsCandidate(opts, b) && b.digest !in guarded ==> b.digest in end.deletedDigests
  {
    var start := InitialReport(opts, blobs);
    SortKeepsBytes(opts, blobs, CapacityLess);
    SweepDeletesCandidates(mode, opts, guarded, Order(blobs, true), start);
    SweepMeetsTarget(mode, opts, guarded, Order(blobs, true), start);
  }

  /** Without limits or capacity pressure a sweep deletes exactly the stale,
      unprotected candidates. */
  lemma {:induction false} SweepDeletesExactly(mode: Mode, opts: Options, guarded: set<string>, blobs: seq<Blob>,
                                               r: Report)
    requires opts.maxScan == 0 && opts.maxDeletes == 0 && !r.capacityExceeded
    ensures SweepFrom(mode, opts, guarded, blobs, r).stop == Running
    ensures forall d :: d in SweepFrom(mode, opts, guarded, blobs, r).report.deletedDigests <==>
      (d in r.deletedDigests ||
       exists b :: b in blobs && b.digest == d && IsCandidate(opts, b) && Classify(mode, guarded, b) == Eligible)
  {
    if blobs != [] {
      assert forall b :: b in blobs <==> b == blobs[0] || b in blobs[1..];
      if !IsCandidate(opts, blobs[0]) {
        SweepDeletesExactly(mode, opts, guarded, blobs[1..], r);
      } else {
        SweepDeletesExactly(mode, opts, guarded, blobs[1..], Visit(mode, opts, guarded, blobs[0], r).report);
      }
    }
  }

  /** `a` may go before `b` by age: known times before unknown ones, the earlier first,
      then the smaller, then the smaller digest. */
  ghost predicate NotYounger(a: Blob, b: Blob) {
    && (b.lastAccessAt != 0 ==> a.lastAccessAt != 0 && a.lastAccessAt <= b.lastAccessAt)
    && (a.lastAccessAt == b.lastAccessAt ==> a.size <= b.size)
    && (a.lastAccessAt == b.lastAccessAt && a.size == b.size ==> !exists k: nat :: DiffersAt(b.digest, a.digest, k))
  }

  /** `a` may go before `b` over capacity: unknown times before known ones, then the
      larger first, then the earlier. */
  ghost predicate NotMoreUseful(a: Blob, b: Blob) {
    && (b.lastAccessAt == 0 ==> a.lastAccessAt == 0)
    && ((a.lastAccessAt == 0 <==> b.lastAccessAt == 0) ==> a.size >= b.size)
    && (a.lastAccessAt != 0 && b.lastAccessAt != 0 && a.size == b.size ==> a.lastAccessAt <= b.lastAccessAt)
  }

  lemma AgeLessMeans(a: Blob, b: Blob)
    ensures !AgeLess(b, a) ==> NotYounger(a, b)
  {
    StringLessIff(b.digest, a.digest);
  }

  lemma CapacityLessMeans(a: Blob, b: Blob)
    ensures !CapacityLess(b, a) ==> NotMoreUseful(a, b)
  {
  }

  /** Both orders list the blobs as they promise. */
  lemma OrderIsSorted(blobs: seq<Blob>)
    ensures Sorted(Order(blobs, false), AgeLess)
    ensures Sorted(Order(blobs, true), CapacityLess)
    ensures forall i, j :: 0 <= i < j < |Order(blobs, false)| ==>
      NotYounger(Order(blobs, false)[i], Order(blobs, false)[j])
    ensures forall i, j :: 0 <= i < j < |Order(blobs, true)| ==>
      NotMoreUseful(Order(blobs, true)[i], Order(blobs, true)[j])
  {
    AgeIsStrictWeak();
    CapacityIsStrictWeak();
    SortSorted(blobs, AgeLess);
    SortSorted(blobs, CapacityLess);
    forall i, j | 0 <= i < j < |Order(blobs, false)|
      ensures NotYounger(Order(blobs, false)[i], Order(blobs, false)[j])
    {
      AgeLessMeans(Order(blobs, false)[i], Order(blobs, false)[j]);
    }
    forall i, j | 0 <= i < j < |Order(blobs, true)|
      ensures NotMoreUseful(Order(blobs, true)[i], Order(blobs, true)[j])
    {
      CapacityLessMeans(Order(blobs, true)[i], Order(blobs, true)[j]);
    }
  }

  predicate Stale(mode: Mode, opts: Options, guarded: set<string>, b: Blob) {
    IsCandidate(opts, b) && Classify(mode, guarded, b) == Eligible
  }

  /** A sweep never passes over a stale candidate and deletes a later one. */
  lemma {:induction false} SweepDeletesInOrder(mode: Mode, opts: Options, guarded: set<string>, blobs: seq<Blob>,
                                               r: Report, i: nat, j: nat)
    requires i < j < |blobs| && UniqueKeys(blobs, BlobKey)
    requires Stale(mode, opts, guarded, blobs[i])
    requires blobs[j].digest !in r.deletedDigests
    requires blobs[j].digest in SweepFrom(mode, opts, guarded, blobs, r).report.deletedDigests
    ensures blobs[i].digest in SweepFrom(mode, opts, guarded, blobs, r).report.deletedDigests
  {
    var tail := blobs[1..];
    assert forall x, y :: 0 <= x < y < |tail| ==> tail[x] == blobs[x + 1] && tail[y] == blobs[y + 1];
    var next := if IsCandidate(opts, blobs[0]) then Visit(mode, opts, guarded, blobs[0], r).report else r;
    if i == 0 {
      SweepDeletesCandidates(mode, opts, guarded, tail, next);
      assert next.deletedDigests == r.deletedDigests + [blobs[0].digest];
      assert blobs[0].digest in next.deletedDigests;
    } else {
      assert BlobKey(blobs[0]) != BlobKey(blobs[j]);
      SweepDeletesInOrder(mode, opts, guarded, tail, next, i - 1, j - 1);
    }
  }

  /** Whatever limit stops it, a sweep that is not over capacity takes the least
      recently used stale blobs first. */
  lemma SweepTakesOldest(mode: Mode, opts: Options, guarded: set<string>, blobs: seq<Blob>, kept: Blob, gone: Blob)
    requires UniqueKeys(blobs, BlobKey) && kept in blobs && gone in blobs
    requires !InitialReport(opts, blobs).capacityExceeded
    requires Stale(mode, opts, guarded, kept)
    requires kept.digest !in SweepAll(mode, opts, guarded, blobs).report.deletedDigests
    requires gone.digest in SweepAll(mode, opts, guarded, blobs).report.deletedDigests
    ensures NotYounger(gone, kept)
  {
    var ordered := Order(blobs, false);
    OrderIsSorted(blobs);
    SortUnique(blobs, AgeLess, BlobKey);
    var i :| 0 <= i < |ordered| && ordered[i] == kept;
    var j :| 0 <= j < |ordered| && ordered[j] == gone;
    if i < j {
      SweepDeletesInOrder(mode, opts, guarded, ordered, InitialReport(opts, blobs), i, j);
    }
  }

  // ---------------------------------------------------------------------------
  // Over capacity

  lemma TailUnique(blobs: seq<Blob>)
    requires blobs != [] && UniqueKeys(blobs, BlobKey)
    ensures UniqueKeys(blobs[1..], BlobKey) && forall b :: b in blobs[1..] ==> b.digest != blobs[0].digest
  {
    var tail := blobs[1..];
    assert forall x, y :: 0 <= x < y < |tail| ==> tail[x] == blobs[x + 1] && tail[y] == blobs[y + 1];
    forall b | b in tail ensures b.digest != blobs[0].digest {
      var n :| 0 <= n < |tail| && tail[n] == b;
      assert BlobKey(blobs[n + 1]) != BlobKey(blobs[0]);
    }
  }

  /** What a sweep that visits `b` carries on with. */
  function Passed(mode: Mode, opts: Options, guarded: set<string>, b: Blob, r: Report): Report {
    if IsCandidate(opts, b) then Visit(mode, opts, guarded, b, r).report else r
  }

  /** A sweep stops at its first blob without deleting it, or passes it. */
  lemma SweepHead(mode: Mode, opts: Options, guarded: set<string>, blobs: seq<Blob>, r: Report)
    requires blobs != []
    ensures var end := SweepFrom(mode, opts, guarded, blobs, r); var b := blobs[0];
      || end.report.deletedDigests == r.deletedDigests
      || end == SweepFrom(mode, opts, guarded, blobs[1..], Passed(mode, opts, guarded, b, r))
    ensures var next := Passed(mode, opts, guarded, blobs[0], r);
      next.deletedDigests == if IsCandidate(opts, blobs[0]) && Deletes(mode, opts, guarded, blobs[0], r)
        then r.deletedDigests + [blobs[0].digest] else r.deletedDigests
  {
  }

  lemma TailKeeps(mode: Mode, opts: Options, guarded: set<string>, blobs: seq<Blob>, r: Report)
    requires blobs != [] && UniqueKeys(blobs, BlobKey) && blobs[0].digest !in r.deletedDigests
    ensures blobs[0].digest !in SweepFrom(mode, opts, guarded, blobs[1..], r).report.deletedDigests
  {
    TailUnique(blobs);
    SweepDeletesCandidates(mode, opts, guarded, blobs[1..], r);
  }

  /** Once the target is met, or without pressure, only stale blobs go. */
  predicate NoPressure(r: Report) {
    r.bytesAfter >= 0 && !(r.capacityExceeded && r.bytesAfter > r.bytesTarget)
  }

  lemma {:induction false} OnlyStaleLater(mode: Mode, opts: Options, guarded: set<string>, blobs: seq<Blob>, r: Report,
                                          j: nat)
    requires !mode.prune && j < |blobs| && UniqueKeys(blobs, BlobKey) && NoPressure(r)
    requires !Stale(mode, opts, guarded, blobs[j]) && blobs[j].digest !in r.deletedDigests
    ensures blobs[j].digest !in SweepFrom(mode, opts, guarded, blobs, r).report.deletedDigests
  {
    var next := Passed(mode, opts, guarded, blobs[0], r);
    TailUnique(blobs);
    SweepHead(mode, opts, guarded, blobs, r);
    if j == 0 {
      TailKeeps(mode, opts, guarded, blobs, next);
    } else {
      assert blobs[1..][j - 1] == blobs[j];
      OnlyStaleLater(mode, opts, guarded, blobs[1..], next, j - 1);
    }
  }

  /** An unprotected candidate that a sweep passed over ended the pressure or met a
      limit; so no later blob goes that is not stale. */
  lemma {:induction false} EvictsInOrder(mode: Mode, opts: Options, guarded: set<string>, blobs: seq<Blob>, r: Report,
                                         i: nat, j: nat)
    requires !mode.prune && i < j < |blobs| && UniqueKeys(blobs, BlobKey) && r.bytesAfter >= 0
    requires IsCandidate(opts, blobs[i]) && blobs[i].digest !in guarded && !Stale(mode, opts, guarded, blobs[j])
    requires blobs[j].digest !in r.deletedDigests
    requires blobs[j].digest in SweepFrom(mode, opts, guarded, blobs, r).report.deletedDigests
    ensures blobs[i].digest in SweepFrom(mode, opts, guarded, blobs, r).report.deletedDigests
  {
    var next := Passed(mode, opts, guarded, blobs[0], r);
    TailUnique(blobs);
    SweepHead(mode, opts, guarded, blobs, r);
    assert blobs[1..][j - 1] == blobs[j];
    if i == 0 {
      HeadEvicted(mode, opts, guarded, blobs, r, j);
    } else {
      assert blobs[1..][i - 1] == blobs[i];
      EvictsInOrder(mode, opts, guarded, blobs[1..], next, i - 1, j - 1);
    }
  }

  lemma HeadEvicted(mode: Mode, opts: Options, guarded: set<string>, blobs: seq<Blob>, r: Report, j: nat)
    requires !mode.prune && 0 < j < |blobs| && UniqueKeys(blobs, BlobKey) && r.bytesAfter >= 0
    requires IsCandidate(opts, blobs[0]) && blobs[0].digest !in guarded && !Stale(mode, opts, guarded, blobs[j])
    requires blobs[j].digest !in r.deletedDigests
    requires blobs[j].digest in SweepFrom(mode, opts, guarded, blobs, r).report.deletedDigests
    ensures blobs[0].digest in SweepFrom(mode, opts, guarded, blobs, r).report.deletedDigests
  {
    var next := Passed(mode, opts, guarded, blobs[0], r);
    TailUnique(blobs);
    SweepHead(mode, opts, guarded, blobs, r);
    assert blobs[1..][j - 1] == blobs[j];
    SweepDeletesCandidates(mode, opts, guarded, blobs[1..], next);
    if blobs[0].digest !in next.deletedDigests {
      PassedOverEnds(mode, opts, guarded, blobs[0], r);
      OnlyStaleLater(mode, opts, guarded, blobs[1..], next, j - 1);
    }
  }

  /** A visit that leaves an unprotected candidate in place met a limit or no pressure. */
  lemma PassedOverEnds(mode: Mode, opts: Options, guarded: set<string>, b: Blob, r: Report)
    requires !mode.prune && r.bytesAfter >= 0 && IsCandidate(opts, b) && b.digest !in guarded
    requires !Deletes(mode, opts, guarded, b, r)
    ensures ScanLimitReached(opts, r) || DeleteLimitReached(opts, r) || NoPressure(Passed(mode, opts, guarded, b, r))
  {
  }

  /** Over capacity, a blob that went although it was not stale is never more useful
      than an unprotected candidate that stayed. */
  lemma CapacityTakesLeastUseful(mode: Mode, opts: Options, guarded: set<string>, blobs: seq<Blob>, kept: Blob,
                                 gone: Blob)
    requires !mode.prune && UniqueKeys(blobs, BlobKey) && kept in blobs && gone in blobs
    requires InitialReport(opts, blobs).capacityExceeded
    requires IsCandidate(opts, kept) && kept.digest !in guarded && !Stale(mode, opts, guarded, gone)
    requires kept.digest !in SweepAll(mode, opts, guarded, blobs).report.deletedDigests
    requires gone.digest in SweepAll(mode, opts, guarded, blobs).report.deletedDigests
    ensures NotMoreUseful(gone, kept)
  {
    var ordered := Order(blobs, true);
    OrderIsSorted(blobs);
    SortUnique(blobs, CapacityLess, BlobKey);
    var i :| 0 <= i < |ordered| && ordered[i] == kept;
    var j :| 0 <= j < |ordered| && ordered[j] == gone;
    if i < j {
      EvictsInOrder(mode, opts, guarded, ordered, InitialReport(opts, blobs), i, j);
    }
  }

  /** A sweep that reaches the `k`-th blob carries on from what it did before it. */
  lemma {:induction false} SweepSplits(mode: Mode, opts: Options, guarded: set<string>, blobs: seq<Blob>, r: Report,
                                       k: nat)
    requires k < |blobs| && UniqueKeys(blobs, BlobKey) && blobs[k].digest !in r.deletedDigests
    requires blobs[k].digest in SweepFrom(mode, opts, guarded, blobs, r).report.deletedDigests
    ensures var before := SweepFrom(mode, opts, guarded, blobs[..k], r);
      && before.stop == Running && before.report.bytesTarget == r.bytesTarget
      && before.report.capacityExceeded == r.capacityExceeded
      && IsCandidate(opts, blobs[k]) && Deletes(mode, opts, guarded, blobs[k], before.report)
  {
    var next := Passed(mode, opts, guarded, blobs[0], r);
    TailUnique(blobs);
    SweepHead(mode, opts, guarded, blobs, r);
    if k == 0 {
      assert blobs[..0] == [];
      if next.deletedDigests == r.deletedDigests {
        TailKeeps(mode, opts, guarded, blobs, next);
      }
    } else {
      assert blobs[1..][k - 1] == blobs[k];
      assert blobs[..k][0] == blobs[0] && blobs[..k][1..] == blobs[1..][..k - 1];
      SweepSplits(mode, opts, guarded, blobs[1..], next, k - 1);
    }
  }

  /** A blob that is not stale goes only while the sweep is over capacity and still
      above its target. */
  lemma EvictionNeeded(mode: Mode, opts: Options, guarded: set<string>, blobs: seq<Blob>, gone: Blob)
    requires UniqueKeys(blobs, BlobKey) && gone in blobs && !Stale(mode, opts, guarded, gone)
    requires gone.digest in SweepAll(mode, opts, guarded, blobs).report.deletedDigests
    ensures opts.maxBytes > 0 && CandidateBytes(opts, blobs) > opts.maxBytes
    ensures var ordered := Order(blobs, true); var start := InitialReport(opts, blobs);
      exists k :: 0 <= k < |ordered| && ordered[k] == gone &&
        SweepFrom(mode, opts, guarded, ordered[..k], start).report.bytesAfter >
          (if opts.targetBytes > 0 then opts.targetBytes else opts.maxBytes)
  {
    var start := InitialReport(opts, blobs);
    var ordered := Order(blobs, start.capacityExceeded);
    SortUnique(blobs, CapacityLess, BlobKey);
    SortUnique(blobs, AgeLess, BlobKey);
    var k :| 0 <= k < |ordered| && ordered[k] == gone;
    SweepSplits(mode, opts, guarded, ordered, start, k);
  }

  // ---------------------------------------------------------------------------
  // Limits and counters

  /** No limit is ever passed, and a sweep stops only at one. */
  lemma {:induction false} SweepWithinLimits(mode: Mode, opts: Options, guarded: set<string>, blobs: seq<Blob>,
                                             r: Report)
    requires opts.maxDeletes > 0 ==> r.deletedBlobs <= opts.maxDeletes
    requires opts.maxScan > 0 ==> r.scanned <= opts.maxScan
    ensures var end := SweepFrom(mode, opts, guarded, blobs, r);
      && (opts.maxDeletes > 0 ==> end.report.deletedBlobs <= opts.maxDeletes)
      && (opts.maxScan > 0 ==> end.report.scanned <= opts.maxScan)
      && (end.stop == ByDeletes ==> opts.maxDeletes > 0 && end.report.deletedBlobs == opts.maxDeletes)
      && (end.stop == ByScan ==> opts.maxScan > 0 && end.report.scanned == opts.maxScan)
  {
    if blobs != [] {
      if !IsCandidate(opts, blobs[0]) {
        SweepWithinLimits(mode, opts, guarded, blobs[1..], r);
      } else {
        var step := Visit(mode, opts, guarded, blobs[0], r);
        if step.stop == Running {
          SweepWithinLimits(mode, opts, guarded, blobs[1..], step.report);
        }
      }
    }
  }

  /** What the four reasons mean: the source's tests, in times. */
  lemma ClassifyIff(mode: Mode, guarded: set<string>, b: Blob)
    ensures Classify(mode, guarded, b) == InUse <==> b.digest in guarded
    ensures !mode.prune && b.digest !in guarded ==>
      && (Classify(mode, guarded, b) == MissingTime <==> b.lastAccessAt == 0)
      && (Classify(mode, guarded, b) == Recent <==> b.lastAccessAt != 0 && b.lastAccessAt >= mode.cutoff)
      && (Classify(mode, guarded, b) == Eligible <==> 0 < b.lastAccessAt < mode.cutoff)
    ensures mode.prune && b.digest !in guarded ==>
      && (Classify(mode, guarded, b) == MissingTime <==> b.lastAccessAt == b.updatedAt == b.createdAt == 0)
      && (Classify(mode, guarded, b) == Eligible <==>
            && (b.lastAccessAt != 0 || b.updatedAt != 0 || b.createdAt != 0)
            && b.lastAccessAt < mode.cutoff && b.updatedAt < mode.cutoff && b.createdAt < mode.cutoff)
  {
    var times := [b.lastAccessAt, b.updatedAt, b.createdAt];
    TimesIff(mode.cutoff, times);
    assert times[0] in times && times[1] in times && times[2] in times;
  }

  /** How many candidates a reason holds of. */
  /** A stale blob, in times: a candidate outside the protected set that was last used
      before the cutoff; a pruning pass counts every known time as a use. */
  lemma StaleIff(mode: Mode, opts: Options, guarded: set<string>, b: Blob)
    ensures Stale(mode, opts, guarded, b) <==>
      && (opts.candidates.None? || b.digest in opts.candidates.value) && b.digest !in guarded
      && b.lastAccessAt < mode.cutoff && (mode.prune ==> b.updatedAt < mode.cutoff && b.createdAt < mode.cutoff)
      && (b.lastAccessAt != 0 || (mode.prune && (b.updatedAt != 0 || b.createdAt != 0)))
  {
    ClassifyIff(mode, guarded, b);
  }

  function Count(mode: Mode, opts: Options, guarded: set<string>, blobs: seq<Blob>, reason: Reason): nat {
    if blobs == [] then 0
    else (if IsCandidate(opts, blobs[0]) && Classify(mode, guarded, blobs[0]) == reason then 1 else 0) +
         Count(mode, opts, guarded, blobs[1..], reason)
  }

  lemma {:induction false} CountInsert(mode: Mode, opts: Options, guarded: set<string>, xs: seq<Blob>, x: Blob,
                                       less: (Blob, Blob) -> bool, reason: Reason)
    ensures Count(mode, opts, guarded, Insert(x, xs, less), reason) ==
      Count(mode, opts, guarded, [x], reason) + Count(mode, opts, guarded, xs, reason)
  {
    if xs == [] || !less(xs[0], x) {
      assert ([x] + xs)[1..] == xs;
    } else {
      CountInsert(mode, opts, guarded, xs[1..], x, less, reason);
      var rest := Insert(x, xs[1..], less);
      assert ([xs[0]] + rest)[1..] == rest;
    }
  }

  lemma {:induction false} CountSort(mode: Mode, opts: Options, guarded: set<string>, xs: seq<Blob>,
                                     less: (Blob, Blob) -> bool, reason: Reason)
    ensures Count(mode, opts, guarded, Sort(xs, less), reason) == Count(mode, opts, guarded, xs, reason)
  {
    if xs != [] {
      CountSort(mode, opts, guarded, xs[1..], less, reason);
      CountInsert(mode, opts, guarded, Sort(xs[1..], less), xs[0], less, reason);
    }
  }

  lemma {:induction false} CountersFrom(mode: Mode, opts: Options, guarded: set<string>, blobs: seq<Blob>, r: Report)
    requires opts.maxScan == 0 && opts.maxDeletes == 0 && !r.capacityExceeded
    ensures var end := SweepFrom(mode, opts, guarded, blobs, r).report;
      && end.recent == r.recent + Count(mode, opts, guarded, blobs, Recent)
      && end.missingTime == r.missingTime + Count(mode, opts, guarded, blobs, MissingTime)
      && end.guarded == r.guarded + Count(mode, opts, guarded, blobs, InUse)
      && end.eligible == r.eligible + Count(mode, opts, guarded, blobs, Eligible)
  {
    if blobs != [] {
      var next := if IsCandidate(opts, blobs[0]) then Visit(mode, opts, guarded, blobs[0], r).report else r;
      CountersFrom(mode, opts, guarded, blobs[1..], next);
    }
  }

  /** Without limits and capacity pressure each counter counts the candidates of its
      reason. */
  lemma SweepCounts(mode: Mode, opts: Options, guarded: set<string>, blobs: seq<Blob>)
    requires opts.maxScan == 0 && opts.maxDeletes == 0 && !InitialReport(opts, blobs).capacityExceeded
    ensures var end := SweepAll(mode, opts, guarded, blobs).report;
      && end.recent == Count(mode, opts, guarded, blobs, Recent)
      && end.missingTime == Count(mode, opts, guarded, blobs, MissingTime)
      && end.guarded == Count(mode, opts, guarded, blobs, InUse)
      && end.eligible == Count(mode, opts, guarded, blobs, Eligible)
  {
    CountersFrom(mode, opts, guarded, Order(blobs, false), InitialReport(opts, blobs));
    CountSort(mode, opts, guarded, blobs, AgeLess, Recent);
    CountSort(mode, opts, guarded, blobs, AgeLess, MissingTime);
    CountSort(mode, opts, guarded, blobs, AgeLess, InUse);
    CountSort(mode, opts, guarded, blobs, AgeLess, Eligible);
  }
}
