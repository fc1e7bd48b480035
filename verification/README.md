# RegiMux in Dafny

RegiMux is a caching dependency proxy. This project models the parts of it whose
correctness is hardest to see from the code, and proves what they promise:

- the shared **garbage collector**: package planners, package selection and
  retirement, the bounded walk over the OCI manifest graph, and the sweep of
  content-addressed objects;
- **resumable transfers**: the reader that reopens an interrupted body, and the
  HTTP range requests and digest check behind it;
- three **concurrent protocols**: in-process fill coalescing, distributed fill
  leases with renewal, and prewarm admission permits;
- three components with **exact specifications**: the byte-bounded LRU cache, the
  streaming JSON shape scanner and glob-escaped prefix deletion.

`dafny verify dfyconfig.toml` checks everything.

## How the model is built

Code that changes state step by step is modelled by classes and methods with
loops, proved against functions and predicates on values; the protocols are state
machines whose steps interleave in any order, and their theorems speak about every
state of every run.

| file | models |
|---|---|
| `Records.dfy`, `Sorting.dfy`, `Reachability.dfy` | metadata rows, the two stores, recency, sorting, least closed sets |
| `GraphWalk.dfy`, `References.dfy` | the walk, the roots, the protected set and why a deletion cannot change it |
| `SweepPlan.dfy`, `Store.dfy`, `Sweep.dfy` | the sweep as a function, the stores with a trace of every write, the sweep as code |
| `PackagePlan.dfy`, `PackageApply.dfy`, `PackagePass.dfy` | selection under budgets, retirement and its dry-run view, one whole pass |
| `ContainerGraph.dfy`, `ContainerPlan.dfy`, `ContainerLoss.dfy` | one container image, the container planner, how a retained image can lose a layer |
| `ArtifactPlan.dfy`, `ScheduledCleanup.dfy` | the planner of the other ecosystems and the scheduled cleanup from end to end |
| `Recovery.dfy`, `HttpRecovery.dfy` | the resuming reader, range continuations, the digest of a continued transfer |
| `Coalesce.dfy`, `Lease.dfy`, `Prewarm.dfy` | the three protocols |
| `MemoryCache.dfy`, `JsonShape.dfy`, `PrefixDelete.dfy` | the small components |

Conventions. Time is a natural number and 0 is the zero time. Strings are sequences
of bytes. A cancelled context and a failing store are nondeterministic choices: any
store operation of a pass may fail, and so may the walk's read of any object in the
set `flaky` of the pass's mode, at any time. A pass is *steady* when such a failure
cannot go unnoticed: when the walk is strict, or no object is flaky. The metadata
schema's unique columns and its key validation
(`internal/store/meta/sql_schema.go`, `internal/store/meta/normalize.go`) are the
predicate `ValidSnapshot`. Keys that the source joins with NUL bytes are triples.
JSON decoding, the media-type test, digest syntax, the container-row test and alias
scoping are function parameters about which nothing is assumed unless a member says so.
No writer runs beside a cleanup pass; the ghost `trace` of the store records the world
after each of the pass's own writes, so a statement about the trace is a statement about
every point at which the pass could have been stopped.

## What the proofs found

- The container planner reads untyped manifest rows of every size; the collector's walk
  reads them only up to 4 MiB and above size 0. On that difference, and with a failed
  read, a row does not protect what the planner counts into its image
  (`ContainerGraph.ReferencesWalkedIff`). Without a byte limit a package that was not
  selected loses an object exactly when a selected package shares it, nothing protects
  it and its blob is stale (`PackagePass.RetainedLosesIff`); an inventory in which a
  retained image loses a layer is `ContainerLoss.RetainedImageLosesLayer`.
- The scheduled cleanup walks leniently: a manifest body that the store fails to read
  counts as having no children. The set it then protects is the right one exactly when
  every child of an unread body is protected by something else
  (`GraphWalk.LenientReadFailureIff`). A strict walk reports the failure
  (`GraphWalk.StrictReadFailureIsError`).
- A container row is in some group exactly when a tagged image has it, or when the image
  of an unowned row that no unowned row references has it (`ContainerPlan.GroupedIff`).
  Without cycles that is every row (`PlanComplete`). Untagged rows that reference each
  other in a cycle are in no group if no other row references them
  (`IsolatedCycleOmitted`); a cycle that a group's root reaches is in that group.
- README.md:66 of the repository says that a graph over budget aborts a pass before
  deletion. No object is deleted then, but the metadata of the selected packages is
  already retired (`PackagePass.RunPackageCleanup`, `PassAborts`).
- A continued transfer with a known digest reports a clean end too early when its
  continuation is refused with an error that wraps io.EOF: `digestBody` turns every such
  error into io.EOF. While the context is live that happens exactly when the first
  answer that is not a retried refusal is such a refusal, or when a body's own read
  error wrapped io.EOF (`Recovery.RecoveryBody.Read`, `HttpRecovery.DigestBody.Read`).
- The pattern of an empty prefix would miss the empty key
  (`EscapedMatchesPrefix`); the prefix check rules that case out.

## Model

| member | source | states |
|---|---|---|
| Records.FoldRecent | internal/cachegc/references.go:174-187 | the fold with its `found` flag answers "no known time, or some known time not before the cutoff" |
| Records.KeysSeparate | internal/store/meta/store.go:264-278 | manifest, tag and link rows have the same key if and only if they agree on its three columns, as long as the alias has no slash and the repository no separator |
| Records.TargetIsRow | internal/store/meta/store.go:264-266 | under the same condition a tag resolves to exactly the row of its own repository that has its digest |
| Reachability.ClosureIsLeast | internal/cachegc/references_graph.go:17-36 | the protected set contains the roots, is closed under edges, and lies in every such set, cycles included |
| Reachability.ClosureAgrees | internal/cachegc/references_graph.go:17-36 | two graphs with the same edges on the protected set protect the same set |
| GraphWalk.IndexManifestRecords | internal/cachegc/references_graph.go:96-103 | the index holds every row under its digest and nothing else |
| GraphWalk.ManifestGraphWalk.Admit | internal/cachegc/references_graph.go:84-94 | charges one digest to both budgets, or refuses it only if the whole closure is over budget |
| GraphWalk.ManifestGraphWalk.Protect | internal/cachegc/references_graph.go:166-181 | every listed digest ends up reserved, counted and queued once |
| GraphWalk.ManifestGraphWalk.Pop | internal/cachegc/references_graph.go:105-110 | a popped digest was never visited before |
| GraphWalk.ManifestGraphWalk.ProtectDigest | internal/cachegc/references_graph.go:112-155 | expands all rows of a digest: object keys and readable children are protected |
| GraphWalk.ManifestGraphWalk.Drain | internal/cachegc/references_graph.go:17-36 | the worklist terminates for every graph with everything reserved visited and expanded |
| GraphWalk.ProtectManifestGraph | internal/cachegc/references_graph.go:17-181 | success gives exactly the least closed set of the edges that could be read, within both budgets; a budget error only if that set does not fit, a read error only if it holds a manifest with that fault; in any iteration order |
| GraphWalk.ChildrenIff | internal/cachegc/references_graph.go:132-219 | a row's children are exactly what its stored body names, for a typed row or an untyped one of 1 byte to 4 MiB; a strict walk fails on every body it cannot read, a lenient one only on invalid or oversized JSON |
| GraphWalk.ReachIsLeast | internal/cachegc/references_graph.go:17-36 | the protected set has every root, every object key of its rows and everything that their bodies name, and it is the least such set; said of the rows, the object store and the decoder alone |
| GraphWalk.StrictReadFailureIsError | internal/cachegc/references_graph.go:132-155 | a strict walk over a failed read errs; when it succeeds its set is the one of a store without failures |
| GraphWalk.LenientReadFailureIff | internal/cachegc/references_graph.go:132-155 | a lenient walk with failed reads protects what a healthy one does if and only if every child of an unread body is protected otherwise |
| References.ActivePullReferences | internal/cachegc/references.go:88-100 | exactly the references pulled recently |
| References.ActiveTagReferences | internal/cachegc/references.go:102-117 | tag activity by key, and exactly the manifests that active tags point at |
| References.StaleOf | internal/cachegc/references.go:119-165 | exactly the stale rows, each once |
| References.WalkReferences | internal/cachegc/references.go:61-73 | whichever reads fail, a walk protects at least what cannot be lost and at most what a healthy store gives; in steady mode exactly the protected set |
| References.LoadReferences | internal/cachegc/references.go:27-59 | the loaded snapshot is the protected set and the stale rows of the world; apart from cancellation and failing stores a steady load fails only if the walk must |
| References.RootsIff | internal/cachegc/references.go:75-165 | a pruning pass roots exactly the digests and object keys of rows that are alive: touched since the cutoff or without a known time, pulled by their tag, or pointed at by a tag that is alive; any other pass roots every manifest |
| References.StaleRows | internal/cachegc/references.go:119-165 | every row of a digest outside the roots is inactive |
| References.SheddingKeepsRoots | internal/cachegc/references.go:27-165 | removing any rows of an unprotected digest removes no root, in prune mode too |
| References.SheddingKeepsEdges | internal/cachegc/references_graph.go:112-210 | nor any edge that leaves a protected digest |
| References.SheddingKeepsGuarded | internal/cachegc/delete.go:13-44 | at every point inside the deletion of an unprotected digest the recomputed protected set is the same |
| References.SheddingKeepsReadable | internal/cachegc/delete.go:86-106 | and its manifests are as readable, so a recheck cannot fail on them |
| Sorting.SortedOrderUnique | internal/cachegc/cleanup_helpers.go:29-81 | when distinct elements never tie there is one sorted order |
| Sorting.StringLessIff | internal/cachegc/cleanup_helpers.go:82-90 | strings are compared by the first byte in which they differ, a prefix before its extension |
| SweepPlan.OrderIsSorted | internal/cachegc/cleanup_helpers.go:29-81 | in age order earlier known access times come first, unknown ones last, then smaller sizes, then smaller digests; in capacity order unknown times come first, then larger sizes, then earlier times |
| SweepPlan.AgeOrderUnique | internal/cachegc/cleanup_helpers.go:52-81 | the age order does not depend on the sorting algorithm |
| SweepPlan.SweepBalances | internal/cachegc/cleanup.go:114-172 | at every loop head deleted, eligible and listed digests agree, bytes deleted and left add up, and scanned is skips plus eligible, plus one exactly when the delete limit stopped it |
| SweepPlan.ClassifyIff | internal/cachegc/cleanup_helpers.go:91-111 | when a blob counts as protected, without a time, recent or eligible, in times |
| SweepPlan.StaleIff | internal/cachegc/cleanup_helpers.go:91-111 | what the rows below call stale: a candidate outside the protected set whose last access is known and before the cutoff; in a pruning pass, with some time known and all of them before the cutoff |
| SweepPlan.CandidateBytesAdd | internal/cachegc/cleanup_helpers.go:11-28 | the bytes before a sweep are the sizes of the candidates added up, and of nothing else |
| SweepPlan.SweepAccounting | internal/cachegc/cleanup_helpers.go:11-28 | the same for a whole sweep, with `remaining` never clamping |
| SweepPlan.SweepCounts | internal/cachegc/cleanup_helpers.go:112-123 | without limits and capacity pressure each reason is counted exactly as often as candidates have it |
| SweepPlan.SweepWithinLimits | internal/cachegc/cleanup.go:130-172 | no more candidates are scanned and no more blobs deleted than the limits allow |
| SweepPlan.SweepDeletesCandidates | internal/cachegc/cleanup.go:130-172 | every deletion is of an unprotected candidate |
| SweepPlan.SweepDeletesExactly | internal/cachegc/cleanup.go:114-151 | without limits and capacity pressure exactly the stale unprotected candidates are deleted |
| SweepPlan.CapacitySweepMeetsTarget | internal/cachegc/cleanup.go:147-151 | over capacity and unstopped, it ends at or below the target, or the limit without one, or with every unprotected candidate deleted |
| SweepPlan.SweepDeletesInOrder | internal/cachegc/cleanup.go:114-145 | no stale candidate is passed over for a later one |
| SweepPlan.SweepTakesOldest | internal/cachegc/cleanup.go:83-145 | whatever limit stops it, a deleted blob was accessed no later than an unprotected stale candidate that was kept; accessed at the same time it is no larger, and of the same size its digest is not greater |
| SweepPlan.CapacityTakesLeastUseful | internal/cachegc/cleanup_helpers.go:37-51 | over capacity, a blob that went although it was not stale has no known access time or is larger, or as large and accessed no later, than every unprotected candidate that stayed |
| SweepPlan.EvictionNeeded | internal/cachegc/cleanup.go:147-151 | a blob that is not stale goes only while the candidates outweigh the byte limit and the bytes left are still above the target |
| Stores.Store.DeleteObject | internal/cachegc/delete.go:23-31 | removes one object, succeeds when it is missing, refuses the empty digest |
| Stores.Store.DeleteBlobIfUnchanged | internal/cachegc/delete.go:122-145 | removes the row if and only if it is the expected revision |
| Stores.Store.DeleteTagIfUnchanged | internal/cachegc/delete.go:210-230 | the same for a tag |
| Stores.Store.DeleteManifestIfUnchanged | internal/cachegc/delete.go:232-252 | the same for a manifest |
| Stores.Store.DeleteLinkIfUnchanged | internal/cachegc/delete.go:255-275 | the same for a repository link |
| Stores.BlobUnchangedIff | internal/cachegc/delete.go:122-145 | the expected revision, on columns: a blob row with the digest and the same compared fields is stored |
| Stores.TagUnchangedIff | internal/cachegc/delete.go:210-230 | the same for a tag |
| Stores.ManifestUnchangedIff | internal/cachegc/delete.go:232-252 | the same for a manifest |
| Stores.LinkUnchangedIff | internal/cachegc/delete.go:255-275 | the same for a repository link |
| Sweep.PruneTags | internal/cachegc/delete.go:161-175 | no stale tag of the digest is left, every other tag is, and each write lies inside that digest's deletion |
| Sweep.PruneManifests | internal/cachegc/delete.go:177-191 | the same for manifests |
| Sweep.PruneLinks | internal/cachegc/delete.go:193-207 | the same for links |
| Sweep.PruneReferences | internal/cachegc/delete.go:147-159 | no stale reference to the digest is left, objects and blob rows untouched |
| Sweep.RecheckBlob | internal/cachegc/delete.go:46-106 | reloads row and references and decides as the first time, on the current world |
| Sweep.PrunedAll | internal/cachegc/delete.go:147-207 | every row of an unprotected digest is stale, so pruning leaves none of them and every other row |
| Sweep.FinishBlobDeletion | internal/cachegc/delete.go:108-141 | prunes and then drops exactly the blob's row |
| Sweep.ConfirmBlob | internal/cachegc/delete.go:46-84 | a confirmed blob is stored, unprotected and eligible under references loaded from the world it is then deleted from |
| Sweep.EraseBlob | internal/cachegc/delete.go:23-44 | the object, in prune mode the stale references, then the row: at whichever write it stops, the object is gone, and the row is there unless it was the last; every write lies inside that digest's deletion |
| Sweep.DeleteBlob | internal/cachegc/delete.go:13-44 | deletes the digest's object and row and, in prune mode, exactly its tags, manifests and links, or nothing; every intermediate world keeps the protected set |
| Sweep.VisitCore | internal/cachegc/cleanup.go:153-172 | what a real deletion measures never changes a later decision |
| Sweep.MeasuredOneMore | internal/cachegc/delete.go:23-44 | deleting one more object adds its stored size to the bytes, or one to the missing objects |
| Sweep.ProcessEligibleCandidate | internal/cachegc/cleanup.go:153-172 | follows the plan's step: limit, dry run or deletion |
| Sweep.CleanupCandidate | internal/cachegc/cleanup.go:130-145 | report, stop flag and stores follow one planned visit |
| Sweep.CleanupCandidates | internal/cachegc/cleanup.go:114-128 | the loop carries out the planned sweep |
| Sweep.Cleanup | internal/cachegc/cleanup.go:83-112 | whatever it returns, wherever it stops and whichever reads fail, nothing protected at the start was touched and the recomputed protected set is the same; a completed pass deleted exactly what it reports, rows included, counts as eligible just what it deleted, and its bytes and missing objects are those of the objects it deleted; in steady mode what and in which order is the plan of the SweepPlan rows; over a graph that is over budget or unreadable a steady pass writes nothing; later rechecks fail on neither |
| PackagePlan.PackageHasRecentPull | internal/cachegc/plan_pull.go:13-74 | the memo maps answer what direct lookups would |
| PackagePlan.HasRecentPullIff | internal/cachegc/plan_pull.go:13-84 | a package counts as pulled if and only if the pull row stored for one of its tags, or for the reference or the digest of one of its manifests, both parts nonempty, has one of its four times not before the cutoff |
| PackagePlan.PullKeySeparates | internal/store/meta/store.go:272-274 | a pull row is found under its own alias, repository and reference only |
| PackagePlan.PackageUnchanged | internal/cachegc/plan.go:134-217 | true if and only if every row and blob is as planned and nothing was pulled recently |
| PackagePlan.UnchangedIff | internal/cachegc/plan.go:134-217 | a package passes the recheck if and only if every tag and manifest row is stored as planned, every planned blob is stored as planned, every blob that was not is still missing from rows and objects, and nothing of it was pulled since the cutoff |
| PackagePlan.PackageFitsBudget | internal/cachegc/plan.go:119-132 | counting unseen digests decides whether the union fits |
| PackagePlan.SelectPackages | internal/cachegc/plan.go:72-117 | the memoised loop selects what selection without a memo does |
| PackagePlan.SelectFromSound | internal/cachegc/plan.go:72-117 | every evicted package is stale and passed every recheck, and the candidates are exactly their digests |
| PackagePlan.SelectedIff | internal/cachegc/plan.go:72-117 | a package is evicted if and only if the scan limit lies beyond it, it is stale, it passes every recheck and it fits beside what the packages before it took |
| PackagePlan.PulledNotSelected | internal/cachegc/plan.go:97-117 | a package of which something was pulled since the cutoff, or of which a row or blob changed since it was planned, is never selected |
| PackagePlan.LimitLeavesBehind | internal/cachegc/plan.go:72-117 | a stale package that passes every recheck and is not evicted makes the run report a reached limit |
| PackagePlan.SelectionCounts | internal/cachegc/plan.go:72-117 | a run scans the groups up to the scan limit and counts as eligible exactly the stale ones among them |
| PackagePlan.AddOrphanCandidates | internal/cachegc/plan.go:219-244 | the loop computes the selection function the next two rows speak about |
| PackagePlan.OrphansStop | internal/cachegc/plan.go:219-244 | the stale blobs that no package owns are added in order, all of those before some row and nothing else; if that is not the end, a budget was reached at a further stale orphan |
| PackagePlan.AllOrphansAdded | internal/cachegc/plan.go:219-244 | without budgets every stale orphan becomes a candidate |
| PackagePlan.OrphansWithinBudget | internal/cachegc/plan.go:219-244 | orphans never push the candidates or the scanned rows past the larger of the limit and what was there before |
| PackagePlan.OwnedCandidateIff | internal/cachegc/plan.go:110-116 | a digest that some package owns is a candidate if and only if an evicted package has it |
| PackagePlan.CandidateBudget | internal/cachegc/plan.go:119-132 | with a delete limit, candidates number at most the larger of the limit and the first evicted package's digests, orphans included |
| PackagePlan.GroupOrderIsStrictWeak | internal/cachegc/plan.go:59-70 | the group comparator is a strict weak order |
| PackagePlan.GroupsOldestFirst | internal/cachegc/plan.go:59-70 | packages are visited by their time, earliest known first and unknown last, then by ecosystem, alias and package name |
| PackageApply.PackageRetirements | internal/cachegc/plan_apply.go:19-68 | exactly the rows of selected groups that no retained group and no kept tag needs |
| PackageApply.TagRetiredIff | internal/cachegc/plan_apply.go:19-48 | on rows: a tag is retired if and only if a selected group has one with its key and no retained group does |
| PackageApply.ManifestRetiredIff | internal/cachegc/plan_apply.go:19-48 | a manifest is retired if and only if a selected group has one with its key, no retained group does, and no tag that stays resolves to it |
| PackageApply.LinkRetiredIff | internal/cachegc/plan_apply.go:19-89 | a link is retired if and only if a selected group has one with its key and no retained group does, or it is an orphan link |
| PackageApply.RetireOrphanLinks | internal/cachegc/plan_apply.go:70-89 | adds exactly the stale links of candidates whose repository keeps no manifest |
| PackageApply.OrphanLinksIff | internal/cachegc/plan_apply.go:70-89 | a link is an orphan if and only if its digest is a candidate, its repository keeps no manifest, its access time is known and all its times are before the cutoff |
| PackageApply.RetirePackageMetadata | internal/cachegc/plan_apply.go:91-114 | every write is a partial retirement, tags before manifests before links; the end is the dry-run view |
| PackageApply.ViewValid | internal/cachegc/plan_apply.go:138-207 | the view is a valid snapshot |
| PackagePass.RetiringResolves | internal/cachegc/plan_apply.go:91-114 | at no point of a retirement does a tag dangle |
| PackagePass.IntactResolves | internal/cachegc/delete.go:23-31 | nor during the sweep that follows |
| PackagePass.UnselectedKept | internal/cachegc/plan_apply.go:19-68 | no row of a retained group is retired |
| PackagePass.UnselectedLinksKept | internal/cachegc/plan_apply.go:70-89 | not even by the orphan-link sweep |
| PackagePass.RetainedGuarded | internal/cachegc/references.go:61-73 | a retained group's digests are protected even when a selected group shares them |
| PackagePass.ApplyCleanupPlan | internal/cachegc/plan.go:28-57 | a dry run writes nothing and returns the view; a real run leaves the stores equal to that view; a failed one has touched no object |
| PackagePass.TraceSafe | internal/cachegc/plan_apply.go:91-114 | every world written by a pass has no new dangling tag and every retained package whole |
| PackagePass.RunPackageCleanup | internal/scheduler/cleanup_shared.go:88-123 | one pass: safe at every write; finished, it deleted exactly what it reports and in steady mode reports the one plan; over a graph that cannot be walked it fails with every object in place, and unless a store operation failed it leaves the stores as retired |
| PackagePass.SelectedAreStale | internal/cachegc/plan.go:72-117 | the selection of a pass: only packages last used before the retention period began and unchanged since |
| PackagePass.DryRunThenRun | internal/cachegc/plan.go:45-57 | a dry run and then a real run on one store: the real run deletes what the dry run reported, in the same order, and leaves the same bytes |
| PackagePass.PassDeletesExactly | internal/scheduler/cleanup_shared.go:98-108 | without a byte limit a pass plans to delete a digest if and only if it is a candidate, the retired metadata does not protect it and its blob is stale |
| PackagePass.PassMeetsTarget | internal/scheduler/cleanup_shared.go:98-108 | with a byte limit that the candidates outweigh, a pass plans to get down to its target, or to the limit without one, or deletes every unprotected candidate |
| PackagePass.ObjectLostIff | internal/scheduler/cleanup_shared.go:98-108 | after a finished real pass an object is gone under exactly that condition, whichever package owns it |
| PackagePass.RetainedLosesIff | internal/scheduler/cleanup_shared.go:98-108 | so a package that was not selected loses an object if and only if a selected package shares it, nothing protects it and its blob is stale |
| ContainerGraph.ReferencesWalkedIff | internal/cachegc/graph_export.go:15-85 | the collector's walk reads what the planner read if and only if the row is typed or within the size bounds and the walk's read of a body with references did not fail |
| ContainerLoss.UntypedChildUnprotected | internal/cachegc/references_graph.go:212-219 | outside those bounds a planned descriptor is not protected by its row |
| ContainerLoss.ImagesArePlanned | internal/ecosystems/container/cleanup_plan.go:45-73 | two untagged images that share a layer, one recent and of unknown size, are a plan of their inventory |
| ContainerLoss.RetainedImageLosesLayer | internal/scheduler/cleanup_shared.go:98-108 | the pass over that plan does not select the recent image and deletes its layer |
| ContainerLoss.LayerLost | internal/scheduler/cleanup_shared.go:98-108 | after any finished real pass over it the layer is gone |
| ContainerGraph.IndexContainerInventory | internal/ecosystems/container/cleanup_plan.go:95-127 | the index holds exactly the container rows and the tags that resolve |
| ContainerGraph.AddImageGraph | internal/ecosystems/container/cleanup_plan.go:195-243 | a group's digests are exactly those reachable from its root, each once, with exactly the rows at them; it fails only on cancellation, a failing store or an unreadable row it reaches |
| ContainerGraph.OCIReferencesIff | internal/cachegc/graph_export.go:15-85 | said of the object store and the decoder alone: the planner reads a row's references exactly as its stored body names them, reads none of a row of another type, and fails if and only if the body is missing, empty, over 4 MiB, does not parse, or a digest is invalid |
| ContainerGraph.TaggedActivityIsNewest | internal/ecosystems/container/cleanup_plan.go:180-193 | the fold gives the newest time of the image's tags, their pulls and its root row, and no other |
| ContainerGraph.StandaloneActivityIsNewest | internal/ecosystems/container/cleanup_plan_untagged.go:79-110 | untagged, the newest time of the root row, its pulls and its own link |
| ContainerPlan.PlanTaggedImages | internal/ecosystems/container/cleanup_plan.go:158-178 | exactly one group per tagged image, with its complete graph, exactly its tags and exactly its activity |
| ContainerPlan.OwnedCleanupManifests | internal/ecosystems/container/cleanup_plan_helpers.go:11-19 | exactly the keys of the rows that groups own |
| ContainerPlan.UntaggedChildDigests | internal/ecosystems/container/cleanup_plan_untagged.go:44-60 | exactly the digests that unowned rows reference |
| ContainerPlan.LooseIff | internal/ecosystems/container/cleanup_plan_untagged.go:62-65 | the planner's two tests find exactly the unowned rows that no unowned row references |
| ContainerPlan.PlanStandaloneImage | internal/ecosystems/container/cleanup_plan_untagged.go:67-90 | the group of an untagged root: complete graph, no tags, exact activity |
| ContainerPlan.PlanUntaggedManifests | internal/ecosystems/container/cleanup_plan_untagged.go:12-42 | one group per such row unless an earlier group already has it; each is in one |
| ContainerPlan.GroupedIff | internal/ecosystems/container/cleanup_plan_untagged.go:12-65 | whatever cycles there are, a row is in a group if and only if the image of a tagged root or of an unowned row that no unowned row references has it |
| ContainerPlan.PlanComplete | internal/ecosystems/container/cleanup_plan_untagged.go:12-65 | without reference cycles every container row is in some group |
| ContainerPlan.IsolatedCycleOmitted | internal/ecosystems/container/cleanup_plan_untagged.go:62-65 | untagged rows that reference each other round and round, and that no other row references, are in no group |
| ContainerPlan.SharedLayersIgnored | internal/ecosystems/container/cleanup_plan.go:180-193 | whatever happens to an image's layers, its time depends only on its tags, their pulls and its root row |
| ContainerPlan.LooseLayersIgnored | internal/ecosystems/container/cleanup_plan_untagged.go:79-110 | the same for an untagged image, whose own link counts too |
| ContainerPlan.ImagePlanned | internal/ecosystems/container/cleanup_plan.go:195-260 | a planned image is a group the collector keeps whole |
| ContainerPlan.ListedPlanned | internal/ecosystems/container/cleanup_plan.go:45-73 | every group of a plan is one the collector keeps whole, if its walk reads what the planner read |
| ContainerPlan.PlanCacheCleanup | internal/ecosystems/container/cleanup_plan.go:45-73 | the whole plan, by alias and name: every group the image of a tagged root or of an unreferenced unowned row, with exact rows, tags, links and activity; every tagged root has one, no image two; the rows in groups are exactly the rooted ones; cancellation and a failing store aside it fails if and only if some container row cannot be read |
| ContainerPlan.NamedGrouped | internal/ecosystems/container/cleanup_plan.go:195-243 | every descriptor that the stored body of a row in a group names is among the group's digests |
| ContainerPlan.NamedLeast | internal/ecosystems/container/cleanup_plan.go:195-243 | and the group's digests are the least such set with its root's |
| ArtifactPlan.CleanupPlanner.IndexManifests | internal/artifactcache/cleanup_plan.go:62-76 | exactly the ecosystem's rows by key, and exactly the digests of other ecosystems |
| ArtifactPlan.CleanupPlanner.GroupTags | internal/artifactcache/cleanup_plan.go:78-98 | every tag and the row it resolves to are in the tag's group, and the owner maps are exact |
| ArtifactPlan.CleanupPlanner.GroupUntaggedManifests | internal/artifactcache/cleanup_plan.go:100-120 | every row no tag matched is in the group of its own reference |
| ArtifactPlan.Register | internal/artifactcache/cleanup_plan.go:122-130 | adds one group to one key, each group once |
| ArtifactPlan.SingleOwner | internal/artifactcache/cleanup_plan.go:141-157 | the planner's two tests say that no other group and no other ecosystem has the digest |
| ArtifactPlan.CleanupPlanner.ApplyBlobAccess | internal/artifactcache/cleanup_plan.go:141-157 | each group's time is the newest that counts, blobs of sole digests included |
| ArtifactPlan.CleanupPlanner.ApplyRepoBlobAccess | internal/artifactcache/cleanup_plan.go:159-171 | each group has exactly the links at its digests; only sole digests' links count |
| ArtifactPlan.CleanupPlanner.ApplyPullAccess | internal/artifactcache/cleanup_plan.go:173-181 | a pull counts for exactly the group that its name belongs to |
| ArtifactPlan.PlanCacheCleanup | internal/artifactcache/cleanup_plan.go:31-46 | one group per package key, by alias and name: exactly the rows that its tags or their own references bring, distinct digests, exact links and the newest counting time |
| ArtifactPlan.GroupIsPackage | internal/artifactcache/cleanup_plan.go:78-139 | a group has only tags of its package, and only rows that such a tag resolves to or that no tag resolves to and whose own name is of the package |
| ArtifactPlan.TagGrouped | internal/artifactcache/cleanup_plan.go:78-98 | every tag shares a group of its package with the row it resolves to |
| ArtifactPlan.OneGroupPerPackage | internal/artifactcache/cleanup_plan.go:132-139 | two groups of one package and repository are the same |
| ArtifactPlan.LinksExact | internal/artifactcache/cleanup_plan.go:159-171 | a group has exactly the links of its repository at its digests |
| ArtifactPlan.TidyInOrder | internal/artifactcache/cleanup_plan.go:219-231 | its digests are listed once, in order, none added or lost |
| ArtifactPlan.GroupTimeIsNewest | internal/artifactcache/cleanup_plan.go:78-181 | on columns: a group's time is the newest among those of its tags, of the rows of its tags' references, of its untagged rows, of blobs and links whose digest no other group and no other ecosystem has, and of pulls under its names |
| ArtifactPlan.PlanComplete | internal/artifactcache/cleanup_plan.go:78-120 | every row of the ecosystem is in some group |
| ArtifactPlan.ListedPlanned | internal/artifactcache/cleanup_plan.go:183-199 | every group is one the collector keeps whole |
| ArtifactPlan.SharedActivityIgnored | internal/artifactcache/cleanup_plan.go:141-171 | activity of a shared or foreign digest never changes a group's time |
| ScheduledCleanup.PlanPackageCleanup | internal/scheduler/cleanup_shared.go:125-140 | the container plan followed by one plan per artifact ecosystem, in order, and nothing else |
| ScheduledCleanup.PlanPlanned | internal/scheduler/cleanup_shared.go:125-140 | every group of such a list is one the collector keeps whole when it is retained |
| ScheduledCleanup.RunScheduledCleanup | internal/scheduler/cleanup_shared.go:88-123 | plan and pass together, over that plan and the selection made from it: in every world written, every unselected package has all its rows and objects and no tag dangles anew; the pass reports or aborts as its row says |
| Recovery.RecoveryBody.Take | internal/transfer/recover.go:102-117 | delivers the next bytes of the representation, never past the declared length |
| Recovery.RecoveryBody.ReadBody | internal/transfer/recover.go:102-131 | an early plain EOF becomes a recoverable error |
| Recovery.RecoveryBody.OpenNext | internal/transfer/recover.go:169-182 | one counted call at the exact offset; retried only if recoverable with budget left |
| Recovery.RecoveryBody.Retry | internal/transfer/recover.go:139-156 | the outcome is the first answer that is not a recoverable refusal with budget left; `2 - retries` never underflows |
| Recovery.AnswerMeans | internal/transfer/recover.go:139-213 | that answer is the first call's that was not refused with a timeout, a reset, an unexpected end, a closed or a cancelled read, or it is the third call's |
| Recovery.RecoveryBody.Reopen | internal/transfer/recover.go:139-167 | the exhausted guard is false at every call; a new body continues where the reader stopped; while the context is live the failure wraps io.EOF if and only if that answer is a refusal which does |
| Recovery.RecoveryBody.Ready | internal/transfer/recover.go:83-100 | a terminal error is sticky; no opener call after cancellation |
| Recovery.RecoveryBody.Attempt | internal/transfer/recover.go:45-67 | one turn of the loop: it ends the transfer only if a body failed for good, three continuations are used up, or the one asked for was refused or empty; and it says which, as a failed continuation if there was one |
| Recovery.RecoveryBody.ReadOnce | internal/transfer/recover.go:45-67 | a read passes an error on before the end only if the body failed for good or the continuations are used up; any other interruption hands over what it got and leaves a continuation to ask for |
| Recovery.RecoveryBody.Read | internal/transfer/recover.go:45-74 | over every history: delivered bytes are a prefix, at most three opens, termination; with a live context it stops before the end only if a body failed for good, three continuations are used up, or the one asked for was refused or empty, and if every call gives a body only after more than three interruptions; an early error wraps io.EOF if and only if a body's own error did or the continuation was refused with one that does |
| Recovery.RecoveryBody.Drain | internal/transfer/recover.go:18-74 | the whole transfer: when every continuation is answered and no body fails for good, at most three interruptions lose nothing, and reading to the end gives the whole representation |
| HttpRecovery.RecoveryIdentityFrom | internal/transfer/http.go:57-80 | recoverable only with a strong validator or a digest, a range only with a validator, and a well-formed interval |
| HttpRecovery.IdentityEncodingIff | internal/transfer/http.go:57-61 | the identity encoding is no header or that word in any mix of cases |
| HttpRecovery.StrongETagIff | internal/transfer/http.go:160-163 | a strong validator is anything between two quotes |
| HttpRecovery.RequestIsRemainder | internal/transfer/http.go:84-110 | every reopen requests a nonempty in-bounds range that is exactly the undelivered remainder |
| HttpRecovery.ContinuationContinues | internal/transfer/http.go:112-138 | a validated answer carries on exactly where the reader stopped |
| HttpRecovery.AcceptedAnnounces | internal/transfer/http.go:112-138 | whatever a server sends, an answer that is read announced exactly the missing bytes of a representation of the same length, no other number of them, no encoding, and the validator that the transfer started with |
| HttpRecovery.ValidatingOpenerIsHonest | internal/transfer/http.go:29-38 | so the joined stream is a prefix of the original interval |
| HttpRecovery.ServedIsRecoverableIff | internal/transfer/http.go:18-80 | what a conforming range server sends first can be continued if and only if it is all of a nonempty representation with a strong validator or a digest, or a range of one with a strong validator; the transfer is then over exactly the bytes sent |
| HttpRecovery.RangeServerAcceptedIff | internal/transfer/http.go:84-138 | a conforming range server's answer to the request that was sent is read if and only if the representation still has that length and that strong validator, and then it is exactly the server's remainder |
| HttpRecovery.ObjectBounds | internal/transfer/object.go:77-135 | accepted if and only if the reported size is that of the requested range, or of the object when that is known; the bounds cover exactly that size |
| HttpRecovery.ObjectContinuationIsRemainder | internal/transfer/object.go:26-48 | the continuation of a stored object asks for exactly the missing bytes |
| HttpRecovery.DigestBody.Read | internal/transfer/http.go:173-200 | a continued transfer with a wrong digest never hands over its last bytes, now or later; while the context is live a clean end is early if and only if the reader's last error wrapped io.EOF: a body's own, or the refusal of the continuation it asked for |
| Coalesce.StepKeeps | internal/artifactcache/fill.go:119-182 | every step of every request keeps the protocol's invariant; what an owner's steps decide is the business of the next rows |
| Coalesce.RunKeeps | internal/coalescer/tracker.go:25-63 | the invariant holds in every state of every run |
| Coalesce.OneOwner | internal/coalescer/tracker.go:25-32 | a nonempty key has at most one active owner and the map holds its fill |
| Coalesce.DoneClosedOnce | internal/coalescer/tracker.go:41-48 | no `done` is closed twice; a returned owner has closed its own |
| Coalesce.FillsOnce | internal/artifactcache/fill.go:167-182 | if a success makes later lookups succeed, at most one fill per key succeeds |
| Coalesce.ReturnsDecision | internal/artifactcache/fill.go:147-200 | over any run: when a request's lookup finds an artifact or fails, its fill succeeds or fails, its wait ends or the fill it follows failed, then that very outcome is what it returns |
| Coalesce.ReturnedWasDecided | internal/artifactcache/fill.go:119-200 | and whatever a request returns was decided by such an answer of its own |
| Coalesce.WorkOrder | internal/artifactcache/fill.go:167-200 | what comes next while nothing is decided: after a miss an owner asks for the lease, with it it fills, without it it polls and looks again; a follower that misses after a success starts over |
| Coalesce.LiveFollowerNotCanceled | internal/artifactcache/fill.go:132-145 | a request with a live context never returns a cancellation error |
| Coalesce.FollowerLearns | internal/artifactcache/fill.go:132-165 | a live follower looks again after success, starts over after the owner's own cancellation, and returns any other failure as it was |
| Coalesce.FollowerHearsOwner | internal/artifactcache/fill.go:132-200 | from the owner's own answer on, however many steps lie between: a live follower that wakes looks again after a success, starts over if the owner's context had ended when it settled, and otherwise returns the very error that the owner met |
| Coalesce.WaitIsServed | internal/coalescer/tracker.go:50-63 | no follower waits on an abandoned fill |
| Coalesce.NeverStuck | internal/artifactcache/fill.go:119-200 | until it has returned, a request has a step of its own or waits for a fill that is still open; a follower whose context has ended can leave |
| Coalesce.CanceledIff | internal/artifactcache/fill.go:132-161 | over any run a context has ended if and only if it was cancelled before |
| Coalesce.AnswersPossible | internal/artifactcache/fill.go:167-196 | what the model allows its environment: lookups that find, miss or fail, and fills that succeed or fail, for any reason but the end of another request's context |
| Lease.ForeignTokenHarmless | internal/cache/backend/kv.go:41-53 | acquire, release and extend with another token change nothing |
| Lease.CommandReaches | internal/cache/backend/kv.go:41-53 | what a command does to the store once it reaches it, even when its sender was told that it failed: acquire takes a free key for a full term, extend renews its own live token, release ends it; nothing else changes |
| Lease.StepKeeps | internal/worker/lease_renewal.go:22-95 | every step of attempts, renewal routines, tasks, late acquires, extends and releases, and time keeps the invariant |
| Lease.RunKeeps | internal/artifactcache/fill_lease.go:12-41 | the invariant holds in every state of every run |
| Lease.FillsExclude | internal/artifactcache/fill_lease.go:12-41 | two attempts fill one key at once only after an expiry, a locker error or without a locker |
| Lease.LeaseLasts | internal/cache/backend/kv.go:230-271 | over any run, nothing but its own release ends a lease before it expires or makes it lost |
| Lease.AcquireGivesFullTerm | internal/cache/backend/lease.go:34-55 | a lease is granted only where no live token is, is then held for a full term over any run, and its renewal starts if and only if there is a scheduler and half the term is not zero |
| Lease.AcquireDecides | internal/artifactcache/fill_lease.go:12-33 | a lease if there is a locker, a key and no live token; a refusal if another token is live; a fill without a lease if there is no locker, no key or the locker failed |
| Lease.RenewalGivesFullTerm | internal/cache/backend/lease.go:71-83 | after an applied renewal the lease is held for a full term, whatever others do |
| Lease.RenewalCanStep | internal/worker/lease_renewal.go:51-84 | a renewal routine that has not ended always has a step to take |
| Lease.RenewalEnds | internal/worker/lease_renewal.go:51-84 | it ends only with its context, or when the pool refuses a renewal for another reason than overload |
| Lease.RoundIsShort | internal/worker/lease_renewal.go:51-84 | while its context lives and the pool accepts, an extend is sent at least every sixth of its steps |
| Lease.RoundExtends | internal/worker/lease_renewal.go:66-93 | whenever the routine has waited for an admitted renewal, that renewal has sent its extend |
| Lease.StopWaits | internal/worker/lease_renewal.go:22-49 | stopping the renewal waits for an admitted task |
| Lease.StopReturns | internal/worker/lease_renewal.go:22-93 | and never for ever: once the fill is over at most three of the routine's steps are left, and until the stop can return one of them can be taken |
| Lease.ContextEndedIff | internal/worker/lease_renewal.go:38-49 | the routine's context ends with the caller's or when the fill it protects is over, and in no other way |
| Lease.AttemptNeverStuck | internal/artifactcache/fill_lease.go:12-41 | until it was refused, has returned or has released, an attempt or its routine has a step to take |
| Lease.NoExtendAfterRelease | internal/artifactcache/fill_lease.go:35-41 | no extend starts once the release began, and a late one cannot revive a released token |
| Prewarm.RequestKeeps | internal/ecosystems/container/prewarm_plan.go:44-96 | exactly one place owes the release, through every race of handler, callback and worker |
| Prewarm.PermitsKept | internal/ecosystems/container/prewarm_plan.go:11-25 | free plus held permits stay four |
| Prewarm.AdmittedIff | internal/ecosystems/container/prewarm_plan.go:17-25 | a permit is taken if and only if one is free and the context is live |
| Prewarm.HandlerOrder | internal/ecosystems/container/manifest_prepare.go:21-37 | what a handler does after each of its steps, whatever the callback and the worker do meanwhile |
| Prewarm.HandlerNeverStuck | internal/ecosystems/container/prewarm_plan.go:44-88 | a handler is never stuck, not even on the plan's mutex |
| Prewarm.LiveTakeSubmits | internal/ecosystems/container/prewarm_plan.go:66-88 | a handler with a live context always gets its work to submit, with its permit |
| Prewarm.AcceptedRuns | internal/ecosystems/container/prewarm_submit.go:5-35 | a fill that the pool accepted has run or can still run, whatever the others do |
| Prewarm.RunKeeps | internal/ecosystems/container/prewarm_submit.go:5-35 | in every state of every run |
| Prewarm.ReleasedOnce | internal/ecosystems/container/artifacts.go:15-39 | a permit is released at most once, and exactly once when all are done |
| Prewarm.RunsOnce | internal/ecosystems/container/prewarm_plan.go:90-96 | the blob fill runs at most once and never after a discard |
| Prewarm.StopCancelSet | internal/ecosystems/container/prewarm_plan.go:44-64 | neither `take` nor `discard` calls a missing function |
| Prewarm.NoCallbackLeft | internal/ecosystems/container/prewarm_plan.go:52-81 | no registered callback outlives the work that it guards |
| Prewarm.CanceledIff | internal/ecosystems/container/prewarm_plan.go:44-50 | over any run a context has ended if and only if it was cancelled before |
| Prewarm.NoPermitStranded | internal/ecosystems/container/manifest_prepare.go:21-37 | a held permit always has someone who can still return it: while the response may be completed its handler, and once the context has ended the callback or the worker, even when the response never is |
| Prewarm.EndedContextNeverRuns | internal/ecosystems/container/prewarm_plan.go:66-88 | a context that ends before the take keeps the blob fill from ever running |
| MemoryCache.FewestIsLeast | internal/cache/backend/memory.go:67-89 | no smaller number of evictions would make room |
| MemoryCache.WithoutAt | internal/cache/backend/memory.go:91-100 | a key is in the list at most once |
| MemoryCache.CacheKeyMeans | internal/cache/backend/backend.go:33-54 | the physical key is the namespace without its outer spaces and colons, a colon and the key without its outer spaces; a key of spaces is refused |
| MemoryCache.PrefixOfKeys | internal/cache/backend/memory.go:102-124 | within one namespace the physical keys under a prefix are exactly those of the keys under it |
| MemoryCache.Memory.Get | internal/cache/backend/memory.go:49-65 | a hit is the latest value set, without an expiry or before it, and becomes the most recently used; an item at or after its expiry goes |
| MemoryCache.Memory.Set | internal/cache/backend/memory.go:67-89 | caches the value after the fewest evictions, oldest first, or removes the key when the value alone is too heavy |
| MemoryCache.Memory.MakeRoom | internal/cache/backend/memory.go:79-83 | the loop reaches the byte bound without its break |
| MemoryCache.Memory.Delete | internal/cache/backend/memory.go:91-100 | removes exactly the key |
| MemoryCache.Memory.DeletePrefix | internal/cache/backend/memory.go:102-124 | removes exactly the items under the prefix; when its context ends it may leave some of them, and nothing else changed |
| MemoryCache.Memory.Close | internal/cache/backend/memory.go:126-131 | empties the list and the byte count |
| JsonShape.ShapeScanner.Advance | internal/jsonbudget/jsonbudget.go:65-134 | one byte: the counters it moves and whether it is allowed |
| JsonShape.CheckShape | internal/jsonbudget/jsonbudget.go:45-53 | for any bytes, stopping at the first excess accepts exactly the texts whose whole shape is within the limits |
| JsonShape.ValueRead | internal/jsonbudget/jsonbudget.go:65-143 | scanning a rendered value adds the tree's own counts and returns to the same depth outside strings |
| JsonShape.JsonAcceptedIff | internal/jsonbudget/jsonbudget.go:45-143 | for every JSON text in any layout: accepted if and only if markers, nesting, string bytes and longest other token of the tree fit, ending outside strings at depth 0 |
| PrefixDelete.EscapedMatchesPrefix | internal/cache/backend/prefix_delete.go:81-89 | under Redis glob matching the escaped prefix and a star match exactly the strings with that prefix |
| PrefixDelete.KeyStore.DeleteKeyBatches | internal/cache/backend/prefix_delete.go:67-79 | nonempty batches of at most 256 partition the keys in order |
| PrefixDelete.KeyStore.DeletePrefixScanPage | internal/cache/backend/prefix_delete.go:47-65 | of a page, exactly the keys with the literal prefix are deleted |
| PrefixDelete.KeyStore.DeletePrefixByScan | internal/cache/backend/prefix_delete.go:29-45 | following the cursor deletes exactly the matches of all pages, or an initial part of them when stopped |
| PrefixDelete.PrefixEmptied | internal/cache/backend/prefix_delete.go:29-45 | if the scans return what the pattern matches, no key under the prefix is left and every other key is |

## Left out

- The race between the final confirmation and the object delete: a pass is modelled without concurrent writers, as README.md:70 of the repository accepts it.
- Reconciling blob rows with objects, recovering missing manifests from upstream, and the callback that invalidates package caches: straight-line work over network and store.
- The record and byte budget of loading a metadata snapshot: a load over it is one of the failing store operations.
- The gate that skips a cleanup while another one runs, and logging and metrics of a pass.
- JSON decoding, media-type parsing and digest syntax of manifests: uninterpreted parameters.
- The walk's own reads may fail at any time only for objects in `flaky`; which ones these are does not change during a pass.
- Sorting in place: `slices.SortFunc` is a deterministic insertion sort on values; the age order is proved independent of the algorithm, ties of the capacity order keep input order.
- Stores.Store.DeleteBlobIfUnchanged: compares the fields that the fallback compares; the SQL store compares a few more columns.
- Sweep.Cleanup: whether a pass that is not steady meets its plan is not stated, because the reads that fail decide what its walks protect.
- ArtifactPlan.PlanCacheCleanup: a missing key function or a blank ecosystem name, which yield no groups, and cancellation are not modelled.
- ArtifactPlan.CleanupPlanner: its four maps from and to groups are one record-valued field, so aliasing of group pointers is not captured.
- Recovery: a negative size or a missing opener, where the body is returned as it is.
- Recovery.RecoveryBody.Retry: backoff delays and jitter are not modelled; the wait is a point where the context may end.
- HttpRecovery: the text of `Range` and `Content-Range` headers is modelled as intervals; SHA-256 is a predicate on bytes.
- HttpRecovery.DigestBody: an error of the hash writer, which never fails, is not modelled.
- Selecting a client's requested range from a stored object (`internal/transfer/range.go`): it rests on a parser outside this model.
- Coalesce: a fill that panics and a nil context are not modelled.
- ContainerPlan.PlanCacheCleanup: a missing runtime or reader and a nil context, which are refused before planning, are not modelled.
- ContainerPlan.IsolatedCycleOmitted: one direction; the exact condition for every row, cyclic or not, is `ContainerPlan.GroupedIff`.
- PackagePass.PassDeletesExactly: without a byte limit; over capacity the order of the sweep decides, which `PassMeetsTarget`, `SweepPlan.EvictionNeeded` and `SweepPlan.CapacityTakesLeastUseful` bound.
- Lease: tokens are the attempts' numbers, so a collision of random tokens is not modelled; one time-to-live for all leases.
- Prewarm: parsing the manifest and the blob fill itself are single steps.
- MemoryCache: trimming recognises the six ASCII spaces; the mutex makes each method one step.
- Deleting a prefix on several nodes, one scan after the other.
- PrefixDelete: the scan is a finite sequence of pages, so a cursor that never returns to 0 is not modelled; the nesting limit of the matcher is ignored.
- Prefetching, endpoint scoring, authentication, policies, configuration, the admin interface and HTTP wiring.
