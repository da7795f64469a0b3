# Verification of cube-microk8s-operator

This project models the hard parts of the operator and of its telemetry service in Dafny and proves
properties of them over every input, every run and every interleaving. It has three parts.

**Reconciliation** (`Names`, `Text`, `ClusterSpec`, `Validation`, `Plan`, `GoObjects`, `KopfObjects`,
`MergePatch`, `KopfLaws`, `Agreement`, `Interleaving`, `Overlap`, `Reconciler`, `Refinement`, `Workloads`,
`GoStatus`, `Status`, `KopfHandler`).
A reconciliation validates a CubeCluster, applies its seven or nine objects in order, deletes the
objects of the other Cube Store topology, reads readiness and writes a status. `Plan` holds the calls
as both controllers issue them; what applying does to a stored object is a parameter, which the Go
controller fills with replacement (`Plan.Replace`) and the Kopf controller with create-or-merge-patch
(`KopfObjects.CreateOrMerge`, JSON Merge Patch as in section 2 of RFC 7396). `Reconciler` has the loops
themselves as methods of two server classes, proved against the plan; `Interleaving` runs any number
of reconciliations of any number of clusters one API call at a time, where each call may fail, take
effect and still report a failure, or be the last before a crash; `Refinement` shows that the loops
are runs of that transition system. The repository's `README.md:9-10` says that the two controllers own
identical resources; `Agreement` proves that they build them identically, and `Workloads` says what they
build in the terms of the spec. `GoStatus`, `Status` and `KopfHandler` cover what a status says over many
reconciliations: which generation it names, what that means for the objects, and when its condition last
changed.

**Execution telemetry** (`Spans`, `Ingest`, `IngestProtocol`, `Resurrection`, `Measures`, `Accounting`). `Spans` is
validation and normalization, `Ingest` the service as a class over its table. `IngestProtocol` is the
protocol: requests are validated at one instant and stored at a later one, answers are lost, prunes
compute a cutoff and execute it later, and the clock advances in between. `Measures` is the
AgentExecutions cube.

**Producer and checker** (`SpanProducer`, `Publisher`, `Checker`, `EndToEnd`). The runner records spans
whatever raises, the publisher retries against a service that others use and that prunes, and the
checker compares what Cube returns with what was published. `EndToEnd` composes them with the service.

Some things one would like to say are not true of the code. Each is settled by an exact condition:

- A pruned span can be stored again, because validating and storing happen at different instants.
  `Resurrection.ResurrectionHappens` gives such runs. For any run and any prunes, there is a span that comes
  back if and only if its retry is stored within its deadline and an executed prune computed its cutoff after
  the retry's validation (`Resurrection.ResurrectionExactlyAfterLatePrune`).
- The measures over all rows are those of the accepted, unexpired spans exactly when no stored row has expired
  (`Accounting.MeasuresAreExactWithoutExpiredRows`); over the unexpired rows they always are.
  `Accounting.MeasuresCanBeWrong` gives runs in which they differ.
- Two overlapping reconciliations of one cluster can delete both Cube Store topologies. They are safe
  exactly when they want the same mode (`Overlap.OverlapSafeExactlyForOneMode`). controller-runtime
  never overlaps them; a Kopf timer that fires while a change handler runs can.
- After an edit, Kopf leaves nothing of the earlier spec exactly when the later one still names every
  Service annotation of the earlier one (`Reconciler.KopfForgetsEarlierSpec`).
- A Ready status of the Go controller tells the truth about the generation it names exactly when that one asks
  for the same objects as the one reconciled (`GoStatus.ReadyStatusTellsTheTruth`), as it always does when no
  edit came before the last re-read (`GoStatus.StampCountsEditsBeforeLastRead`). `GoStatus.ReadyStatusCanBeStale`
  gives a run for any two specs that ask for different objects, `GoStatus.ImageChangeGoesStale` a concrete one.
- The rows of a published trace pass the check exactly when every span is still stored
  (`Publisher.TracePassesExactlyWhenStored`), so a prune between publishing and the query can fail it
  (`Publisher.PrunedTraceFails`).
- The two controllers accept different specs: Kopf rejects an empty mode that is spelled out and a
  scratch size that is not positive (`Validation.KopfValidateReferences`).
- The checker is exact only for events with distinct ids (`Checker.ExactOnlyForDistinctIds`).
- The worker address list splits back into the addresses exactly when there is at least one worker and
  no comma in the cluster's name (`Names.WorkerAddressesRoundTrip`).

The documentation says that records pruned by retention no longer have deduplication history
(`docs/agent-executions.md:125-126`); the model agrees and claims no uniqueness of event ids beyond
pruning.

## Model

| member | source | states |
|---|---|---|
| Text.DecimalDenotes | internal/controller/cubecluster_controller.go:455-457 | the numeral written for a worker's ordinal denotes that ordinal, so numerals of different ordinals differ |
| Text.SplitUndoesJoin | python/cube_kopf/resources.py:159-163 | splitting a joined list on the separator returns the list exactly when it is nonempty and no piece holds the separator |
| Text.ReferenceExpands | python/cube_kopf/resources.py:365-368 | $(NAME) at the start of an environment value is replaced by the variable's value and the rest is expanded |
| Text.PlainTextExpandsToItself | python/cube_kopf/resources.py:365-368 | a value without a dollar sign is left alone |
| Text.UnsetReferenceStays | python/cube_kopf/resources.py:365-368 | a reference to a variable that is not set stays as it is |
| Names.ObjectNameInjective | internal/controller/cubecluster_controller.go:382-388 | for all strings, cluster name and component are determined by the object name they form |
| Names.NamesInWords | internal/controller/cubecluster_controller.go:382-388 | the object names of the five components, as both controllers spell them |
| Names.FillWorkerAddresses | internal/controller/cubecluster_controller.go:452-459 | the loop that fills a slice and joins it gives the comma-separated addresses of workers 0 to count - 1 |
| Names.WorkerAddressInjective | internal/controller/cubecluster_controller.go:455-457 | different workers of a cluster have different addresses |
| Names.WorkerAddressesRoundTrip | python/cube_kopf/resources.py:159-163 | splitting CUBESTORE_WORKERS on commas returns the addresses, which are pairwise distinct, exactly when there is a worker and the name has no comma |
| Names.WorkerKnowsItsAddress | python/cube_kopf/resources.py:363-374 | for a cluster name without a dollar sign, what pod i expands its CUBESTORE_SERVER_NAME to is the i-th address of the list every pod is given |
| Validation.GoValidateReferences | internal/controller/cubecluster_controller.go:164-216 | accepts exactly the specs of Accepted, names a fault of the others, and every accepted spec makes the partial operations of the builders safe (s3 and claim pointers, quantity, slice length) |
| Validation.KopfValidateReferences | python/cube_kopf/controller.py:81-133 | names a fault of what it rejects, and accepts exactly what Go accepts, less an empty mode that is given and a scratch size that is not positive |
| Validation.AcceptedInWords | internal/controller/cubecluster_controller.go:164-216 | Go accepts a spec exactly when what it names exists, each replica count that is given is at least 1 (the workers' only in clustered mode), and mode, scratch size, node port and storage make sense |
| Validation.KopfAcceptedInWords | python/cube_kopf/controller.py:81-133 | Kopf accepts what Go accepts with no empty mode and no scratch size that is not positive |
| Plan.KeyAtInjective | internal/controller/cubecluster_controller.go:382-395 | namespace, cluster and slot are determined by the key an object is stored or deleted under |
| Plan.SlotsVisitedOnce | internal/controller/cubecluster_controller.go:233-241 | in either mode a reconciliation applies or deletes each of the eleven managed slots exactly once, deleting exactly the slots of the other topology |
| Plan.CompleteRunLeavesExactlyTheDesired | internal/controller/cubecluster_controller.go:65-75 | from any store, calls that all succeed leave each applied key with the applied object, each deleted key absent and every other key as it was |
| Plan.SecondRunChangesNothing | python/cube_kopf/controller.py:227-239 | where applying twice is applying once, a second reconciliation leaves the store as the first did |
| Plan.EachCallSettlesItsKey | internal/controller/cubecluster_controller.go:65-75 | for every apply that is idempotent: after any number of calls exactly the calls not yet issued can still change their key; the set never grows and is empty at the end |
| GoObjects.StorageConfiguration | internal/controller/cubecluster_controller.go:349-371 | exactly the spec's kind of storage is configured: every volume has its mount under its own name and path, no variable is set twice, the claim is a volume mounted writable where CUBESTORE_REMOTE_DIR points exactly for a claim, and bucket, region and the named secret are given exactly for S3; a valid spec makes every dereference and the parse safe |
| GoObjects.StoreEnvironmentHasNoDuplicates | internal/controller/cubecluster_controller.go:316-347 | for both storage kinds and every role, the environment of a Cube Store container sets no variable twice |
| GoObjects.ObjectForHasKey | internal/controller/cubecluster_controller.go:243-333 | the object built for a slot is named and placed by that slot, and runs pods exactly when it is a Deployment or StatefulSet |
| MergePatch.Idempotent | python/cube_kopf/controller.py:61-70 | for all documents and patches, patching twice is patching once |
| MergePatch.ReadsBack | python/cube_kopf/controller.py:61-70 | at every path the patch mentions, the result is absent for null, the merge for an object and the patch's value verbatim for anything else, lists included |
| MergePatch.Untouched | python/cube_kopf/controller.py:61-70 | at every path that leaves the patch at an unmentioned member, the result is what the document had |
| MergePatch.AbsorbedExactlyWhenCovered | python/cube_kopf/controller.py:61-70 | a later patch cancels an earlier one on every document exactly when it mentions, level by level, every member the earlier one does |
| KopfLaws.CreateIsMerge | python/cube_kopf/controller.py:45-70 | for a document without nulls, creating the object is merging into one that holds only its kind |
| KopfLaws.ApplyingTwiceIsApplyingOnce | python/cube_kopf/controller.py:45-70 | whether or not the object existed, applying its document again changes nothing |
| KopfLaws.LaterApplyAbsorbsEarlier | python/cube_kopf/controller.py:45-70 | a later apply leaves nothing of an earlier one, on every stored object, exactly when its document covers the earlier document |
| KopfLaws.OnlyDroppedAnnotationsSurvive | python/cube_kopf/resources.py:240-380 | for any two specs and any object both apply, the later apply absorbs the earlier one, except that on the API Service it does so exactly when no annotation was dropped |
| KopfLaws.DocumentFits | python/cube_kopf/resources.py:166-380 | every document built for a spec is free of nulls and covers the document of any other spec for the same slot, up to Service annotations |
| Agreement.LabelsAgree | python/cube_kopf/resources.py:19-28 | Go's labels and Python's, each with its own prefix test, are the same for every name and component |
| Agreement.AddressesAgree | python/cube_kopf/resources.py:159-163 | for every name and count, the addresses that Go joins are those that Python's generator joins |
| Agreement.BuildersAgree | python/cube_kopf/resources.py:44-380 | for every spec that can be built and every slot, the Kopf document is the Go object written out as JSON: key, labels, annotations, selectors, replicas, ports, containers, environments, volumes, mounts, security contexts and probes, each side with its own constants |
| Workloads.GoReplicas | internal/controller/cubecluster_controller.go:434-439 | the workloads that Go builds have the replicas that the spec gives; where it gives none, two for the API and the workers and one for the refresh worker; router and single store have one |
| Workloads.KopfReplicas | python/cube_kopf/resources.py:88-127 | so have the documents of the Kopf controller, under the same names |
| Workloads.ReadyMeansEveryReplica | internal/controller/cubecluster_controller.go:120-162 | the workloads count as ready exactly when each of them, by name, is read with as many ready replicas as the spec gives it, or as the default |
| Workloads.AddressesInWords | internal/controller/cubecluster_controller.go:452-459 | split on commas, the list of n workers of a cluster without a comma in its name is the n addresses name-cubestore-worker-i.name-cubestore-worker:9001 in order |
| Workloads.GoListsWorkers | internal/controller/cubecluster_controller.go:316-347 | router and workers get CUBESTORE_WORKERS once, with the addresses of as many workers as the spec asks for |
| Workloads.KopfListsWorkers | python/cube_kopf/resources.py:316-380 | so do the containers of the Kopf controller's documents |
| Workloads.ObjectsInOrder | internal/controller/cubecluster_controller.go:233-241 | which objects are applied in which order: the router and its workers exactly when the mode is clustered, the single store otherwise |
| Workloads.DeletionsInOrder | internal/controller/cubecluster_controller.go:382-395 | which names are deleted in which order: those of the topology that the mode does not ask for |
| Workloads.TopologiesInWords | internal/controller/cubecluster_controller.go:382-388 | a topology is complete exactly when each of its two or four objects exists under its name |
| Workloads.OwnersAgree | python/cube_kopf/controller.py:45-56 | each applied object is owned by its CubeCluster alone, as controller, under either controller, and nothing else of its metadata changes |
| Workloads.CreationInWords | python/cube_kopf/controller.py:57-70 | a create request carries the kind, its API version, metadata and spec, a patch metadata and spec alone |
| Interleaving.StepInView | internal/controller/cubecluster_controller.go:389-393 | a single API call changes what its own cluster sees as if it were alone, and nothing that any other cluster sees |
| Interleaving.RunsAsIfAlone | internal/controller/cubecluster_controller.go:382-395 | after any interleaving with failures and crashes, a cluster's objects and reconciliations are those of its own steps run alone |
| Interleaving.TopologySurvives | internal/controller/cubecluster_controller.go:65-75 | once a cluster has a complete Cube Store topology it has one after every run, with any mode changes between reconciliations that do not overlap, failures and crashes |
| Interleaving.AppliedStaysPresent | internal/controller/cubecluster_controller.go:65-75 | in every run in which overlapping reconciliations of a cluster want one mode, everything a running reconciliation has applied is still there |
| Interleaving.NextKeepsApplied | internal/controller/cubecluster_controller.go:65-75 | the same of a single step from a state in which overlapping reconciliations of a cluster want one mode |
| Overlap.OverlapLosesBoth | python/cube_kopf/controller.py:227-239 | for any two reconciliations of different modes there is an interleaving after which no topology is complete |
| Overlap.OverlapSafeExactlyForOneMode | python/cube_kopf/controller.py:296-303 | overlapping reconciliations of a cluster keep a complete topology from every store and in every interleaving exactly when they want the same mode |
| Overlap.ConvergesAmidOthers | internal/controller/cubecluster_controller.go:52-97 | when a cluster's part of an interleaving is one reconciliation without a failure, its objects end as that reconciliation alone makes them, whatever the other clusters do |
| Reconciler.RunsPodsIsWorkload | internal/controller/cubecluster_controller.go:120-162 | the workloads that readiness looks at are exactly the applied objects that run pods |
| Reconciler.WorkloadsAvailable | internal/controller/cubecluster_controller.go:120-162 | available exactly when every Deployment and StatefulSet built for the cluster is observed with at least the replicas it was built with; fails exactly when one of them cannot be read |
| Reconciler.Assess | internal/controller/cubecluster_controller.go:77-92 | the condition, its reason and the ready replicas for every outcome of the reads and of the readiness request |
| Reconciler.GoServer.Apply | internal/controller/cubecluster_controller.go:218-231 | sets the owner, then makes what the operator owns of the object the desired object unless the call is refused, which includes failing to set the owner; no other key changes |
| Reconciler.GoServer.Delete | internal/controller/cubecluster_controller.go:389-393 | the key is absent afterwards unless the call is refused, and an absent object is no failure |
| Reconciler.GoServer.ApplyAll | internal/controller/cubecluster_controller.go:65-72 | performs the plan's calls up to and including the first that fails, that one only when it took effect |
| Reconciler.GoServer.DeleteAll | internal/controller/cubecluster_controller.go:382-395 | continues the plan with the deletions up to and including the first that fails |
| Reconciler.GoServer.Change | internal/controller/cubecluster_controller.go:65-75 | the whole plan in order, up to and including the first call that fails, and whether that was an apply or a deletion |
| Reconciler.GoServer.Reconcile | internal/controller/cubecluster_controller.go:52-97 | a rejected spec changes no object; otherwise the objects are those of the plan up to the first failing call, and Ready is reported exactly when no call failed, every workload has its replicas and the API answered 2xx |
| Reconciler.RunConverges | internal/controller/cubecluster_controller.go:52-97 | wherever a reconciliation with an idempotent apply stops, the calls that would still change their key are exactly those that would before and have not landed; no other key changes; a complete one repeats without effect |
| Reconciler.GoConverges | internal/controller/cubecluster_controller.go:52-97 | however a Go reconciliation ends, no managed key newly differs from desired and no other key changes; when no call failed none differs and a second one changes nothing |
| Reconciler.KopfServer.ApplyObject | python/cube_kopf/controller.py:45-70 | sets the owner, reads, then creates an object that the read did not find and merge-patches one that it found; when the object came or went between the two calls the second is refused |
| Reconciler.KopfServer.DeleteIfPresent | python/cube_kopf/controller.py:73-78 | the key is absent afterwards unless the call is refused, and an absent object is no failure |
| Reconciler.KopfServer.ApplyAll | python/cube_kopf/controller.py:227-228 | performs the plan's calls up to and including the first that fails, that one only when it took effect, for any results of the reads |
| Reconciler.KopfServer.DeleteAll | python/cube_kopf/controller.py:229-239 | continues the plan with the deletions up to and including the first that fails |
| Reconciler.KopfServer.Change | python/cube_kopf/controller.py:227-239 | the whole plan in order, up to and including the first call that fails, and whether that was an apply or a deletion |
| Reconciler.KopfServer.Reconcile | python/cube_kopf/controller.py:222-290 | as for Go, with Kopf's own acceptance, "not found" reported as a configuration problem and every other API failure reported not at all |
| Reconciler.DocumentHasKey | python/cube_kopf/resources.py:240-380 | the i-th desired document is addressed by the key of the i-th slot of the plan |
| Reconciler.KopfConverges | python/cube_kopf/controller.py:222-239 | from any store and wherever a Kopf reconciliation stops, no managed key newly differs from what its document makes of it and no other key changes; without a failure exactly the desired managed keys are left, each document merged into what was stored, and a second one changes nothing |
| Reconciler.KopfForgetsEarlierSpec | python/cube_kopf/controller.py:61-70 | after any edit, a change of mode included, nothing of the earlier spec is left on any store exactly when no Service annotation was dropped; after a change of mode the new topology is created afresh |
| Reconciler.DroppedAnnotationStays | python/cube_kopf/controller.py:61-70 | when an annotation was dropped there is a store on which the earlier spec still shows |
| Refinement.RanIsARun | internal/controller/cubecluster_controller.go:65-75 | what the reconciliation loops do to the objects is what a run of the transition system does to its store |
| Refinement.GoKeepsTopology | internal/controller/cubecluster_controller.go:52-97 | wherever a Go reconciliation stops and whatever mode it wants, every cluster that had a complete topology still has one |
| Refinement.KopfKeepsTopology | python/cube_kopf/controller.py:222-290 | the same of a Kopf reconciliation |
| GoStatus.ObservedGenerationAdvances | internal/controller/cubecluster_controller.go:397-414 | over every run of reconciliations, edits, re-reads and aborts, observedGeneration never decreases, never exceeds the generation and is never behind the generation whose spec was reconciled |
| GoStatus.GivenUpWritesNothing | internal/controller/cubecluster_controller.go:52-97 | after a reconciliation is given up the status stays as it is until another one has begun |
| GoStatus.StampCountsEditsBeforeLastRead | internal/controller/cubecluster_controller.go:397-414 | whatever edits and re-reads fall into a reconciliation, its status names the reconciled generation plus the number of edits before the last re-read, so it names the reconciled one exactly when there was none |
| GoStatus.SettledForAnother | internal/controller/cubecluster_controller.go:52-97 | objects that no call of one generation would change are so for another generation exactly when both ask for the same objects |
| GoStatus.ReadyStatusTellsTheTruth | internal/controller/cubecluster_controller.go:52-97 | in every run, when a Ready status is written no managed key differs from what the reconciled generation asks for, and the same holds of the generation it names exactly when that one asks for the same objects |
| GoStatus.ReadyStatusCanBeStale | internal/controller/cubecluster_controller.go:397-414 | for any two specs that ask for different objects, of which the first is accepted, there is a run that writes a Ready status naming the second over the objects of the first |
| GoStatus.ImageChangeGoesStale | internal/controller/cubecluster_controller.go:397-414 | a change of image is such a pair |
| KopfHandler.Handle | python/cube_kopf/controller.py:222-290 | the condition is True exactly when the report is ready, and its reason is that of the report; a rejected spec leaves False, InvalidConfiguration; an accepted one all of whose calls end well leaves False, Progressing while a workload lacks replicas, False, APIHealthCheckFailed when the API does not answer, and True, Available otherwise, and only then True; the status names the generation whose spec was reconciled, and when it says True no managed key differs from what that generation's documents make of it; a reconciliation that raises TemporaryError leaves the status as it was |
| KopfHandler.CallsEndWellOnTheirOwn | python/cube_kopf/controller.py:45-78 | all calls end well exactly when none fails on its own and each read before an apply finds what the store held when the reconciliation began |
| Status.KopfStatus.SetStatus | python/cube_kopf/controller.py:174-219 | the status names the reconciled generation and has one Ready condition, whose transition time is that of the first Ready condition found when status, reason and message are unchanged, and the current time otherwise |
| Status.TransitionTimeStartsBlock | python/cube_kopf/controller.py:174-219 | over every history, lastTransitionTime is the time of the first write of the block of equal verdicts the history ends with; failed reconciliations do not move it |
| Status.TransitionTimeIsAWrite | python/cube_kopf/controller.py:222-290 | such a block exists whenever a condition has been written |
| Status.Replay | python/cube_kopf/controller.py:174-219 | the histories are those of the method that writes the status: after any sequence of calls the Ready condition is the one of the history, and observedGeneration that of the last write |
| Spans.TrimmedToNothing | internal/telemetry/executions.go:77-85 | trimming leaves nothing exactly when every character is white space |
| Spans.Validate | internal/telemetry/executions.go:76-131 | accepts exactly the valid spans whatever the order in which required fields are visited, reports a blank field exactly when there is one, and otherwise the first rule that is broken |
| Spans.ValidInWords | internal/telemetry/executions.go:76-131 | a span is valid exactly when ten fields are not blank, its timestamps are set, in order, within retention and at most five minutes ahead, its status is one of three, nothing is negative, it is not its own parent, its kind is one of seven and has its detail (an artifact both its URI and its type), and only a model reports usage |
| Spans.WhiteSpaceInWords | internal/telemetry/executions.go:82-84 | the twenty-five characters that trimming removes |
| Spans.SamePayloadUpToOffsets | internal/telemetry/executions.go:180-181 | two spans are normalized to the same payload exactly when they differ at most in the offsets of their timestamps |
| Spans.YearInWords | internal/telemetry/executions.go:182-186 | the instants whose year has four digits, as the JSON encoding demands |
| Ingest.ExecutionApi.ServeHttp | internal/telemetry/executions.go:139-208 | 400 exactly for invalid requests, which change nothing; otherwise the normalized span is upserted unless storage failed, and an answered upsert gives 204 exactly when the stored row is the payload and 409 exactly when it is another |
| Ingest.ExecutionApi.PruneExpired | internal/telemetry/executions.go:249-256 | deletes exactly the rows that ended before the cutoff, unless the statement fails |
| IngestProtocol.HandlerInSteps | internal/telemetry/executions.go:176-207 | receiving and then storing a request within the deadline has the effect and the answer of the handler, so the protocol's runs are those of the handler |
| IngestProtocol.PruneInSteps | internal/telemetry/executions.go:249-256 | computing a cutoff and executing it later removes exactly the rows that ended before the cutoff of the earlier instant |
| IngestProtocol.GivenUpIsOver | internal/telemetry/executions.go:140-256 | a request that is given up is never stored and a prune that failed never executed, whatever follows without receiving the one anew or computing a cutoff |
| IngestProtocol.InvariantHolds | internal/telemetry/executions.go:139-208 | every step of the protocol keeps the invariant on requests under way, cutoffs, rows and accepted spans |
| IngestProtocol.StoredIsAccepted | internal/telemetry/executions.go:187-207 | in every state of every run there is one row for each event id, every row holds an accepted span, and among the spans no executed prune has expired the stored ones are exactly the accepted ones |
| IngestProtocol.StoredSpanStays | internal/telemetry/executions.go:188-193 | from any state and in every run, a row stays exactly as it was inserted unless a prune of that run executes with a cutoff after the span's end |
| IngestProtocol.RowStaysExactlyUntilPruned | internal/telemetry/executions.go:188-193 | as long as its id is not inserted anew, a row is there exactly until such a prune |
| IngestProtocol.RetryIsNeverAConflict | internal/telemetry/executions.go:187-207 | as long as no other payload uses the id, a retry is answered 204 and never 409, whatever became of earlier attempts and however much was pruned |
| IngestProtocol.RowsAreWithinDeadlineOfCutoffs | internal/telemetry/executions.go:140-140 | no row is older than the cutoff of an executed prune by more than the request deadline |
| IngestProtocol.OldRowsArePruned | internal/telemetry/executions.go:249-251 | a row is gone after the first executed prune that began more than retention and tolerance after its insertion |
| IngestProtocol.FreshStoresNeverRepeat | internal/telemetry/executions.go:176-197 | without prunes between validating and storing, no step inserts a span for the second time and no row is expired |
| IngestProtocol.RowsAreLiveExactly | internal/telemetry/executions.go:176-197 | in every run the rows are at every moment exactly the accepted spans that no executed prune has expired, if and only if no store inserts a span older than the cutoff of a prune already executed |
| IngestProtocol.NoResurrection | internal/telemetry/executions.go:176-197 | when every store is of a request validated no earlier than the executed prunes computed their cutoffs, no span is inserted twice in a whole run and the rows are exactly the accepted spans that are not expired |
| IngestProtocol.AtomicStoresAreFresh | internal/telemetry/executions.go:176-197 | were requests stored at the instant of their validation, the condition would hold of every run |
| IngestProtocol.AdmittedAreUnexpiredExactlyWhenFresh | internal/telemetry/executions.go:86-86 | validation keeps out everything that executed prunes have expired exactly when none of their cutoffs is later than validation's own |
| Resurrection.RepeatsNeedLatePrune | internal/telemetry/executions.go:176-197 | in every run, whenever a span is inserted once more, a prune computed a cutoff after its end between the validation and the storing of the request that inserted it, within the deadline |
| Resurrection.RetryInsertsAgain | internal/telemetry/executions.go:188-197 | from any state with a stored span and a retry under way, through any run that does not insert its id, storing the retry inserts the span again exactly when it is within the deadline and a prune of the run was due to remove the span |
| Resurrection.ResurrectionExactlyAfterLatePrune | internal/telemetry/executions.go:140-197 | after any run, a delivery, and any further run that leaves the retry alone, there is a span that the retry inserts again if and only if it is stored within its deadline and an executed prune computed its cutoff after the retry's validation |
| Resurrection.OnePruneResurrects | internal/telemetry/executions.go:140-197 | with one prune: a span can come back exactly when time passes between validation and cutoff and the retry is still stored within ten seconds |
| Resurrection.ResurrectionHappens | internal/telemetry/executions.go:176-197 | from any starting time and for any gap the deadline allows there is a run of the code as it is that inserts a pruned span again and leaves a row that an executed prune has expired |
| IngestProtocol.RowsAreSound | internal/telemetry/executions.go:92-129 | in every state of every run, every row is normalized and passes the part of validation that does not depend on the clock |
| Measures.OrderDoesNotMatter | demo/kind/model/AgentExecutions.yml:5-33 | counts, sums and the rows a filter selects do not depend on the order of the rows |
| Measures.OneMoreRow | demo/kind/model/AgentExecutions.yml:5-33 | what a row adds to each measure, by its columns: one to the count, one to runs for a run, one to failedRuns for a failed run, one to failedValidations for a failed validation, and its tokens and its cost to their sums |
| Measures.SummaryOfNothing | demo/kind/model/AgentExecutions.yml:5-33 | without rows every count and sum is zero and there is no average |
| Measures.AverageDivides | demo/kind/model/AgentExecutions.yml:20-24 | the average is null exactly when no row is a run, and otherwise the sum of the runs' durations divided by the number of runs |
| Measures.AverageIsMean | demo/kind/model/AgentExecutions.yml:20-24 | times the number of runs, the average is the sum of the runs' durations in milliseconds |
| Measures.AverageIsBetween | demo/kind/model/AgentExecutions.yml:20-24 | it lies between any bounds on the runs' durations, so it is d when every run lasts d |
| Measures.DurationInMilliseconds | internal/telemetry/executions.go:194-194 | a span's duration_ms, times a million, is the nanoseconds from its start to its end, where they fit 64 bits, and stops there otherwise |
| Measures.SummaryIgnoresOrder | demo/kind/model/AgentExecutions.yml:5-33 | with the measures as OneMoreRow and AverageIsMean give them, nor does any of the eight measures, the filtered average included |
| Measures.FirstDeliveryWins | internal/telemetry/executions.go:188-193 | whatever is delivered and however often, the first payload of each id is the one stored |
| Measures.OrderAndReplaysMatterOnlyForConflicts | internal/telemetry/executions.go:188-193 | the stored spans are the same for every order and every number of repeats of the deliveries exactly when no id comes with two payloads |
| Measures.MeasuresOfDistinctSpans | demo/kind/model/AgentExecutions.yml:5-33 | for conflict-free deliveries every measure is that of the plain set of distinct spans |
| Measures.UsageComesFromModelSpans | demo/kind/model/AgentExecutions.yml:25-33 | for any grouping of well-formed rows, tokens and cost over all rows are those over the model rows alone |
| Accounting.MeasuresOfUnexpiredRows | demo/kind/model/AgentExecutions.yml:5-33 | over every run whatsoever, every measure over the rows that no executed prune has expired is that of the set of accepted, unexpired spans |
| Accounting.MeasuresAreExactWithoutExpiredRows | demo/kind/model/AgentExecutions.yml:5-33 | over every run, the measures over all rows are those of the accepted, unexpired spans exactly when no stored row has expired |
| Accounting.MeasuresCanBeWrong | demo/kind/model/AgentExecutions.yml:5-33 | from any starting time and for any gap the deadline allows there is a run after which the measures over all rows, however read, are not those of the accepted, unexpired spans |
| Accounting.MeasuresOfAcceptedSpans | demo/kind/model/AgentExecutions.yml:5-33 | they are when no prune is computed between validating and storing |
| Accounting.UsageIsNeverCountedTwice | demo/kind/model/AgentExecutions.yml:25-33 | over every run whatsoever and any grouping, tokens and cost come from model rows alone |
| SpanProducer.Recorder.Span | demo/mcp_execution.py:29-38 | reads the clock once and appends one span that ends then, changing no earlier one |
| SpanProducer.Recorder.InSession | demo/mcp_execution.py:47-61 | records the tool span only when the call succeeded and the artifact span only when its result was written, and leaves the start of a call that began and did not succeed |
| SpanProducer.Recorder.Execute | demo/mcp_execution.py:21-67 | whatever raises, leaves exactly one run span, last; a tool span exactly when the call began; an artifact span exactly when it succeeded and was written; and a failed run exactly when anything raised, naming what was raised. The log of clock readings and actions is given in full: the run span lasts from the first reading to the last, the tool span from the reading just before the call to the next, the artifact span from the reading just before the write to the one just after it |
| SpanProducer.RunContainsOthers | demo/mcp_execution.py:27-67 | the run span contains the tool and the artifact span, and the tool has ended when the artifact is begun |
| SpanProducer.RecordedIdentities | demo/mcp_execution.py:29-35 | every span a run leaves carries the tenant, cluster, namespace, agent, tool and trace it was started with, its id and its run's id, and the run span as its parent |
| SpanProducer.RecordedDetails | demo/mcp_execution.py:36-68 | which kinds of spans a run leaves, what each says about tool, artifact and error, their statuses, and that nothing else is filled in |
| SpanProducer.IdsAndParents | demo/mcp_execution.py:29-35 | the spans of a run have distinct event ids, share the trace, and have the run span as their parent |
| SpanProducer.EmittedSpansAreValid | internal/telemetry/executions.go:76-131 | with nonblank options every recorded span passes the service's validation at any instant within retention and tolerance |
| Publisher.Interfere | internal/telemetry/executions.go:187-256 | requests of others, late copies and prunes keep the trace's rows the publisher's own and every settled span settled |
| Publisher.Client.Post | demo/mcp_execution.py:83-89 | sends the span once; the reply follows from what becomes of the POST and is never 409, since the stored row is the publisher's own; and 204 means that the span is settled |
| Publisher.Client.PublishOne | demo/mcp_execution.py:81-94 | at most five POSTs of one unchanged span; retries exactly transport errors and 503; the outcome is explained by the replies and is never a conflict |
| Publisher.Client.Publish | demo/mcp_execution.py:79-94 | nothing but the spans is POSTed, none more than five times; the outcome is never a conflict; it succeeds exactly when every span is acknowledged in time, otherwise with the outcome of the first that is not; and after success every span is stored unless pruning has expired it |
| Publisher.RowsOfTheTrace | demo/mcp_execution.py:79-94 | after success the unexpired rows of the trace are exactly the spans, one row each |
| Publisher.TracePassesExactlyWhenStored | demo/mcp_execution.py:111-120 | whatever has been pruned, the trace's rows in any order pass the check if and only if every span is still stored |
| Publisher.PrunedTraceFails | demo/mcp_execution.py:111-120 | a prune that is due to remove one of the spans makes the check fail, however the rows are read |
| Publisher.PublishedTracePasses | demo/mcp_execution.py:111-120 | in particular they pass while none of the published spans has expired |
| Checker.LastById | demo/mcp_execution.py:111-111 | the dictionary maps each id to its last row, and there is none when a row has no id |
| Checker.CompareMembers | demo/mcp_execution.py:117-119 | finds no mismatch exactly when all six members agree, an absent field of the event reading as the empty string |
| Checker.CheckRows | demo/mcp_execution.py:111-120 | passes exactly when the id sets and the lengths agree and the last row of every event's id is that event; then every event has a row with its eventId, parentId, kind, status, tool and artifactUri, each under its own name, and for distinct ids and as many rows that is enough; otherwise the problem is the first in the order of the code |
| Checker.CubeRowsAreViews | demo/kind/model/AgentExecutions.yml:34-94 | the row that Cube returns for a stored span, dimension by dimension, is the one that the checker expects of it |
| Checker.Pigeonhole | demo/mcp_execution.py:112-115 | there are as many ids as rows exactly when no id comes twice, which is what the length test is for |
| Checker.PassesExactlyForPermutations | demo/mcp_execution.py:111-120 | for events with distinct ids the check passes exactly when the rows are a permutation of the events |
| Checker.ExactOnlyForDistinctIds | demo/mcp_execution.py:111-120 | and it is exact in this sense only for events with distinct ids |
| Checker.QueryAndCheck | demo/mcp_execution.py:102-121 | the first answer other than "Continue wait" within twenty decides, and it is returned exactly when its rows pass |
| EndToEnd.RecordedSpansArePublished | demo/mcp_execution.py:79-94 | a recorded span is published exactly when one of its five POSTs is acknowledged: 503 and transport errors on either side of the commit make no difference and the service never turns it down |
| EndToEnd.RecordedTraceVerifies | demo/mcp_execution.py:96-121 | once the spans of a run are published, and while no prune cutoff has passed the run's start, its rows in any order pass the check, one row for each span |
| EndToEnd.PublishAndVerify | demo/mcp_execution.py:73-121 | whatever else reaches the service before and between the queries, prunes included: published spans are verified exactly when Cube's first definite reply is the rows of the trace and every span is still stored by then; an HTTP error, a rejection and twenty times "Continue wait" are each told apart |
| EndToEnd.RunPublishVerify | demo/mcp_execution.py:124-155 | the whole program: whatever the run raises it is recorded, with every span's start and end at the reading of the clock that it belongs to; while the service's clock is near the run's it is published exactly when each span is acknowledged within five POSTs; and it is verified exactly when Cube's first definite reply is its rows and every span is still stored by then, as every span is while no prune cutoff has passed the run's start |

## Left out

- HTTP serving, TLS, the comparison of bearer tokens, request routing and JSON decoding: a request arrives as a decoded span or as nothing; the size limit and unknown fields are among the latter.
- PostgreSQL and pgx: the upsert and the delete are one atomic step each. Payloads are compared as records, timestamps are integers (the column keeps microseconds), and a NUL character, which the column refuses, is a failing statement.
- Numbers: cost and durations are exact reals, not floating point; 32-bit and 64-bit fields are unbounded integers, since the API's schema and the JSON decoder keep them in range; only the saturation of a duration is modelled.
- No statement is assumed to commit after the ten-second deadline of its request.
- Kopf's read before a create or a patch has no step of its own in `Interleaving`: `KopfServer.ApplyObject` has both calls, and a change in between makes the second one a refused call, which `Interleaving` allows for.
- A call that reaches the API server after the process that sent it has crashed and another reconciliation has begun: it could delete a topology applied meanwhile.
- Server-side apply's field managers, informer caches, the work queue, leader election and the retries on a conflict: Go's apply makes what the operator owns of an object the desired one, and a stale or failed read is a failing call.
- Running the Go and the Kopf controller on one cluster at once, deletion of managed objects by others and garbage collection by owner reference: excluded, as the project's documentation forbids the first and the others are not actions of the controllers.
- Reads that fail with an error other than "not found" while Kopf validates: Kopf then retries without a status.
- The cache of resource clients that the Kopf controller keeps.
- The text of status messages, the endpoint and the transition time that a library function keeps for the Go controller.
- Spec fields whose value is null in Kopf: an absent field and a null one are not told apart, except for the mode.
- The object builders in Go and in Python are functions on values here, except the loops of StorageConfiguration and FillWorkerAddresses; that they append to local lists and update local dictionaries is not modelled.
- SpanProducer: a run cancelled by an exception outside Exception records nothing and is not modelled; the MCP session, its subprocess and the file system are outcomes given in advance.
- Creating the output directory and writing the file of spans, which lie outside the runner's try block: both are assumed to succeed.
- Publisher: the pauses between attempts and the client's timeout; a late copy of a POST is among the interference.
- Checker: Cube's query engine; the rows are assumed to be the table's rows of the trace, within the query's limit of 100.
- The inventory collector, the demonstration fixture, the OLM bundle, Terraform and the manifests.
