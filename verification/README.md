# OpenSandbox: allocation, tasks, runtime bookkeeping and egress

This project models four stateful parts of OpenSandbox and proves what they
keep over whole runs.

* **Pool controller.** `PoolAllocator` is one allocation round: a class that
  mutates the pool map, the inverse index and the supplement as `Schedule`
  does, proved against a specification that does not mention iteration order.
  `PoolRuns` puts rounds into runs with sandboxes that come, grow, release and
  go, and proves that live pods are never shared. `PoolDemand` says when the
  slice in `doAllocate` is in range. `PoolScaling` is the clamped arithmetic of
  the scaler, its fixpoints and the termination of a rolling update, and
  `PoolSafety` puts allocation and scaling together.
* **Task scheduler.** `TaskScheduler` holds the task nodes as objects and the
  round as a function; the per-node work is done in an arbitrary order.
  `TaskRuns` proves exclusivity, release causes and cleanup over runs.
* **BatchSandbox controller.** `BatchScaling` (names, indices, creation) and
  `PodOrder` (the comparator, the endpoint list).
* **Docker runtime.** `SandboxRuntime` is the class with reference counts,
  timers and the two-pass restore. `ExpirationRuns` and `MountRuns` prove the
  expiration and the mount invariant over the same event model.
* **Egress.** `EgressPolicy` (normalization, first match, PATCH merge),
  `NftRuleset` (the script, a transactional interpreter, the meaning of the
  chain) and `PolicyServer` (handlers, runs, proxy and nft in step).

## Conventions

Methods follow the loops and field updates of the code and are proved against
functions on values; runs are sequences of events over those values. Effects
outside the process (API calls, Docker, mounts, nft, DNS answers, address
parsing) are parameters that work or fail. Every listing order and every map
iteration order is arbitrary.

## Where the code departs from its promise

Each has an exact condition, proved for all inputs, and a concrete input or
run that starts from the empty system.

* A released pod that is offered again can end with two live owners, because
  a release deletes map entries by pod name: ownership is lost in one
  reconcile and the pod is shared by a later one (`OwnershipKeptIffSafe`,
  `ExclusiveKeptIff`, `ReofferedPodIsShared`).
* Annotations are written before the pool map; a map that is not persisted
  shares pods (`UnpersistedKeepsOwnershipIff`, `UnpersistedMapIsShared`).
* A sandbox that holds more pods than replicas makes the round panic
  (`PanicsIffOverfull`, `FitsIffSteady`, `ShrunkSandboxPanics`); the panic comes
  before any write.
* With inverted pool limits a second reconcile can move the pool again, and
  some pools never come to rest (`SettlesIffLimits`, `RestsIffNoFight`,
  `SwingingPoolNeverRests`).
* A released task node returns to releasing on a late report, after a stop and
  also after a completion under Release (`ReleasedStaysIff`,
  `ReleasedCanReturn`, `CompletedCanReturn`).
* The key of a PATCH rule is taken before trimming, so one address can keep
  two actions (`OneActionPerAddressIff`, `BlankHidesTheAddress`).
* The default action is not checked; any third value is forwarded by the proxy
  and dropped by nft (`DefaultsAgreeIff`, `ThirdDefaultSplits`).
* Mounts are released even when the container was not removed, again for a
  container left behind by a failed start, and again by a late callback with
  cached keys; a restart whose listing fails forgets all counts (`StepIff`;
  `FailedDeleteUnmountsInUse`, `LeftoverUnmountsInUse`,
  `LateCallbackUnmountsInUse`, `BlindRestartUnmountsInUse`).
* A renewal whose label update fails is forgotten by a restart
  (`RestartKeepsTimeIff`, `StaleLabelExpiresEarly`).
* A callback or delete whose removal fails drops the tracking and nothing tries
  again (`WatchedIff`, `FailedRemovalIsForgotten`).

The comment above `mergeEgressRules` says the last writer wins; the code lets
the first rule of the patch win, and so does the model.

## Model

| member | source | states |
|---|---|---|
| PoolAllocator.Schedule | kubernetes/internal/controller/allocator.go:217-252 | A round ends, for every Go map order, with the stored map plus the new segments, minus processed releases, minus pods of unlisted owners; the supplement is max(0, total need - available); the dirty flag and the annotations written are exact; it panics exactly when a need is negative, before anything is written |
| PoolAllocator.CollectAvailable | kubernetes/internal/controller/allocator.go:223-232 | Available pods are the running pods the stored map does not mention, in listing order |
| PoolAllocator.AvailableInOrder | kubernetes/internal/controller/allocator.go:223-232 | The available names stand in the order of the pods |
| PoolAllocator.AllocationRound.BuildIndex | kubernetes/internal/controller/allocator.go:233-237 | The inverse index lists every owner's pods, each once, whatever the iteration order |
| PoolAllocator.AllocationRound.Allocate | kubernetes/internal/controller/allocator.go:266-287 | Serving the sandboxes in turn reaches the planned map, index, annotations and supplement, or panics exactly when some need is negative |
| PoolAllocator.AllocationRound.DoAllocate | kubernetes/internal/controller/allocator.go:289-332 | One sandbox: skipped while deleting, refused on a malformed annotation, panics on a negative need, otherwise served min(need, available) pods after its unsynced ones, with the index entry overwritten |
| PoolAllocator.AllocationRound.DoDeallocate | kubernetes/internal/controller/allocator.go:367-391 | Release-listed pods leave the map by name, whoever owns them, if the sandbox has an index entry |
| PoolAllocator.AllocationRound.ReleaseListed | kubernetes/internal/controller/allocator.go:334-350 | The release lists of all listed sandboxes are removed from the map and nothing else |
| PoolAllocator.AllocationRound.CollectGarbage | kubernetes/internal/controller/allocator.go:351-365 | Pods of index entries without a listed sandbox leave the map, exactly those of unlisted owners, although listed entries were overwritten |
| PoolAllocator.AllocationRound.Deallocate | kubernetes/internal/controller/allocator.go:334-365 | Both halves of deallocation together, with an exact flag |
| PoolAllocator.TakenIsGreedy | kubernetes/internal/controller/allocator.go:305-320 | What the first k sandboxes take is min(their total need, available) |
| PoolAllocator.SupplementIsShortfall | kubernetes/internal/controller/allocator.go:305-313 | The unmet demand is max(0, total need - available) |
| PoolAllocator.SegmentIs | kubernetes/internal/controller/allocator.go:305-320 | Assignments are consecutive segments of the available list, each of size min(need, what is left) |
| PoolAllocator.ShortServiceIsLast | kubernetes/internal/controller/allocator.go:266-332 | Once a sandbox is served short, every later one gets nothing |
| PoolAllocator.SegmentsSeparate | kubernetes/internal/controller/allocator.go:266-332 | No pod lies in two segments and all are available pods |
| PoolAllocator.AssignedOwner | kubernetes/internal/controller/allocator.go:321-326 | Each pod of a segment is mapped to that segment's sandbox |
| PoolAllocator.FinalAllocationIs | kubernetes/internal/controller/allocator.go:233-252 | Pod by pod: who is in the final map and with which owner; owners are listed sandboxes |
| PoolAllocator.CleanMeansUnchanged | kubernetes/internal/controller/allocator.go:239-252 | A false pool-dirty flag means an unchanged map |
| PoolAllocator.PoolDirtyIff | kubernetes/internal/controller/allocator.go:239-246 | The pool is dirty if and only if a pod was handed out, a non-empty release list was processed, or an owner is no longer listed |
| PoolRuns.ReconcileOnce | kubernetes/internal/controller/pool_controller.go:143-178 | The controller's reconcile through the allocator is a step of the run model; a clean round persists nothing and loses nothing |
| PoolRuns.OwnershipKeptIffSafe | kubernetes/internal/controller/allocator.go:367-391 | A reconcile, whichever annotation patches are lost, keeps every live pod owned if and only if each pod handed out that a processed release list strikes had its annotation lost too or is already released by its receiver |
| PoolRuns.ExclusiveKeptIff | kubernetes/internal/controller/allocator.go:289-332 | A reconcile, persisted or not and whichever patches are lost, keeps live sets disjoint if and only if no sandbox is told of an unreleased pod that is live in another |
| PoolRuns.OwnedIsNotShared | kubernetes/internal/controller/allocator.go:289-332 | While every live pod is owned no single reconcile shares one: ownership is lost a step before exclusivity |
| PoolRuns.SafeReconcileKeepsInv | kubernetes/internal/controller/allocator.go:410-432 | Lost annotation patches do no harm: the next round repairs them from the pool map |
| PoolRuns.ListsOnlyGrow | kubernetes/internal/controller/allocator.go:302-326 | A reconcile only appends to a sandbox's list, so the position of a pod in it never changes |
| PoolRuns.ReofferingNothingIsSafe | kubernetes/internal/controller/allocator.go:374-386 | If nothing offered is on a release list, the guard holds |
| PoolRuns.UnpersistedKeepsOwnershipIff | kubernetes/internal/controller/pool_controller.go:164-178 | A reconcile whose map is not persisted keeps every live pod owned if and only if each newly assigned pod's annotation was lost as well or its receiver already lists it as released |
| PoolRuns.StepKeepsInv | kubernetes/internal/controller/batchsandbox_controller.go:427-458 | Create, resize, mark, remove, release and guarded reconcile steps, persisted or not, keep ownership and foreign-release freedom |
| PoolRuns.RunsAreExclusive | kubernetes/internal/controller/pool_controller.go:143-178 | Over every run from an empty cluster the live pods of two sandboxes are disjoint and each is owned by its sandbox in the pool map |
| PoolCounterexamples.ReofferedPodIsShared | kubernetes/internal/controller/allocator.go:378-381 | A run from the empty cluster in which a re-offered released pod ends with two live owners |
| PoolCounterexamples.UnpersistedMapIsShared | kubernetes/internal/controller/pool_controller.go:164-178 | A run from the empty cluster in which the map is not persisted after the annotations were written, and a pod is shared |
| PoolCounterexamples.ShrunkSandboxPanics | kubernetes/internal/controller/allocator.go:305-320 | A run from the empty cluster, create, reconcile and resize to none, after which the next reconcile slices out of range |
| PoolDemand.PanicsIffOverfull | kubernetes/internal/controller/allocator.go:305-320 | The slice goes out of range if and only if some sandbox holds more pods than it has replicas |
| PoolDemand.FitsIffSteady | kubernetes/internal/controller/allocator.go:305-320 | A step keeps all sandboxes within their replicas if and only if it neither shrinks replicas below what is held nor reuses a name that still owns too much |
| PoolDemand.SteadyRunsNeverPanic | kubernetes/internal/controller/allocator.go:305-320 | On every steady run no reconcile slices out of range |
| PoolScaling.IdleNames | kubernetes/internal/controller/pool_controller.go:298-315 | Idle names are the pods outside the resulting allocation, each once |
| PoolScaling.UpdatePool | kubernetes/internal/controller/pool_controller.go:317-341 | Idle pods split exactly by revision; each outdated one asks for one replacement |
| PoolScaling.Resolve | kubernetes/internal/controller/pool_controller.go:432-452 | Names become their pods, each once; unknown names are skipped |
| PoolScaling.SortByCreation | kubernetes/internal/controller/pool_controller.go:432-467 | Candidates are permuted into creation order |
| PoolScaling.PickPodsToDelete | kubernetes/internal/controller/pool_controller.go:432-467 | All redundant pods, then the oldest idle ones up to the surplus |
| PoolScaling.ScalePool | kubernetes/internal/controller/pool_controller.go:353-404 | The decision a reconcile takes: grow to the desired size, or delete all outdated idle pods and the oldest surplus; the rows that follow say what size that is |
| PoolScaling.DemandIsMet | kubernetes/internal/controller/pool_controller.go:369-380 | Demand that idle pods do not meet, and one pod per outdated idle one, make the pool at least that much larger than the allocation, up to poolMax |
| PoolScaling.CreatesExactlyTheExtra | kubernetes/internal/controller/pool_controller.go:375-388 | With buffer and size within their limits exactly those pods are created |
| PoolScaling.BufferIsKept | kubernetes/internal/controller/pool_controller.go:369-402 | A buffer within its limits is kept as far as the pool's limits allow, with the exact numbers created and deleted |
| PoolScaling.BufferIsRestored | kubernetes/internal/controller/pool_controller.go:369-402 | A buffer outside its limits is brought to their middle as far as the pool's limits allow, with the exact numbers created and deleted |
| PoolScaling.DeletesOnlyIdle | kubernetes/internal/controller/pool_controller.go:390-402 | No pod of the resulting allocation is deleted; the number deleted is exact; creation and deletion exclude each other |
| PoolScaling.SizeAfter | kubernetes/internal/controller/pool_controller.go:353-404 | The pool's size after one reconcile in every branch |
| PoolScaling.SettlesIffLimits | kubernetes/internal/controller/pool_controller.go:353-388 | Every pool settles after one reconcile if and only if poolMin <= poolMax, or bufferMax <= bufferMin, or poolMin <= bufferMin |
| PoolScaling.RestsIffNoFight | kubernetes/internal/controller/pool_controller.go:353-388 | Every pool comes to rest at some point if and only if the limits do not fight: poolMax < poolMin, bufferMin < bufferMax, and (bufferMin + bufferMax) / 2 < poolMin or bufferMin <= poolMax |
| PoolScaling.SwingsForEver | kubernetes/internal/controller/pool_controller.go:353-388 | A pool that returns to its size after two reconciles and not after one alternates between two sizes for ever |
| PoolScaling.CalmRunSizes | kubernetes/internal/controller/pool_controller.go:353-404 | Every run of reconciles of a calm pool, as sets of pods, has the sizes of this arithmetic |
| PoolScaling.SwingingPoolNeverRests | kubernetes/internal/controller/pool_controller.go:353-404 | An endless run of pod sets, one idle pod deleted and one created in turn, for the limits bufferMin 0, bufferMax 2, poolMin 2, poolMax 1 |
| PoolScaling.SettledSize | kubernetes/internal/controller/pool_controller.go:376-388 | With ordered limits the settled size lies between poolMin and max(poolMax, allocated) |
| PoolScaling.SecondReconcileIsIdle | kubernetes/internal/controller/pool_controller.go:353-404 | The second reconcile of a calm pool creates and deletes nothing |
| PoolScaling.RollingStep | kubernetes/internal/controller/pool_controller.go:317-404 | A reconcile with outdated idle pods removes them all or strictly raises the total below the ceiling |
| PoolScaling.RollingTerminates | kubernetes/internal/controller/pool_controller.go:317-404 | No outdated idle pod is left after max(0, ceiling - total) + 1 reconciles while none is returned |
| PoolScaling.ReconcilePool | kubernetes/internal/controller/pool_controller.go:143-212 | Allocation and scaling composed: nothing in the resulting allocation is deleted |
| PoolSafety.ReconcileCluster | kubernetes/internal/controller/pool_controller.go:143-212 | A reconcile of a cluster that meets the guard keeps the run invariant, scales by the exact shortfall, and deletes no pod that is live for any sandbox |
| PoolSafety.RunsDeleteNoLivePod | kubernetes/internal/controller/pool_controller.go:390-402 | Over every guarded run no reconcile deletes a pod that is live for any sandbox |
| TaskScheduler.TaskNode.Recover | kubernetes/internal/scheduler/recovery.go:72-80 | A recovered node takes the reported task's address, pod and states |
| TaskScheduler.TaskNode.Observe | kubernetes/internal/scheduler/default_scheduler.go:258-278 | A report replaces the node's status and task state; no report clears the status |
| TaskRuns.AssignIsExclusive | kubernetes/internal/scheduler/default_scheduler.go:359-374 | Binding gives each waiting node a pod that no node holds, and different nodes different pods |
| TaskRuns.AssignIsInOrder | kubernetes/internal/scheduler/default_scheduler.go:359-374 | Waiting nodes are served in order, each with a free pod after the one of the node before it |
| TaskRuns.FreePodsInOrder | kubernetes/internal/scheduler/default_scheduler.go:340-357 | Free pods stand in the order of the pod list |
| TaskScheduler.TaskNode.Schedule | kubernetes/internal/scheduler/default_scheduler.go:387-424 | One node's new state and its calls, whether or not the calls succeed |
| TaskScheduler.Scheduler.constructor | kubernetes/internal/scheduler/default_scheduler.go:174-198 | A new scheduler holds fresh nodes with every reported task read back |
| TaskScheduler.Scheduler.RecoverNodes | kubernetes/internal/scheduler/recovery.go:37-70 | All pods with an address are asked, and each reported task goes to the node of its name |
| TaskRuns.ReportedIsRecovered | kubernetes/internal/scheduler/recovery.go:37-80 | A node whose task is reported holds, after recovery, the last pod that reports it, its address, status and state, and is releasing if the task is being deleted |
| TaskRuns.UnreportedStartsFresh | kubernetes/internal/scheduler/recovery.go:37-80 | A node whose task no endpoint reports starts fresh |
| TaskRuns.NewPodsAreListed | kubernetes/internal/scheduler/default_scheduler.go:214-216 | Whatever pod list is installed, an operation leaves a node the pod it had or gives it one of the current list |
| TaskScheduler.Scheduler.StopTask | kubernetes/internal/scheduler/default_scheduler.go:226-236 | Every node is marked stopping and nothing else changes |
| TaskScheduler.Scheduler.CollectTaskStatus | kubernetes/internal/scheduler/default_scheduler.go:258-278 | Statuses are refreshed for all nodes with an address, or for none when no node has one |
| TaskScheduler.Scheduler.RefreshFreePods | kubernetes/internal/scheduler/default_scheduler.go:340-357 | Free pods are those with an address that no node holds, in order |
| TaskScheduler.Scheduler.AssignTaskNodes | kubernetes/internal/scheduler/default_scheduler.go:359-374 | Waiting nodes and free pods are paired in order; the rest of the list is returned |
| TaskScheduler.Scheduler.ScheduleTaskNodes | kubernetes/internal/scheduler/default_scheduler.go:317-335 | Every completion order of the per-node work gives the same nodes and the same calls |
| TaskScheduler.Scheduler.Schedule | kubernetes/internal/scheduler/default_scheduler.go:208-212 | A whole round as a function of nodes, pods and reports; each endpoint is told its task if and only if its node ends the round bound there, is not stopping and its task is not over, and to clear if and only if it reports a task and the node is releasing or wanted gone, each once |
| TaskScheduler.RoundTells | kubernetes/internal/scheduler/default_scheduler.go:387-424 | These calls, for every node, from the nodes before the round, the reports and the policy |
| TaskRuns.RunningNodesAreTold | kubernetes/internal/scheduler/default_scheduler.go:397-408 | After every round of every run each bound node that is neither stopping nor over has been told its task |
| TaskScheduler.TaskStates | kubernetes/internal/scheduler/default_scheduler.go:280-315 | Which reports mean running, succeeded, failed and over, field by field |
| TaskRuns.RunsAreExclusive | kubernetes/internal/scheduler/default_scheduler.go:208-236 | From recovery through every run of operations no two nodes hold the same pod |
| TaskRuns.NodesMoveOn | kubernetes/internal/scheduler/default_scheduler.go:340-374 | A bound node keeps its pod, stopping is never undone, and a release never goes back to the initial state |
| TaskRuns.RoundUsesFreePods | kubernetes/internal/scheduler/default_scheduler.go:340-374 | After a round no pod with an address is free or every node has one |
| TaskRuns.ReleasedOnlyWithCause | kubernetes/internal/scheduler/default_scheduler.go:376-424 | A node is releasing or released only if earlier in the run there was a stop, under Release a report at its address that parses to completed, or a report at recovery of a task of its name being deleted |
| TaskRuns.ClearedOnlyWithCause | kubernetes/internal/scheduler/default_scheduler.go:405-424 | A task is told to clear only for such a cause |
| TaskRuns.RetainKeepsPods | kubernetes/internal/controller/batchsandbox_controller.go:361-399 | Under Retain no pod reaches the release annotation before the tasks are stopped |
| TaskRuns.RoundReleasesIff | kubernetes/internal/scheduler/default_scheduler.go:387-424 | For every node, exactly when a round leaves it released: with a report, if it was and nothing asks for its release again; without one, as soon as anything does or did |
| TaskRuns.RoundStateIs | kubernetes/internal/scheduler/default_scheduler.go:387-424 | The state a round leaves every node in: releasing or wanted gone becomes releasing while a task is reported and released once none is; any other state is kept |
| TaskRuns.ReleasedStaysIff | kubernetes/internal/scheduler/default_scheduler.go:376-396 | A released node stays released if and only if no task is reported, or one that neither a stop nor the Release policy wants gone |
| TaskRuns.StopThenSilentRound | kubernetes/internal/controller/batchsandbox_controller.go:222-243 | Cleanup is finished after one round if and only if no bound endpoint reports a task |
| TaskRuns.ReleasedCanReturn | kubernetes/internal/scheduler/default_scheduler.go:84-97 | A run from recovery, bind, stop, silent round, late report, in which a released node goes back to releasing |
| TaskRuns.CompletedCanReturn | kubernetes/internal/scheduler/default_scheduler.go:376-396 | The same under Release without any stop, for a task that completed |
| TaskRuns.PodsToRelease | kubernetes/internal/controller/batchsandbox_controller.go:361-391 | The pods handed to the release annotation are those of released nodes |
| TaskRuns.HeldPodsWereListed | kubernetes/internal/scheduler/default_scheduler.go:340-374 | A node holds only pods the sandbox was given at some point |
| BatchScaling.AtoiItoa | kubernetes/internal/controller/batchsandbox_controller.go:529-538 | Reading a written index gives it back |
| BatchScaling.ParseInvertsFormat | kubernetes/internal/controller/batchsandbox_controller.go:529-538 | parseIndex inverts the name-index format for every base name, with or without the label |
| BatchScaling.NamesDiffer | kubernetes/internal/controller/batchsandbox_controller.go:517-519 | The name is base name, dash and decimal index, and two pods share a name only if base name and index are the same |
| BatchScaling.IndexIsRead | kubernetes/internal/controller/batchsandbox_controller.go:529-538 | The index is the number in the label, without a label the one after the last dash, and without a dash none |
| BatchScaling.AtoiIff | kubernetes/internal/controller/batchsandbox_controller.go:529-538 | A number is read if and only if the text is an optional sign and digits whose value fits |
| BatchScaling.IndicesAre | kubernetes/internal/controller/batchsandbox_controller.go:463-473 | The indices there are those the pods are read to have |
| BatchScaling.MissingIs | kubernetes/internal/controller/batchsandbox_controller.go:483-490 | The indices to create are exactly those below the replicas without a pod, each once |
| BatchScaling.ScaleBatch | kubernetes/internal/controller/batchsandbox_controller.go:461-527 | Nothing is created if a pod's index cannot be read; otherwise pods are created for the missing indices in order, every creation made worked, and if indices are left over the next creation failed; if every creation works the reconcile is complete |
| BatchScaling.RetryCreatesTheRest | kubernetes/internal/controller/batchsandbox_controller.go:461-527 | After a partial creation the next reconcile creates exactly the rest |
| BatchScaling.ScalingIsComplete | kubernetes/internal/controller/batchsandbox_controller.go:461-527 | After a complete one every index has a pod and a repeat creates none |
| PodOrder.MultiSort | kubernetes/internal/utils/pod.go:207-216 | The composed sorter returns the first non-zero answer |
| PodOrder.ComparePods | kubernetes/internal/controller/batchsandbox_controller.go:151-154 | The sorter Reconcile builds is index first, then name |
| PodOrder.CompareIsTotal | kubernetes/internal/utils/pod.go:177-205 | Index-then-name is a total order: equal exactly for equal names, antisymmetric and transitive |
| PodOrder.SortedMeans | kubernetes/internal/utils/pod.go:177-205 | Sorted means: ascending indices, pods without an index last, names ascending among equals |
| PodOrder.LessIff | kubernetes/internal/utils/pod.go:177-184 | Names are ordered by the first character that differs, a name before its extensions |
| PodOrder.SortedUnique | kubernetes/internal/utils/pod.go:177-216 | Pods with distinct names have one sorted arrangement |
| PodOrder.SortIgnoresListing | kubernetes/internal/controller/batchsandbox_controller.go:151-154 | Permutations of the same pods sort to the same sequence |
| PodOrder.CalPodIndex | kubernetes/internal/controller/batchsandbox_controller.go:250-272 | The index map comes from allocation positions in pooled mode and from parsed indices otherwise, failing if one cannot be read |
| PodOrder.AllocationIndexIs | kubernetes/internal/controller/batchsandbox_controller.go:253-260 | In pooled mode the index of a name is its last position in the allocation |
| PodOrder.ParsedIndexIgnoresListing | kubernetes/internal/controller/batchsandbox_controller.go:262-270 | The parsed index map does not depend on listing order |
| PodOrder.Status | kubernetes/internal/controller/batchsandbox_controller.go:162-180 | The status counters and the endpoint list of the sorted pods |
| PodOrder.PlacedCount | kubernetes/internal/controller/batchsandbox_controller.go:162-171 | The allocated counter is the number of placed pods |
| PodOrder.ReadyCount | kubernetes/internal/controller/batchsandbox_controller.go:172-174 | The ready counter is the number of ready pods |
| PodOrder.ListPooled | kubernetes/internal/controller/batchsandbox_controller.go:274-303 | Active names that still have a pod are fetched in walking order |
| PodOrder.PooledEndpointsIgnoreOrder | kubernetes/internal/controller/batchsandbox_controller.go:274-303 | In pooled mode the endpoint list is the same for every order in which the set of active pods is walked |
| PodOrder.PooledEndpointsAre | kubernetes/internal/controller/batchsandbox_controller.go:151-180 | In pooled mode the pods behind the endpoint list are, in allocation order, those allocated, not released and still there |
| PodOrder.OwnedEndpointsIgnoreOrder | kubernetes/internal/controller/batchsandbox_controller.go:305-318 | Without a pool it is the same for every listing order |
| PodOrder.OwnedEndpointsAscend | kubernetes/internal/controller/batchsandbox_controller.go:151-180 | Without a pool the endpoints come in ascending order of the pods' own indices |
| EgressPolicy.NormalizePolicy | components/egress/pkg/policy/policy.go:111-144 | A policy is rejected exactly when some rule has an unsupported action or an empty target; otherwise each rule is trimmed, lower-cased and classified |
| EgressPolicy.ValidRuleIff | components/egress/pkg/policy/policy.go:117-130 | A rule is usable if and only if its action is missing, allow or deny in any case, and its target is not blank |
| EgressPolicy.ActionsAre | components/egress/pkg/policy/policy.go:112-123 | A missing action is deny; the two actions are recognized in any case and with white space around them |
| EgressPolicy.TrimIs | components/egress/pkg/policy/policy.go:119-127 | Trimming takes white space, and all of it, from both ends |
| EgressPolicy.NormalizedIsNormal | components/egress/pkg/policy/policy.go:111-144 | Normalizing a stored policy again changes nothing |
| EgressPolicy.Evaluate | components/egress/pkg/policy/policy.go:78-98 | The loop returns the decision of the first domain rule that matches, else the default |
| EgressPolicy.FirstMatchIsFirst | components/egress/pkg/policy/policy.go:84-93 | That rule has no matching domain rule before it, and no decision means no match |
| EgressPolicy.DefaultDecides | components/egress/pkg/policy/policy.go:94-97 | Without a matching rule the default decides, and without a default the answer is deny |
| EgressPolicy.NamesAreDecidedAlike | components/egress/pkg/policy/policy.go:82-83 | Names that differ in case only, or in a final dot, are decided alike |
| EgressPolicy.PlainCoversItself | components/egress/pkg/policy/policy.go:213-229 | A pattern that is no wildcard covers its own name and nothing else |
| EgressPolicy.WildcardCoversBelow | components/egress/pkg/policy/policy.go:213-229 | A wildcard covers exactly the names below the zone and never the zone |
| EgressPolicy.MergeEgressRules | components/egress/policy_server.go:306-332 | Merging is the patch followed by the old rules, without rules whose key occurred before |
| EgressPolicy.SameKeyIff | components/egress/policy_server.go:334-340 | Two rules have the same key if and only if their targets, as sent, differ at most in case |
| EgressPolicy.DedupeKeepsMeaning | components/egress/policy_server.go:306-340 | Dropping repeated keys changes no decision for any name |
| EgressPolicy.PatchKeepsFirstMatch | components/egress/policy_server.go:240-251 | For every name the merged, re-normalized policy decides as patch rules followed by old rules do, with the old default |
| EgressPolicy.PatchWinsPerKey | components/egress/policy_server.go:306-332 | Each key has exactly one rule after a PATCH: the patch's first if it names the key, else the stored one |
| EgressPolicy.OneActionPerAddressIff | components/egress/policy_server.go:306-340 | Each address and prefix has one action after a PATCH if and only if its spellings, each at its first use in the patch and then the stored rules, ask for the same action |
| EgressPolicy.OneRulePerAddressIff | components/egress/policy_server.go:334-340 | Each address and prefix has one rule after a PATCH if and only if patch and stored rules spell it in one way |
| EgressPolicy.BlankHidesTheAddress | components/egress/policy_server.go:334-340 | For every text of an address or prefix, a stored deny survives a patch that allows the same text after a blank, and the target has both actions |
| NftRuleset.StaticIPSets | components/egress/pkg/policy/policy.go:168-211 | Address rules are split by verdict and family, in order; any action but allow counts as deny |
| NftRuleset.ElementCovers | components/egress/pkg/policy/policy.go:172-206 | The element written for a target covers exactly what the target names: an address itself, a prefix the addresses from its first one up to its size |
| NftRuleset.BlockExtremes | components/egress/pkg/policy/policy.go:190-206 | A prefix of length 0 names its whole family, one of full length a single address |
| NftRuleset.BucketCovers | components/egress/pkg/policy/policy.go:168-211 | An address is covered by its bucket exactly when some rule with that verdict covers it |
| NftRuleset.BuildRuleset | components/egress/pkg/nftables/manager.go:129-186 | The commands written, in order |
| NftRuleset.ChainIsDeclared | components/egress/pkg/nftables/manager.go:138-184 | Every set the chain refers to is declared |
| NftRuleset.ScriptBuilds | components/egress/pkg/nftables/manager.go:129-194 | On any previous table the script yields the compiled table; with none it fails on its first line and works without it |
| NftRuleset.ChainMeansPolicy | components/egress/pkg/nftables/manager.go:158-184 | Accepted iff bypassing, or not a blocked DNS transport, not covered by any deny rule in any position, and learned, allowed or allowed by default |
| NftRuleset.DefaultsAgreeIff | components/egress/pkg/policy/policy.go:111-115 | Proxy and chain agree where no rule speaks if and only if the default is allow or deny |
| NftRuleset.ThirdDefaultSplits | components/egress/pkg/policy/policy.go:111-115 | The default "audit" is accepted: the proxy forwards every name and the chain drops every destination |
| PolicyServer.WithExtraAllowIPs | components/egress/pkg/policy/policy.go:148-164 | A copy with one allow rule per nameserver appended |
| PolicyServer.FallbackIs | components/egress/pkg/nftables/manager.go:221-234 | The retry script is the script without its first line |
| PolicyServer.Server.ApplyStatic | components/egress/pkg/nftables/manager.go:85-109 | The table becomes the compiled one or stays as it was; it works iff the script is taken, on the second try if there was no table |
| PolicyServer.Server.SetupNft | components/egress/nft.go:40-56 | Start-up leaves proxy and nft in step or fails |
| PolicyServer.StoredDefaultIsSet | components/egress/pkg/dnsproxy/proxy.go:169-173 | Over every run the stored policy has a default, so the one the proxy would fill in never replaces what was accepted |
| PolicyServer.Server.HandlePost | components/egress/policy_server.go:148-202 | A POST replaces both policy and table or changes neither; blank and empty bodies reset to deny-all |
| PolicyServer.PostTakesEffect | components/egress/policy_server.go:148-202 | With a willing kernel a readable, valid POST takes effect, a blank or empty one denies all, and any other changes nothing |
| PolicyServer.ResetDeniesAll | components/egress/policy_server.go:158-179 | After a reset every name is denied |
| PolicyServer.Server.HandlePatch | components/egress/policy_server.go:207-270 | A PATCH installs the merged policy in both places or changes neither; empty bodies and lists are rejected |
| PolicyServer.PatchTakesEffectIff | components/egress/policy_server.go:207-270 | With a willing kernel a PATCH takes effect if and only if it has rules and the first one for each key is usable; otherwise nothing changes |
| PolicyServer.RefusedChangesNothing | components/egress/policy_server.go:187-194 | A request whose script the kernel refuses changes nothing |
| PolicyServer.Server.AddResolvedIPs | components/egress/pkg/nftables/manager.go:113-127 | Resolved addresses are added to the dynamic set of their family and nothing else changes |
| PolicyServer.ResolvedAreLearned | components/egress/pkg/nftables/dynamic.go:39-58 | Afterwards the dynamic set of a family covers the resolved addresses and what it covered before, and nothing else changed |
| PolicyServer.StepKeepsStep | components/egress/policy_server.go:148-270 | Every request, rejected, failed or accepted, leaves the table the compilation of the proxy's policy plus nameservers |
| PolicyServer.RunsStayInStep | components/egress/policy_server.go:148-270 | The same over every run |
| PolicyServer.RunsMeanThePolicy | components/egress/pkg/nftables/manager.go:158-184 | After every run a packet is treated as the current policy says, nameservers allowed unless denied |
| PolicyServer.RunDecides | components/egress/policy_server.go:240-251 | After every run each name is decided by accepted patches, newest first, over the last accepted POST; rejected and failed requests leave no trace |
| PolicyServer.PolicyIsFold | components/egress/policy_server.go:148-270 | The stored policy is the fold of the accepted updates in lock order |
| PolicyServer.PolicyIgnoresNameservers | components/egress/pkg/policy/policy.go:148-164 | The stored policy is the same whatever the nameservers are |
| SandboxRuntime.Runtime.EnsureMounted | server/src/services/ossfs_mixin.py:384-416 | One more reference, mounting on the first, or no change if the mount fails |
| SandboxRuntime.Runtime.ReleaseMount | server/src/services/ossfs_mixin.py:418-460 | One reference less; the last one unmounts; untracked keys are skipped |
| SandboxRuntime.Runtime.ReleaseMounts | server/src/services/ossfs_mixin.py:462-467 | All keys in order, going on after failures |
| SandboxRuntime.Runtime.PrepareMounts | server/src/services/ossfs_mixin.py:469-487 | One reference per distinct key, or a rollback of those taken; the rows that follow say which keys |
| MountRuns.PrepareServesTheRequest | server/src/services/ossfs_mixin.py:469-487 | Preparing fails if and only if a volume does not resolve or a wanted key has no reference, is not mounted and cannot be; otherwise it hands over the keys of all OSSFS volumes, each once, in order of first use |
| MountRuns.StartedIsServed | server/src/services/docker.py:1020-1107 | Every OSSFS path of a started sandbox's request is labelled, counted and mounted, no other is labelled, and its expiry is tracked and armed |
| SandboxRuntime.Runtime.ScheduleExpiration | server/src/services/docker.py:268-294 | The timer is replaced, due at once if late; tracking changes only on request |
| SandboxRuntime.Runtime.RemoveExpirationTracking | server/src/services/docker.py:296-302 | Timer and tracked time are dropped |
| SandboxRuntime.Runtime.ExpireSandbox | server/src/services/docker.py:324-397 | Each way a callback can end: renewed, retried, not found with cached keys, removed or not |
| ExpirationRuns.RetriesInThirtySeconds | server/src/services/docker.py:338-361 | A callback that cannot reach Docker is tried again in 30 seconds with its keys, unless the sandbox was renewed |
| ExpirationRuns.DueIsRemoved | server/src/services/docker.py:363-397 | A callback that reaches a due sandbox removes it, drops its tracking and releases its keys |
| SandboxRuntime.Runtime.DeleteSandbox | server/src/services/docker.py:1594-1632 | Tracking and references go whether or not the container does |
| ExpirationRuns.DeletesOnlyThat | server/src/services/docker.py:1604-1632 | What a delete changes, and that it changes nothing for a sandbox that is not there |
| SandboxRuntime.Runtime.RenewExpiration | server/src/services/docker.py:1700-1748 | Renewal succeeds exactly for a future time on a sandbox with an expiry and automatic cleanup; the label may lag |
| ExpirationRuns.RenewsIff | server/src/services/docker.py:1718-1748 | When a renewal is refused, and that otherwise exactly the tracked time, the timer and, if it is reached, the label change |
| SandboxRuntime.Runtime.ProvisionSandbox | server/src/services/docker.py:1006-1107 | Mounts, container and timer, or a rollback; a container left by a failed start is released a second time by the worker, or abandoned by the synchronous path |
| SandboxRuntime.Runtime.CollectRefs | server/src/services/docker.py:418-463 | Pass 1: references of all sandboxes, timers for the living, cached keys of the expired |
| SandboxRuntime.Runtime.Restore | server/src/services/docker.py:399-473 | A restart is pass 1 followed by the deferred callbacks in order; a failed listing leaves nothing known |
| ExpirationRuns.StepKeepsOnTime | server/src/services/docker.py:268-397 | Every event keeps tracked sandboxes pending, future ones armed for their exact time, and overdue ones armed for no later than the next retry |
| ExpirationRuns.RunsAreOnTime | server/src/services/docker.py:268-397 | The same over every run, with late callbacks, 30-second retries, failed removals and restarts |
| ExpirationRuns.RemovedOnlyWhenDue | server/src/services/docker.py:363-394 | Callbacks remove a sandbox only when its tracked time is not in the future, and never one with manual cleanup |
| ExpirationRuns.RestartKeepsTimeIff | server/src/services/docker.py:445-461 | A restart keeps a tracked future time if and only if the label carries it |
| ExpirationRuns.RunsKeepLabels | server/src/services/docker.py:1741-1748 | If every renewal reaches its label, labels carry the tracked times throughout |
| ExpirationRuns.WatchedIff | server/src/services/docker.py:385-394 | An event keeps every container with an expiry label pending if and only if removals work or another callback has started, no container is left behind by a failed start, and listings succeed |
| ExpirationRuns.RunsStayWatched | server/src/services/docker.py:268-397 | Over every such run each container with an expiry label, tracked or not, has an armed timer or a started callback |
| MountRuns.PrepareCounts | server/src/services/ossfs_mixin.py:469-487 | Preparing adds one reference per key or leaves every count as it was |
| MountRuns.ReleaseAllCounts | server/src/services/ossfs_mixin.py:462-467 | Releasing distinct keys takes one reference from each that has one and keeps counted paths mounted |
| MountRuns.ReleaseAllUnmounts | server/src/services/ossfs_mixin.py:418-467 | Releasing distinct keys unmounts exactly those whose last reference goes and whose command works |
| MountRuns.RestartRebuilds | server/src/services/docker.py:418-467 | Pass 1 rebuilds the exact counts before anything is released |
| MountRuns.RestoreKeepsSurvivorsMounted | server/src/services/docker.py:399-473 | Through both passes of a restart whose removals work, counts stay exact and every path of every surviving container stays mounted, whatever vanished or could not be reached |
| MountRuns.StepIff | server/src/services/docker.py:1594-1632 | An event keeps counts equal to the number of labelled containers if and only if its guard holds |
| MountRuns.RunsCountExactly | server/src/services/docker.py:399-473 | Over every guarded run counts are exact and counted paths mounted |
| MountRuns.UsedIsMounted | server/src/services/ossfs_mixin.py:384-460 | Every path a container uses is mounted and counted |
| MountRuns.CarefulRunsCountExactly | server/src/services/docker.py:324-397 | The guards hold on every run in which removals work and no sandbox is removed under a started callback with its cached keys |
| RuntimeCounterexamples.FailedDeleteUnmountsInUse | server/src/services/docker.py:1615-1632 | A failed removal unmounts the path of a container that is still there |
| RuntimeCounterexamples.LateCallbackUnmountsInUse | server/src/services/docker.py:330-362 | A retry with cached keys that runs after a delete unmounts the path of another sandbox |
| RuntimeCounterexamples.LeftoverUnmountsInUse | server/src/services/docker.py:892-908 | A failed start that leaves a container behind unmounts the path of another sandbox |
| RuntimeCounterexamples.BlindRestartUnmountsInUse | server/src/services/docker.py:399-405 | After a restart whose listing fails, deleting a new sandbox unmounts the path of an old one |
| RuntimeCounterexamples.StaleLabelExpiresEarly | server/src/services/docker.py:1741-1748 | A sandbox renewed to 100 is removed at 20 after a restart, because the renewal did not reach its label |
| RuntimeCounterexamples.FailedRemovalIsForgotten | server/src/services/docker.py:385-394 | A callback whose removal fails leaves a container with an expiry label that nothing will remove |

## Left out

- SandboxRuntime.Runtime.ReleaseMounts: does not model an unmount command that runs into its 20-second timeout; that exception is not caught by the loop, so the remaining keys keep their references. An unmount here works or fails.
- int32 and int64 widths of replicas and counters: unbounded integers, except the range of parsed pod indices.
- A malformed pool annotation: `Schedule` returns before the round starts.
- Scale expectations, requeue timing, finalizer writes and conflict retries of the controllers.
- Failed pod creations and deletions while a pool is scaled: the pool results are about reconciles whose API calls succeed.
- Pool revisions as hashes of the template: a revision is a text.
- What makes a pod ready, and the task counters of the BatchSandbox status: readiness is a flag of the pod.
- Task templates, shard patches and the parsing of process and pod states into task states beyond the four states used.
- Characters outside ASCII in case folding and trimming of policy text.
- IPv6 zones: an address is a family and a number; parsing is a parameter that ignores case.
- The text of nft scripts: scripts are sequences of commands; overlapping intervals are a refusal by the kernel.
- Timeouts of dynamic entries: elements of the dynamic sets may lapse at any time, and whether they still fit the current policy is not claimed.
- HTTP authorization and body size limits of the policy server.
- Unmounting happens outside the lock in the code: each operation of the runtime is one step here, so two operations do not interleave.
- A container removed by hand is modelled only at the moment a callback looks for it.
- A reboot of the host, after which mount points are gone: a restart is one of the server process.
- Egress sidecars, pending records, port allocation and image handling of the Docker runtime.
- Wall-clock jumps: time only moves forward.
