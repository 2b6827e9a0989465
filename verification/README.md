# Verified models of a Druid operator, a Hive engine spec and a Tensorboard log directory

A Dafny project beside the repository. It models three parts of it and proves what they promise, or exactly when they
keep the promise.

**The Druid operator's reconcile pass** is a level-triggered protocol against an API server that others write to as
well. `Cluster` holds the data, `ApiServer` the server: a store whose calls are linearizable, each of which is preceded
by any number of steps of other writers and is then served, refused, or served with its reply lost. Updates are
compare-and-swap on the resource version. `Reconcile` gives a pass as a function of these surroundings, of the custom
resource and of the actions planned from it; `Planner` gives the plan, with the label, selector and annotation maps and
the probe that nodes share and write in place; `PrescribedOrder` gives the order of the nodes for every iteration order
of Go's map. `Controller` is the operator in its own form, a class whose methods loop and change the store and the name
maps in place, and makes each object when its turn comes with the builders of `Aliasing`, on maps that live on the heap
and that the nodes share; it is proved to do what the functions say.

On the functions rest the results about single passes and whole runs: rolling updates (`Rolling`, `Rollout`,
`Convergence`), references between objects (`Integrity`, `DanglingReferences`), pruning (`Prune`), quiescence
(`Quiescence`), what a pass may call at all (`Calls`), writes under interference (`Interference`), the finalizer
(`Finalizer`, `Runs`), orphaned claims (`OrphanPvc`), names (`Names`), hashes (`ConfigPropagation`), shared maps
(`Sharing`) and the status patch (`StatusPatch`). Others say outright, in the literal names of the source and not by way
of the functions that they are about, what a pass does: when it adds the finalizer and what a clean-up removes
(`FinalizerAdded`), what is planned for each node (`PlannedObjects`), what the stored status shows (`StatusReport`), what
a stale workload keeps from being written (`HeldBack`) and when a pass returns an error (`Outcome`). `Planned`, `OrderIndependence`, `WorkloadOrder`,
`PlanOrder`, `OrderMatters`, `SharedTemplates`, `OneByOneUpdates`, `Conflicts` and `ClaimLifecycle` carry the plan-level
results over to the spec, and `Settling` puts convergence and quiescence together. `Frames` and `Upserts` are their
common ground.

**Hive's progress** (`HiveProgress`, `HivePolling`) is a log folded into a percentage, in exact rationals, and a polling
loop with a cursor into a growing log. `HiveTally` tells from the lines what the fold keeps, `HiveRuns` from the polls
what a run finds, how it ends and which lines it passes on.

**The Tensorboard log directory** (`TensorboardLogdir`, `LogdirParts`, `Strings`) is a parser and a printer over
unbounded strings.

`dafny verify dfyconfig.toml` checks everything.

## Assumptions

- "Drifting" surroundings rescale workloads and report status, as autoscalers and the workload controllers do, and
  write nothing else; "harmless" ones do anything but remove config maps or services of the namespace and write
  workloads under the resource's labels; "alone" means nobody else writes during a pass; where none of these is
  required, any writes happen.
- The object hash is an arbitrary function. Injectivity, and the absence of '-' from its values (base64), are
  hypotheses of the few results that need them.
- A store is honest when an object that bears the hash annotation of a desired content carries the resource's labels
  ("honest about labels"), or, for planned workloads, has the desired body: nobody forges the annotation.
- The iteration order of a Go map is any permutation of its keys, a new one in each pass.
- The four map families a decoded spec holds (pod labels; labels, selector, annotations of each service) are different
  maps, as JSON decoding makes them, and each pass starts from its own copy of the resource.

## Where the code and its documentation differ

`druid-operator/docs/upgrade.md:4` says that with rolling deploy the nodes are updated one by one. Over all runs of
passes over a spec the code keeps this exactly when no two nodes have the same type (`OneByOneIffTypesDistinct`): the
order of equal types is that of the map's iteration, so that two passes can each take a different node for the first,
and then two workloads roll out at once. When the spec is edited it is kept as long as each edit finds all workloads
rolled out (`OneByOneForDistinctTypes`); an edit during a rollout breaks it exactly when it makes a workload stale, all
before it being good, while a later one rolls out (`PassOverlapsIff`, `EditDuringRolloutOverlaps`).

More properties hold only under a condition, which is stated and proved to be exact:

- Passes become quiet unless objects contradict each other, of which there are three kinds (`ConflictFreeIff`): a
  resource called "druid" (or "druid-druid", ...) with a node called "common" has two config maps of one name; two
  services, or two claims, may have one name and differ. A spec with any of these is written to by every pass
  that reaches its tail (`ConflictsNeverQuiet`).
- Passes become quiet unless, with orphan collection on and the pods healthy, a planned claim is in use by no pod:
  each pass creates it and collects it (`SettlesIff`, `UnusedClaimNeverQuiet`).
- A resource whose deletion is requested is released unless its spec is ignored, invalid or of an unknown node type, or
  the finalizer code is disabled (`ReleasedIff`).
- A workload whose delete fails in the prune loses its config maps and service, which the code goes on to delete
  (`SurvivorDangles`, `DanglingHappens`); references stay intact exactly under the condition of
  `IntactIffSurvivorsSupported`.
- Different iteration orders plan the same objects unless two nodes of one type use a template that comes with
  annotations, or may be the first to fill in the port of a shared probe and fill in different ones
  (`OrderImmaterialIff`); if they do not, a completed pass in the one order after one in the other always writes
  (`OrdersNeverQuiet`).
- A service with a given selector may select no pod, when earlier nodes' label keys were left in the selector map
  (`ServiceSelectsExactly`).
- Nodes that share a probe without a port are probed on the first one's port (`SharedProbePort`).
- The status patch keeps a list that became empty (`PatchExactIff`).
- Hive's progress can fall within a job (`ExactFallsIff`, `PercentFallsIff`), and a tracking url that ends in two slashes
  keeps all lines from being passed on (`NamesNoJobIff`, `EmptyJobIdRun`).

## Model

| member | source | states |
|---|---|---|
| Rolling.RollingPassSafe | druid-operator/controllers/druid/handler.go:121-225 | Under any interference and any failures: with rolling deploy a pass attempts at most one update of a workload, as its last call, and past generation 1 every earlier workload in the order was reported fully rolled out in that same pass. |
| Rollout.OneRolloutAtATime | druid-operator/docs/upgrade.md:4 | Over any number of passes, whichever calls fail and whatever is edited in between, at most one planned workload is ever rolling out, as long as each edit finds all workloads rolled out. |
| Rollout.PassRolls | druid-operator/controllers/druid/handler.go:167-225 | A pass over stored workloads rewrites none of them or exactly one, which was stale and all of whose predecessors were as desired and rolled out. |
| Convergence.PassExact | druid-operator/controllers/druid/handler.go:167-225 | With no failing call a rolling pass reaches the prune phase exactly when every gate is passable; otherwise it stopped at the first impassable gate, and has updated it if it was stale. |
| Convergence.PassProgresses | druid-operator/controllers/druid/handler.go:167-225 | A pass over rolled-out workloads reaches the prune phase or leaves a strictly smaller set of missing or stale workloads. |
| Convergence.Converges | druid-operator/controllers/druid/handler.go:167-225 | `s` missing or stale workloads need at most `s + 1` passes to reach the prune phase. |
| Convergence.FirstStaleUpdated | druid-operator/controllers/druid/handler.go:167-212 | With no failing call a rolling pass updates its first stale workload, when all before it are good, and leaves every other workload alone. |
| Convergence.PassOverlapsIff | druid-operator/controllers/druid/handler.go:167-212 | With no failing call a rolling pass starts a rollout beside a running one exactly when some workload is stale, all before it are good and a later one is still rolling out. |
| Convergence.EditDuringRolloutOverlaps | druid-operator/docs/upgrade.md:4 | "One by one" fails for an edit during a rollout: if it makes a workload stale while a later one rolls out, and all before are good, two workloads roll out at once. |
| Convergence.ShuffledOrderOverlaps | druid-operator/docs/upgrade.md:4 | "One by one" fails for two plans of the same workloads with different first stale ones, wherever they stand: the second pass updates a second workload while the first still rolls out. |
| OneByOneUpdates.OneByOneIffTypesDistinct | druid-operator/docs/upgrade.md:4 | For a rolling resource "one by one" holds over every run of passes, in whatever order each iterates the node map, if and only if no two nodes of the spec have the same type. |
| OneByOneUpdates.OneByOneForDistinctTypes | druid-operator/docs/upgrade.md:4 | It also holds over runs in which specs with at most one node per type are edited, as long as each edit finds all workloads rolled out. |
| OneByOneUpdates.OverlapForSharedType | druid-operator/controllers/druid/handler.go:1575-1582 | For any two nodes of one type, wherever the type stands in the order: if both workloads are stale and all before them good, a pass that takes the one first and a pass that takes the other first have both rolling out at once. |
| OneByOneUpdates.OneTypeKeepsMapOrder | druid-operator/controllers/druid/handler.go:1575-1592 | Nodes of one type are deployed in the order the map happens to be iterated in. |
| WorkloadOrder.RolloutConverges | druid-operator/controllers/druid/handler.go:121-225 | From the spec, `s` missing or stale workloads need at most `s + 1` passes to reach the prune phase, each pass iterating the node map in its own order, whatever maps are shared and whatever other objects contradict each other, as long as the order does not decide the port of a shared probe. |
| HeldBack.StaleHoldsBack | druid-operator/controllers/druid/handler.go:121-275 | While the workload of a node is stale, a rolling pass tries to create or update no config map, workload, ingress, disruption budget or autoscaler but the common config map and those of nodes whose type is not deployed later ("historical" before "overlord" before "middleManager" before "indexer" before "broker" before "coordinator" before "router"), and of the node itself only its config map and its workload: under drift, whichever calls fail, in every iteration order. |
| OrderMatters.WorkloadsFixedIff | druid-operator/controllers/druid/handler.go:1149-1154 | Every iteration order plans the same workloads if and only if the cluster's probe has a port or is absent, or all nodes that may be the first to fill it in have the same port. |
| Integrity.PassKeepsIntegrity | druid-operator/controllers/druid/handler.go:133-225 | From a store in which they hold and in which hash annotations of planned workloads are honest: in every store state of a pass each workload of the resource has its two config maps and its governing service, whatever other call fails, wherever the pass ends, and whatever others do that is harmless: pods, claims and objects of other resources come and go, specs are edited. |
| Planned.DeployKeepsIntegrity | druid-operator/controllers/druid/handler.go:74-367 | The same for the plan that the code makes of a spec. |
| DanglingReferences.IntactIffSurvivorsSupported | druid-operator/controllers/druid/handler.go:283-367 | A completed pass that pruned config maps and services without failure leaves references intact if and only if every workload that was stored, is not desired any more and had no delete served refers, as stored before, only to desired objects and to objects not under the resource's labels. |
| DanglingReferences.SurvivorDangles | druid-operator/controllers/druid/handler.go:283-367 | A workload whose delete fails loses each undesired config map and service under the resource's labels that it refers to: the code goes on to delete them. |
| DanglingReferences.DanglingHappens | druid-operator/controllers/druid/handler.go:599-631 | Such a run: a resource without nodes, its last StatefulSet and config map still stored, and one refused list. |
| DanglingReferences.UndesiredSurvivesIff | druid-operator/controllers/druid/handler.go:599-631 | An object that is not desired is stored after a pass exactly when it was before and no delete of it was served, and is then as it was. |
| DanglingReferences.RefStoredIff | druid-operator/controllers/druid/handler.go:599-631 | After such a pass a config map or service is stored exactly when it is desired, or was stored and is not under the resource's labels. |
| Planned.PlanRefsPlanned | druid-operator/controllers/druid/handler.go:129-194 | In every plan a workload comes after the config maps and the governing service it refers to. |
| Planned.PlanWellFormed | druid-operator/controllers/druid/handler.go:121-275 | In every plan gates are exactly the workloads, and every object is in the resource's namespace under its labels, whatever the shared maps hold. |
| PlannedObjects.ConfigMapsPlanned | druid-operator/controllers/druid/handler.go:757-812 | In every order the planned config maps are exactly the common one and one per node, with their names, labels and data written out: port and properties, JVM options and logging configuration, the node's own or else the cluster's. |
| PlannedObjects.OptionalsPlanned | druid-operator/controllers/druid/handler.go:227-258 | An ingress, disruption budget or autoscaler is planned exactly when the spec of some node gives that text; it has the node's name and the given text as its body. |
| PlannedObjects.ClaimsPlanned | druid-operator/controllers/druid/handler.go:1215-1246 | The planned claims are exactly those that the nodes' specs give, with name, labels, annotations and spec written out. |
| PlannedObjects.ServicesPlanned | druid-operator/controllers/druid/handler.go:829-874 | For each node one service is planned per template of its own or else of the cluster, in their order, with the name, the ports and the labels the node is due. |
| PlannedObjects.ServicePlannedFrom | druid-operator/controllers/druid/handler.go:144-163 | Every planned service is one made for a node from one of its templates. |
| PlannedObjects.WorkloadPlanned | druid-operator/controllers/druid/handler.go:954-1104 | Each node has exactly one workload, a Deployment exactly when its kind is "Deployment": with the node's replicas, the environment of the node or else of the cluster followed by "configMapSHA", the two config maps, the first service's name for a StatefulSet, and a probe port. |
| PlannedObjects.WorkloadPlannedFrom | druid-operator/controllers/druid/handler.go:121-275 | Every planned workload is that of a node, and no pod is planned. |
| Planned.PlanGatesDistinct | druid-operator/controllers/druid/handler.go:127-194 | No two nodes of a plan write the same workload. |
| Quiescence.SettlesIffConflictFree | druid-operator/controllers/druid/handler.go:641-690 | A completed pass whose lists and deletes succeeded leaves everything as desired and nothing to prune if and only if no object is desired with two hashes and the orphan collector took no planned claim. |
| ClaimLifecycle.SettlesIff | druid-operator/controllers/druid/handler.go:121-389 | The same told before the pass, from the spec and the store: it settles if and only if no object is desired with two hashes and, with orphan collection on and all pods healthy, every planned claim was in use. |
| ClaimLifecycle.PlannedClaimStoredIff | druid-operator/controllers/druid/handler.go:420-491 | From a store honest about labels, a planned claim, even one planned twice, is stored after a completed pass exactly when orphan collection is off, or some pod was not healthy, or some pod used the claim before. |
| ClaimLifecycle.UnusedClaimNeverQuiet | druid-operator/controllers/druid/handler.go:420-491 | With orphan collection on and healthy pods, a planned claim that no pod uses is created and collected by each completed pass, so that the next one writes again. |
| Quiescence.SettledPassIdleIff | druid-operator/controllers/druid/handler.go:641-690 | On a settled store a pass writes no object exactly when it does not reach its tail or its orphan collector has nothing to do: it is off, a list fails, some listed pod is not healthy, or no listed claim is an orphan. |
| Quiescence.SettledPassIsIdle | druid-operator/controllers/druid/handler.go:641-690 | On a settled and orphan-free store a pass writes no object, in whatever order it plans and whichever calls fail, and leaves the store so. |
| Quiescence.CollectorQuietIffOrphanFree | druid-operator/controllers/druid/handler.go:420-491 | The orphan collector has nothing to do on an orphan-free store, and, when its lists answer, on no other. |
| Quiescence.QuietIffAllFresh | druid-operator/controllers/druid/handler.go:673-687 | A completing pass makes no create or update attempt if and only if every desired object was stored with its desired hash. |
| Quiescence.SecondPassQuietIffConflictFree | druid-operator/controllers/druid/handler.go:641-690 | After a completed pass a second completing one upserts nothing if and only if no object is desired with two hashes and the first pass collected no planned claim. |
| Quiescence.ConflictNeverQuiet | druid-operator/controllers/druid/handler.go:641-690 | When some object is desired with two hashes, no pass that reaches its tail is without writes. |
| PlanOrder.QuiescentForEver | druid-operator/controllers/druid/handler.go:641-690 | From a settled and orphan-free store any number of passes over the spec, each in its own iteration order, under drift and failing calls, writes no object, if the order is immaterial. |
| Settling.SettlesForGood | druid-operator/controllers/druid/handler.go:44-390 | End to end: from any store honest about labels, faultless rolling passes over a spec without contradictions and without claims up for collection reach, within `s + 1` of them, a store on which no later pass, in whatever order, under drift and whichever calls fail, writes an object. |
| Settling.PlainPassComesToRest | druid-operator/controllers/druid/handler.go:44-390 | Without rolling deploy one such pass is enough. |
| PlanOrder.PlansAgree | druid-operator/controllers/druid/handler.go:121-275 | Every iteration order plans the same objects and the same workloads when the port of a shared probe is fixed and the cluster's service templates either have users of distinct types only or come without annotations and with nothing that one user leaves to the next. |
| OrderMatters.OrderImmaterialIff | druid-operator/controllers/druid/handler.go:839-854 | For specs in which no user of a template leaves label keys to the next, every iteration order plans the same objects if and only if the port of a shared probe is fixed and no template with annotations has two users of one type. |
| OrderMatters.OrdersNeverQuiet | druid-operator/controllers/druid/handler.go:641-690 | Two orders that plan different objects undo each other's work: after a completed pass in the one, a completed pass in the other always writes. |
| OrderIndependence.PlanUnique | druid-operator/controllers/druid/handler.go:1564-1595 | With at most one node per type the plan is the same for every iteration order, status, generation and resource version, whatever is shared. |
| Prune.EarlyReturnDeletesNothing | druid-operator/controllers/druid/handler.go:44-275 | Under any interference and any failures a pass that does not reach its end deletes nothing, unless the resource is being finalized. |
| Calls.PassTouchesOnlyItsOwn | druid-operator/controllers/druid/handler.go:599-631 | Under any interference and any failures a pass creates and updates planned objects only, and deletes only what one of its own lists found under the resource's labels in its namespace: leftovers of the pruned kinds, claims when orphan collection is on, StatefulSets and claims when it finalizes. |
| Calls.NotItsOwnUntouched | druid-operator/controllers/druid/handler.go:599-631 | In every store state of a pass, whatever else others write and whichever calls fail, an object that is neither desired nor, by kind, namespace and labels, one that the pass may delete is as it was, or as absent, unless others rewrite or remove that very object. |
| Calls.PassVersioned | druid-operator/controllers/druid/interface.go:100-114 | No pass gives out a resource version twice: each stored object is as it was or newer than everything before the pass. |
| Runs.RunVersioned | druid-operator/controllers/druid/interface.go:100-114 | The same over every run of passes and steps of others. |
| Prune.PruneLeavesOnlyDesired | druid-operator/controllers/druid/handler.go:599-631 | After a completed pass whose lists and deletes succeeded nothing but desired names is left in the selection. |
| Prune.PassEstablishes | druid-operator/controllers/druid/handler.go:641-690 | After a completed pass without contradictions every desired object is stored with its desired hash, or is a claim that the orphan collector took. |
| Planned.PruneExact | druid-operator/controllers/druid/handler.go:283-367 | From a store honest about labels, a completed pass whose lists and deletes succeeded leaves, per pruned kind, in the namespace and under the labels, exactly the planned names, even when planned objects contradict each other. |
| Prune.PassKeepsClusterIPs | druid-operator/controllers/druid/handler.go:153-157 | No pass changes the address of a service that stays stored. |
| Prune.CompletedIffLoopDone | druid-operator/controllers/druid/handler.go:121-283 | A pass completes exactly when its node loop was not left early. |
| Outcome.PassFailsIff | druid-operator/controllers/druid/handler.go:44-390 | A pass returns an error exactly when it did not complete and its last call was bad: a read, list or write that failed, or a workload gone when its rollout was checked. A pass over an ignored or invalid spec, or one with an unknown node type, makes no call and returns none. |
| Interference.UpdateOverwritesWhatWasRead | druid-operator/controllers/druid/handler.go:673-687 | In every interleaving with other writers an update that took effect overwrote exactly the version that was read, touched nothing else, and kept status and address. |
| Interference.UpdateIssuedIffHashDiffers | druid-operator/controllers/druid/handler.go:675-675 | An update is tried exactly when the hash annotation that was read differs from the desired one, a create exactly when nothing was found. |
| Interference.DriftNeverDecides | druid-operator/controllers/druid/handler.go:641-690 | In two worlds whose objects of the name differ at most in version, replica count and status when they are read, an upsert tries the same call, and two updates that take effect store the same object up to those. |
| Upserts.UpsertObjs | druid-operator/controllers/druid/handler.go:641-690 | Under drift an upsert changes its own object or nothing, succeeds only by leaving it as desired, and leaves an object that is as desired alone. |
| Finalizer.FinalizerTape | druid-operator/controllers/druid/handler.go:493-546 | The calls of a finalizer pass, in full: both lists, the deletes of all StatefulSets and then of all claims, the write of the finalizer list; or a prefix ending in the first failure. |
| Finalizer.ClaimsAfterStatefulSets | druid-operator/controllers/druid/handler.go:392-409 | No delete of a claim is issued before every listed StatefulSet was deleted successfully. |
| Finalizer.WrittenMeansCleanedUp | druid-operator/controllers/druid/handler.go:536-541 | The finalizer list is written only after every listed StatefulSet and claim was deleted successfully. |
| Finalizer.PassKeepsFinalizer | druid-operator/controllers/druid/handler.go:100-119 | A pass keeps the finalizer stored unless it ended in a complete clean-up. |
| Runs.FinalizerHeldUntilCleanUp | druid-operator/docs/getting_started.md:91-91 | Over any run of passes and steps of others, under any failures, the finalizer stays until some pass deleted all it listed, StatefulSets first. |
| Runs.DyingNeverRegains | druid-operator/controllers/druid/handler.go:100-118 | Over any run, whatever others write, a resource whose deletion is requested gains no finalizer, the operator's included, until it is gone, and its deletion is never taken back: the server's rule, kept by every call; that the operator does not even try with success is `AddedOnlyWhileLive`. |
| Finalizer.ReleasedIff | druid-operator/controllers/druid/handler.go:74-119 | With no failing call and nobody else writing, a pass releases a resource whose deletion is requested exactly when the spec is neither ignored nor invalid, all node types are known and the finalizer code is not disabled. |
| Finalizer.AddedOnlyWhileLive | druid-operator/controllers/druid/handler.go:100-118 | The finalizer is added only while the stored resource is the very one that was read, and so live: after any write since, a request of its deletion included, the write fails. |
| Finalizer.PassAddsOnlyWhileLive | druid-operator/controllers/druid/handler.go:94-118 | The same inside a pass, with the upsert of the common config map, and whatever others do meanwhile, between the read and the write. |
| FinalizerAdded.FinalizerListAfter | druid-operator/controllers/druid/handler.go:94-118 | With no failing call and nobody else writing, a pass on a live resource leaves the finalizers in order as they were and, if the spec is neither ignored nor invalid, the node types are known and the finalizer code is not disabled, the operator's finalizer behind them unless it is there already. |
| FinalizerAdded.HeldAfterPassIff | druid-operator/controllers/druid/handler.go:94-118 | Such a pass leaves the resource with "deletepvc.finalizers.druid.apache.org" exactly when it had it or those four conditions hold. |
| FinalizerAdded.ProtectedFromFirstPass | druid-operator/docs/getting_started.md:91-91 | Over runs: after one such pass the finalizer is held, whatever later passes and others do and under any failures, until some pass has deleted every StatefulSet and claim it listed. |
| FinalizerAdded.CleanUpExact | druid-operator/controllers/druid/handler.go:493-546 | With no failing call and nobody else writing, the finalizing pass removes exactly the StatefulSets under the labels "app" and "druid_cr" and the claims under "druid_cr" of its namespace; apart from the common config map, written before, every other object stays as it was; the other finalizers stay in order, and without any the resource is gone. |
| Strings.WithoutKeepsOrder | druid-operator/controllers/druid/util.go:54-62 | The other finalizers keep their relative order when one is removed. |
| Strings.ContainsString | druid-operator/controllers/druid/util.go:45-52 | Scans the list and finds the string exactly when it is there. |
| Strings.RemoveString | druid-operator/controllers/druid/util.go:54-62 | Removes every occurrence and keeps all else, in order. |
| Strings.Without | druid-operator/controllers/druid/util.go:54-62 | The removed string is gone and every other string keeps its number of occurrences. |
| OrphanPvc.CollectorExact | druid-operator/controllers/druid/handler.go:420-491 | Nothing is deleted unless both lists succeeded and every listed pod runs with all conditions true; then exactly the listed claims no pod mounts, in order, up to the first failure. |
| OrphanPvc.UnhealthyPodStops | druid-operator/controllers/druid/handler.go:450-460 | One listed pod that is not running, or has a condition that is not true, keeps the collector from deleting anything. |
| OrphanPvc.MountedClaimsSurvive | druid-operator/controllers/druid/handler.go:462-489 | No claim mounted by a listed pod is ever deleted. |
| OrphanPvc.OrphansExact | druid-operator/controllers/druid/handler.go:462-489 | A listed claim is an orphan exactly when no listed pod mounts it, the empty name aside. |
| OrphanPvc.CollectorRemoves | druid-operator/controllers/druid/handler.go:420-491 | A collector that succeeds removes from the store exactly the orphans. |
| OrphanPvc.NoPodsNoMounts | druid-operator/controllers/druid/handler.go:462-489 | With no pod listed every listed claim is collected: `mountedPVC` is empty but not nil. |
| PrescribedOrder.GetAllNodeSpecs | druid-operator/controllers/druid/handler.go:1564-1595 | Fails exactly when some node has a type that is none of "historical", "overlord", "middleManager", "indexer", "broker", "coordinator", "router"; otherwise returns every node once, each node of an earlier of these types before each of a later one. |
| PrescribedOrder.GroupByType | druid-operator/controllers/druid/handler.go:1565-1582 | Groups the nodes by type in iteration order, or fails on an unknown type. |
| PrescribedOrder.PrescribedIsPermutation | druid-operator/controllers/druid/handler.go:1584-1594 | For every iteration order the result is a permutation of the nodes. |
| PrescribedOrder.PrescribedIsSorted | druid-operator/controllers/druid/handler.go:1584-1594 | For every iteration order the result is sorted by the rank of the seven types. |
| PrescribedOrder.PrescribedInDeploymentOrder | druid-operator/controllers/druid/handler.go:1584-1594 | For every iteration order each "historical" stands before each "overlord", and so on through "middleManager", "indexer", "broker", "coordinator" and "router"; with known types every node is in the result. |
| PrescribedOrder.OrderUniqueForDistinctTypes | druid-operator/controllers/druid/handler.go:1564-1595 | With at most one node per type the order does not depend on map iteration. |
| Names.NodeConfigNameInjective | druid-operator/controllers/druid/handler.go:796-812 | Node config maps of different keys have different names. |
| Names.ConfigNamesCollideIff | druid-operator/controllers/druid/handler.go:757-812 | The common config map has a node's config-map name exactly for key "common" and resource names "druid", "druid-druid", and so on. |
| Names.CommutesIffPower | druid-operator/controllers/druid/handler.go:757-790 | A word commutes with "druid-" exactly when it is a power of it. |
| ConfigPropagation.ConfigMapsConflictIff | druid-operator/controllers/druid/handler.go:757-812 | Two planned config maps contradict each other exactly in that case. |
| ConfigPropagation.DruidNamedDruidNeverQuiet | druid-operator/controllers/druid/handler.go:76-142 | In that case no pass that reaches its tail is without writes. |
| ConfigPropagation.WorkloadHashDeterminesConfigs | druid-operator/controllers/druid/handler.go:137-170 | Equal workload hashes imply equal common and node configurations: the two hashes joined by '-' (not in the alphabet of section 4 of RFC 4648) can be told apart. |
| ConfigPropagation.PropertiesChangeIsLocal | druid-operator/controllers/druid/handler.go:796-812 | Changing one node's runtime properties leaves every object of every other node as it was, and changes the hashes of its own config map and workload if and only if the properties differ. |
| Conflicts.ClaimsConflictIff | druid-operator/controllers/druid/handler.go:1215-1246 | The planned claims contradict each other exactly when two nodes write one claim name, or one node writes one name with two contents; an unnamed claim gets the node's unique string, a named one the name and spec of the node's last claim and its own labels and annotations. |
| Conflicts.ServicesConflictIff | druid-operator/controllers/druid/handler.go:829-866 | The planned services contradict each other exactly when prefix, unique string and suffix give two nodes one service name, or two templates of one node one name while their labels or selectors under the node's own labels, their annotations or their ports differ, for the cluster's templates as the users before have left them. |
| SharedTemplates.TemplatesLeft | druid-operator/controllers/druid/handler.go:839-854 | The cluster's service templates before each node of a plan, annotations included, as what the users before it have made of them. |
| SharedTemplates.LeftIs | druid-operator/controllers/druid/handler.go:839-854 | What the users so far have changed of a template of the cluster: labels and selector are overwritten key by key, and given annotations carry under "druidOpResourceHash" the hash of the service that the last user sent; name parts and ports are as given. |
| SharedTemplates.SameSharedIff | druid-operator/controllers/druid/handler.go:839-854 | When two of the cluster's templates make one service for a node, told from the spec and the users before. |
| Conflicts.ConflictFreeIff | druid-operator/controllers/druid/handler.go:121-275 | A whole plan is free of contradictions exactly when the config maps, the services and the claims are: no other kind can be planned twice. |
| Conflicts.ConflictsNeverQuiet | druid-operator/controllers/druid/handler.go:641-690 | A spec with any of these contradictions is never quiet: no pass that reaches its tail is without writes. |
| ConfigPropagation.CommonChangeReachesEveryNode | druid-operator/controllers/druid/handler.go:137-170 | New common properties change the hash of every node's workload. |
| ConfigPropagation.ClusterDefaultsReachNodeIff | druid-operator/controllers/druid/util.go:9-15 | Cluster-level JVM options and logging configuration reach a node's config map exactly when the node has none of its own. |
| Sharing.PlannedLabels | druid-operator/controllers/druid/handler.go:1255-1264 | Although nodes write one label map in turn, each node's config map, workload, pod template and disruption budget carry that node's own labels and unique string. |
| Sharing.ServiceSelectsExactly | druid-operator/controllers/druid/handler.go:829-866 | A service selects no other node's pods, and selects its own node's exactly when every label key given or left in its selector, by earlier nodes too, is one of the node's labels. |
| Sharing.UngivenSelectorIsExact | druid-operator/controllers/druid/handler.go:847-853 | Where the spec gives no selector a node's service selects exactly the pods of its own template. |
| Sharing.SharedProbePort | druid-operator/controllers/druid/handler.go:1149-1154 | A cluster-level probe without a port gets the first user's port for all nodes: a node is probed on its own port exactly when that is the same port. |
| Sharing.SharedAtIs | druid-operator/controllers/druid/handler.go:839-854 | What the shared maps and the shared probe hold before each node of a plan. |
| Aliasing.GoMap.SetAll | druid-operator/controllers/druid/handler.go:842-844 | The range loop that copies one map into another, in any iteration order. |
| Aliasing.MakeLabels | druid-operator/controllers/druid/handler.go:1255-1264 | Writes the node's three labels into whichever map applies and leaves the shared state as the planner says. |
| Aliasing.SendService | druid-operator/controllers/druid/handler.go:829-866 | The service as serialised, and the template maps as left behind, hash annotation included. |
| Aliasing.SendOneOf | druid-operator/controllers/druid/handler.go:150-163 | Sending one service of a list writes that service's maps and leaves the others as they were. |
| Aliasing.DecodeSpec | druid-operator/controllers/druid/druid_controller.go:31-56 | A pass starts from its own copy of the cluster-level maps and probe, no two of them shared. |
| Aliasing.ProbePort | druid-operator/controllers/druid/handler.go:1149-1154 | The port a node's probe gets, and the shared probe as left behind. |
| Controller.NameMaps.Add | druid-operator/controllers/druid/handler.go:652-652 | Records a desired name under its kind. |
| Controller.Operator.CreateOrUpdateAsNeeded | druid-operator/controllers/druid/handler.go:641-690 | One upsert: the new store, the status and the recorded name. |
| Controller.Operator.IsObjFullyDeployed | druid-operator/controllers/druid/handler.go:692-722 | Whether the stored workload reports its rollout finished, or could not be read. |
| Controller.Operator.DeployWorkload | druid-operator/controllers/druid/handler.go:167-212 | Upsert of a workload and the decision whether the pass goes on. |
| Controller.Operator.EnsureServices | druid-operator/controllers/druid/handler.go:150-163 | The service loop: each service is made in the maps it shares, then upserted; the store and, on success, every template as left behind. |
| Controller.Operator.DeployServices | druid-operator/controllers/druid/handler.go:144-163 | The same on the node's own services, or on those of the cluster, which stay written for the next node. |
| Controller.Operator.DeployNode | druid-operator/controllers/druid/handler.go:121-275 | One iteration of the node loop, which makes each object from the shared heap maps when its turn to be upserted comes, does exactly the planned steps and leaves the shared maps as the planner says. |
| Controller.Operator.DeployNodes | druid-operator/controllers/druid/handler.go:121-275 | The node loop, although the nodes write the same maps in turn, does exactly the steps of the plan, up to the first that stops it. |
| Controller.Operator.DeleteStsAndPvc | druid-operator/controllers/druid/handler.go:392-409 | The two delete loops, stopping at the first failure. |
| Controller.Operator.ExecuteFinalizer | druid-operator/controllers/druid/handler.go:493-546 | The finalizer run proved against its specification. |
| Controller.Operator.HandleFinalizer | druid-operator/controllers/druid/handler.go:100-119 | The finalizer code of a pass proved against its specification. |
| Controller.Operator.AllPodsHealthy | druid-operator/controllers/druid/handler.go:450-460 | The nested health loops decide whether every listed pod runs and has no condition that is not true. |
| Controller.Operator.CollectMounted | druid-operator/controllers/druid/handler.go:462-474 | The nested loops that collect the mounted claims. |
| Controller.Operator.DeleteUnmounted | druid-operator/controllers/druid/handler.go:476-489 | The delete loop over the claims not mounted. |
| Controller.Operator.CollectOrphanPvcs | druid-operator/controllers/druid/handler.go:420-491 | The collector proved against its specification. |
| Controller.Operator.DeleteUnusedResources | druid-operator/controllers/druid/handler.go:599-631 | The prune of one kind: the new store and the survivor names in list order. |
| Controller.Operator.CleanUp | druid-operator/controllers/druid/handler.go:277-389 | Everything after the node loop. |
| Controller.Operator.DeployDruidCluster | druid-operator/controllers/druid/handler.go:44-390 | A whole pass in place: the store it leaves and how it ended are those of the pass function of the plan. |
| Controller.Operator.ReconcileRequest | druid-operator/controllers/druid/druid_controller.go:31-56 | One reconcile: does one pass on the resource as read, is not requeued exactly when the resource is gone, and returns an error exactly when the resource could not be read or the pass failed. |
| Controller.Operator.UpdateObject | druid-operator/controllers/druid/interface.go:100-114 | A success replaced the object of the version read by one as desired with a newer version, keeping its status; a refusal or a lost reply changed nothing or did the same; no other object changes. |
| Controller.Operator.CreateObject | druid-operator/controllers/druid/interface.go:117-131 | A success stored, under a name that was free, an object as desired with a version newer than all before; an existing name is left as it is; no other object changes. |
| Controller.Operator.DeleteObject | druid-operator/controllers/druid/interface.go:134-147 | A success removed an object that was there; whatever the answer, it is as it was or gone, and no other object changes. |
| Controller.Operator.ListObjects | druid-operator/controllers/druid/interface.go:163-178 | A served list enumerates, without repetition and in some order, exactly the selected objects. |
| StatusPatch.PatchedField | druid-operator/controllers/druid/handler.go:381-387 | After a merge patch (section 2 of RFC 7396) each stored list is the computed one if that is non-empty, else what it was. |
| StatusPatch.PatchExactIff | druid-operator/apis/druid/v1alpha1/druid_types.go:284-291 | Stored equals computed exactly when no list that is now empty was non-empty before. |
| StatusReport.SurvivorsTold | druid-operator/controllers/druid/handler.go:599-631 | Under any interference and any failures the prune of a kind tries one delete of each listed object that is not desired, and reports the listed ones of which no delete was served, in list order; none when the list fails. |
| StatusReport.StatusExact | druid-operator/controllers/druid/handler.go:283-389 | After a completed pass with no failing call, all lists answered and nobody else writing, each of the eight stored lists, named by its field, holds in byte order and once each exactly the names of the stored objects of its kind in the namespace under the resource's labels, or is what it was before if there is none; the status is patched exactly when the one read does not say this already or one of the seven pruned kinds has no object. |
| StatusPatch.EncodedMembers | druid-operator/apis/druid/v1alpha1/druid_types.go:284-291 | A serialised status has one member per non-empty list, under the name that its tag gives, and no other. |
| StatusPatch.DecodeEncode | druid-operator/apis/druid/v1alpha1/druid_types.go:284-291 | Decoding the stored form gives the status back although empty lists are omitted. |
| Strings.SortSorts | druid-operator/controllers/druid/handler.go:295-295 | The survivor names are sorted. |
| Strings.LeqIff | druid-operator/controllers/druid/handler.go:295-295 | Strings are ordered by the first character in which they differ, a prefix first. |
| HiveProgress.Progress | superset/hive_minios3.py:275-303 | The loop over the lines and the average of the stages compute the specified percentage. |
| HiveTally.JobIs | superset/hive_minios3.py:283-286 | The current job is that of the last launching line, the first when there is none. |
| HiveTally.TotalIs | superset/hive_minios3.py:279-286 | The number of jobs is that of the last line that gives one, read as 1 if it is 0; 1 when there is none. |
| HiveTally.StageCounted | superset/hive_minios3.py:283-298 | The stages counted are those reported since the last launching line, that line included. |
| HiveTally.StageIs | superset/hive_minios3.py:288-298 | Each counts with the mean of its map and reduce percentages in its last report. |
| HiveTally.LaunchCutsOff | superset/hive_minios3.py:283-287 | Whatever stands before a launching line does not matter to the percentage after it. |
| HiveTally.LaunchShowsJobsDone | superset/hive_minios3.py:283-303 | A log that ends with the launch of job `j` of `T` shows floor(100(j - 1)/T). |
| HiveProgress.SumValues | superset/hive_minios3.py:300-300 | The sum of the stage values does not depend on the order they are taken in. |
| HiveProgress.PercentBounds | superset/hive_minios3.py:300-303 | For current job `j` of `T` the result lies between floor(100(j - 1)/T) and floor(100j/T), hence in 0..100. |
| HiveProgress.PercentGrowsWithJobs | superset/hive_minios3.py:302-303 | With the number of jobs fixed it never decreases from one job to a later one. |
| HiveProgress.ExactFallsIff | superset/hive_minios3.py:287-303 | Within one job a stage line lowers the exact progress if and only if its value is below the old value of a known stage or, for a new stage, below the average so far. |
| HiveProgress.ExactAfter | superset/hive_minios3.py:287-303 | A stage line changes the exact progress by exactly the drop told from the tally before it: the fall of the stage's value, or the distance of a new stage's value below the average, over the number of stages and of jobs. |
| HiveProgress.PercentFallsIff | superset/hive_minios3.py:287-303 | It lowers the reported percentage if and only if that drop is more than the fraction the report before cut off (for job 0, where progress may be negative, with the threshold of truncation towards zero). |
| HivePolling.HandleCursor | superset/hive_minios3.py:314-379 | The polling loop, on any number of polls, does what the turns say. |
| HivePolling.PollOnce | superset/hive_minios3.py:329-377 | One turn of the loop. |
| HivePolling.GetTrackingUrl | superset/hive_minios3.py:305-312 | The text after the marker in the first line that has it. |
| HiveRuns.TrackingUrlIff | superset/hive_minios3.py:305-312 | A tracking url is found exactly when some line has the marker "Tracking URL = ": it is what stands in the first such line after its first marker, up to the next one. |
| HiveRuns.RunLocates | superset/hive_minios3.py:344-354 | While a run goes on it knows a tracking url exactly when some poll showed a non-empty one, and the job id is that of the first one shown; it goes on exactly as long as no poll ended it. |
| HiveRuns.RunEnds | superset/hive_minios3.py:314-379 | A run ends at the first poll that shows the query finished or stopped, or a first tracking url without a job id: done, cancelled or crashed, in this precedence; all else is as before that poll. |
| HiveRuns.EmittedLines | superset/hive_minios3.py:355-375 | For arbitrary logs, growing or not: the lines passed on are, for each line number that some log read with a job id reaches, that line of the first such log, once and in order. |
| HivePolling.StoredIsMaximum | superset/hive_minios3.py:343-350 | The committed progress is the maximum of its start and every percentage computed. |
| HivePolling.EmittedIsObserved | superset/hive_minios3.py:369-375 | For a log that grows line by line, through failed fetches: nothing is passed on before a job id is known; then exactly the log as last observed, each line once and in order. |
| HivePolling.CrashesIffNoSlash | superset/hive_minios3.py:351-354 | The loop ends with an index error exactly on a first tracking url without '/'. |
| HivePolling.JobIdIff | superset/hive_minios3.py:353-353 | The job id is what stands before the last slash of the url, from the slash before that or from the start. |
| HivePolling.NamesNoJobIff | superset/hive_minios3.py:353-353 | It is empty exactly when the last slash is the first character or follows another slash. |
| HivePolling.TwoSlashesNameNoJob | superset/hive_minios3.py:353-353 | As in every url that ends in two slashes. |
| HivePolling.EmptyJobIdIff | superset/hive_minios3.py:351-354 | A turn leaves the loop with a tracking url but an empty job id exactly when it had so before or the first tracking url is of that kind. |
| HivePolling.EmptyJobIdRun | superset/hive_minios3.py:351-375 | A run whose first tracking url is of that kind passes no line on, ever. |
| TensorboardLogdir.ParseTensorboardLogDir | kubeflow/pipelines/k8s-helper.ts:70-95 | The loop over the parts, errors included, computes the specified string. |
| TensorboardLogdir.PrintParse | kubeflow/pipelines/k8s-helper.ts:70-95 | Splitting and stripping the printed form of any number of clean urls gives them back, and parsing it gives itself back. |
| TensorboardLogdir.ParseFixedPointIff | kubeflow/pipelines/k8s-helper.ts:73-95 | Without volumes, parsing is a fixed point on its own output exactly when no stripped part still has a match. |
| TensorboardLogdir.NestedLabelSurvives | kubeflow/pipelines/k8s-helper.ts:74-74 | A label written inside a label survives one pass of stripping. |
| TensorboardLogdir.StripFixesMatchFree | kubeflow/pipelines/k8s-helper.ts:74-74 | Stripping leaves a text alone exactly when it has no match, and otherwise shortens it. |
| LogdirParts.MatchIsLabel | kubeflow/pipelines/k8s-helper.ts:74-74 | What is cut is exactly "Series", a numeral of at least one digit, and a colon. |
| LogdirParts.StripFirst | kubeflow/pipelines/k8s-helper.ts:74-74 | One pass from the left: all before the first label is kept, the label is cut, and the rest is stripped in turn. |
| LogdirParts.LabelText | kubeflow/pipelines/k8s-helper.ts:94-94 | The label printed before the url at index `i` is "Series", `i + 1` in decimal, and a colon. |
| LogdirParts.VolumePart | kubeflow/pipelines/k8s-helper.ts:80-92 | The part "volume://", bucket, slash, key is looked up as that bucket and that key, further slashes included. |
| LogdirParts.VolumeWithoutKey | kubeflow/pipelines/k8s-helper.ts:80-92 | Without a slash behind the bucket the key looked up is empty. |
| LogdirParts.PlainPart | kubeflow/pipelines/k8s-helper.ts:73-95 | A part that does not name a volume once stripped resolves to its stripped text. |
| LogdirParts.VolumeParsed | kubeflow/pipelines/k8s-helper.ts:70-95 | A log directory of one volume part parses to what the look-up yields, its error included. |
| LogdirParts.ParseOutcome | kubeflow/pipelines/k8s-helper.ts:70-95 | Parsing fails only with the error of the first part that fails, and otherwise prints what the parts resolve to, in order. |
| Strings.SplitJoin | kubeflow/pipelines/k8s-helper.ts:73-73 | Splitting undoes joining for pieces without the separator. |
| Strings.JoinSnoc | kubeflow/pipelines/k8s-helper.ts:95-95 | A piece more is a separator and the piece more. |
| Strings.DecimalDenotes | druid-operator/controllers/druid/handler.go:796-812 | A numeral denotes its number and has no leading zero. |

## Left out

- Deleting crash-looping pods (`checkCrashStatus`), events, logging, watches, leader election and the retry queue: they do not take part in the protocol, or are I/O.
- Rules of spec validation: a boolean, since the regular expression is a library's and is not anchored.
- Zookeeper, metadata-store and deep-storage extensions of the common properties, and the errors they may raise.
- The pod, affinity, toleration, volume-claim-template, ingress, autoscaler and budget fields that are only copied: one `rest` string. Of the three probes of a container one is modelled; they behave alike.
- Service name templates that are not a prefix, one `%s` and a suffix.
- The env list is a value: Go's `append` to the cluster-level list may write into spare capacity behind it.
- SHA-1, JSON and base64: the hash is an arbitrary function of the content.
- Graceful deletion: a deleted object is gone at once, and finalizers of other objects are not modelled.
- A resource deleted and created again under its name within one run of passes: the world has one custom resource, which may go away.
- `persistentVolumeClaims` of the status, which the operator never fills.
- The three regular expressions of the Hive engine are parameters (what each yields on a line); the regular expression of the log directory is modelled in full.
- Float rounding of Hive's progress: exact rationals with the final truncation.
- The tracking-url transformer, taken to be set, and how long the loop sleeps; a poll or a commit that raises ends the loop and is not modelled.
- `findFileOnPodVolume` is a parameter that yields a path or an error.
- Runs.FinalizerHeldUntilCleanUp: assumes that other writers do not write the finalizer list themselves; they may still request deletion and edit everything else.
- FinalizerAdded.FinalizerListAfter: a statement about one faultless pass with nobody else writing, and so are HeldAfterPassIff and CleanUpExact; over runs the pass that adds the finalizer is such a one, what follows is not (`ProtectedFromFirstPass`).
- StatusReport.StatusExact: a statement about one faultless pass with nobody else writing; under failures a list shows the survivors as `SurvivorsTold` says.
- Finalizer.ReleasedIff: a statement about one faultless pass with nobody else writing; under failures and interference only the safety half holds.
- Integrity.PassKeepsIntegrity: assumes that the prune's lists of workloads answer and that its deletes of workloads take effect, since otherwise the code goes on to delete what a surviving workload refers to (`IntactIffSurvivorsSupported` says exactly when a reference is lost); and that others neither remove config maps or services nor write the resource's own workloads.
- Rollout.OneRolloutAtATime: assumes that nobody writes during a pass, that the rollout an update causes is visible in the status before the next pass looks, as nothing in the code waits for it, and that all planned workloads are stored at the start and at an edit, as the code does not wait for created ones to roll out.
- PlanOrder.QuiescentForEver: assumes that the iteration order is immaterial (`OrderImmaterial`); otherwise the pass in one order writes what the pass in another left, exactly as `QuietIffAllFresh` says.
- OrderMatters.OrderImmaterialIff: the equivalence is for specs that leave no label key from one user of a template to the next, do not give the operator's own annotation, and give the ports of nodes that use a shared probe; which of the remaining specs plan the same objects in every order is not characterised.
- Settling.SettlesForGood: assumes that the passes' lists answer, that nobody but the controllers writes meanwhile, and that every rollout finishes between two passes.
