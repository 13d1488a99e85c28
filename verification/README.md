# Supernetes in Dafny

Supernetes shows the jobs of an HPC batch system as Kubernetes Pods and runs Kubernetes Pods as batch jobs. Its README
promises "full bidirectional and eventually consistent state reconciliation of all Slurm jobs and all HPC nodes"
(`README.md:26`). This project models the parts of the controller and the agent that carry the promise and proves how
far it holds: which properties hold in every run, which hold exactly under a condition, and which concrete run breaks
the ones that do not hold.

`dafny verify dfyconfig.toml` checks everything.

## How it is put together

| files | repository | form |
|---|---|---|
| `WorkloadReconciler`, `WorkloadOutcome`, `Inventory` | workload reconciliation with garbage collection | classes proved against one function per pass, lemmas over all runs of passes |
| `Propagation` | the pass's status pushes, through the node reconciler and the tracker, to the providers | lemmas that compose the three |
| `Nodes`, `Loop` | node mark and sweep; the life of a reconciliation loop | class with contexts and instances; state machine |
| `PodStatus`, `Provider`, `ProviderEffects`, `ProviderHistory`, `StatusHistory` | a node's Pod provider, the tracker, phase changes | classes proved against functions; lemmas over all histories of calls |
| `Protocol`, `ProtocolHistory`, `ProtocolIndex`, `ProtocolRouting`, `ProtocolRuns` | the same provider methods run by any number of threads, lock by lock | state machine that refines `ProviderHistory` |
| `Dispatch`, `LogLine`, `Rfc3339`, `Tail`, `LogReader`, `LogPipeline` | a container's output from its pipes to a log API caller | state machine for the writers, classes for the ring, the tailer and the reader |
| `Naming`, `Labels`, `Sbatch` | Pod names, label conversion, the batch script's options | methods proved against functions |
| `Text`, `Wrappers` | string helpers, `Option` and `Result` | functions |

Code that updates fields or runs loops is a class or a method here too, and its contract equates the new state with a
function of the old one; the laws are then lemmas about that function. The loop lifecycle, the dispatcher and the
provider/tracker protocol are about interleavings, so there each lock operation is a step of a state machine whose
`Next` is total (a step that is not enabled changes nothing) and the lemmas quantify over all runs.

Every call out of the process is given its outcome by a parameter: a stream that breaks at any element, an apply that
fails after any subset, a status push that fails at any position, a delete that fails after any subset, a context
cancelled at any moment, any map iteration order.

## What the proofs found

- **Pods can leak.** A pass that applies Pods and then fails forgets them: it never commits its inventory, and a later
  pass deletes only what the committed inventory lists. `LeakWitness` is such a run; `LeakHistory` says over every run
  exactly which Pods are unaccounted for, and `ConvergesIff` exactly when a committed pass leaves just the listed Pods.
  A failed initial list leaks too, because the empty inventory stays (`workload/reconciler.go:79-88`): whatever is in
  the cluster survives a committed, empty listing (`ListFailureLeaks`).
- **`logReader.Read` can overwrite bytes.** Line 160 copies a chunk to the start of the buffer even when cached bytes are
  already there. A call is lossless for every stream if and only if its cache is empty or fills the buffer
  (`LosslessIffFits`); byte-by-byte readers always get everything (`OneByteReadsAll`). With the copy placed behind the
  cached bytes every call would be lossless (`IntendedIsLossless`, a deviation from the code, labelled as such).
- **`LimitBytes` does not limit what has been handed over.** The deferred function changes locals after the results are
  fixed. Short of a panic, all a limit does is tell the agent to stop: whatever the run of calls, the bytes returned and
  the state are those of a reader without a limit on a stream that ends some chunks in (`LimitOnlyEndsSooner`). The
  slice expression in the function panics exactly when `LimitDoesNotLimit` says. A byte-by-byte reader of any stream
  longer than the limit gets one byte more than the limit; its next call panics if and only if a byte is still handed
  over, and ends the stream otherwise (`LimitIsOverrun`).
- **A report can reach the wrong Pod.** The tracker releases its lock before it calls the provider, and the provider
  looks at the key only. The Pod a report is applied to bears the identifier it was looked up by if and only if no Pod
  of that name was created since the lookup or the last one created bears that identifier (`DeliveredToTheRightPod`);
  `StaleDelivery` is a run in which neither holds.
- **The running flag can lie.** From every reachable state between calls with the flag up, the loop can end by its own
  steps with the flag still up if and only if the outer context is cancelled (`FlagLiesIff`); Start then does nothing
  (`StartAlone`). A flag that is down is always right (`FlagIsTruthful`).
- **Tailing a partial line splits it.** Scanning a file in two instalments is faithful if and only if the cut falls on a
  line end (`ScanInTwo`).
- **Names.** A sanitised name is a label in the sense of RFC 1123 if and only if the lower-cased input has no non-ASCII
  Latin-1 letter, keeps at least one character, and these with the gaps between them are at most 63 (`CompliantIff`):
  such letters are kept, "!" gives the empty string, and without a bound nothing is cut. `PodNameIsLabelIff` is the
  exact condition for Pod names, which every ASCII job name meets while id and index leave room (`PodNameIsLabel`); the
  63 character limit holds for every job name exactly then (`FitsIffRoom`).
- **Start times and restart counts.** changePhase carries them over from the status the Pod has when it is called, but a
  creation, an update and a report each put another status there first. Over every history a terminated container's
  start time is known if and only if the status last given said it was running since then (`StartKnownIff`), and its
  restart count is the one last given (`RestartsAreGiven`). The workload reconciler's reports carry no container
  statuses, so the ordinary end of a job forgets both (`BareReportForgets`, `OrdinaryEndForgetsStart`).
- **Log order.** A line's time stamp is taken before the mutex. Each reader's own lines are in time order
  (`OwnLinesInOrder`), but the file is not if and only if some reader took the mutex while another waited with an
  earlier stamp (`LateIffOvertaken`, `InOrderUnlessOvertaken`), which can happen (`StampsMayGoBackwards`).

## Assumptions

- ApplyAll reports one change per object and in their order (`AllMatched`), DeleteAll deletes what it is given when it
  succeeds, nobody else edits the untracked Pods between passes, and the initial list call is accurate (`Accurate`).
- Virtual Kubelet creates only Pods the provider does not have, updates only ones it has, and leaves the identifier
  label alone in updates and deletions; job ids, given by the agent or already on a Pod, are non-empty and not in use
  (`Relied`). Only the lemmas that need this require it.
- Calls to the agent, to the notifier and a reconciliation pass return.
- The tracker's `UpdateStatus` passes its `cache` argument on; its only caller passes false
  (`workload/reconciler.go:133`). The lemmas that need this require `UncachedRoutes`.
- The dispatcher's clock does not run backwards between two readings (stamps have a precision of one second).
- For `Propagation`: the jobs of a listing have different ids, no tracked Pod has the name of a listed job's Pod, and
  nothing else happens while the pushes are delivered.

## Model

| member | source | states |
|---|---|---|
| WorkloadReconciler.Reconciler.Reconcile | src/controller/pkg/workload/reconciler.go:73-171 | one pass changes cluster, inventory and pushes, and succeeds or fails, as Pass says for every script of outcomes; the inventory is replaced only at the very end |
| WorkloadReconciler.Reconciler.Initialize | src/controller/pkg/workload/reconciler.go:79-88 | the first pass creates an inventory even if listing fails, and it then stays as far as it got |
| WorkloadReconciler.Reconciler.Stream | src/controller/pkg/workload/reconciler.go:93-144 | the stream loop stops at the first workload that fails; what was applied, listed and pushed by then is the union over the workloads reached |
| WorkloadReconciler.Reconciler.Process | src/controller/pkg/workload/reconciler.go:103-143 | one workload: a failed conversion touches nothing, a failed apply leaves some of its Pods and lists none, a successful one lists all of them before any push |
| WorkloadReconciler.Reconciler.PushAll | src/controller/pkg/workload/reconciler.go:122-143 | pushes go out in change order up to and including the first that fails |
| WorkloadReconciler.Reconciler.PushChange | src/controller/pkg/workload/reconciler.go:123-137 | a created or unchanged Pod is pushed to its provider, index 0 then also to the tracker, a configured one not at all |
| WorkloadReconciler.Reconciler.DeleteAll | src/controller/pkg/workload/reconciler.go:153-158 | deleting the objects Diff enumerates removes exactly the stale ids, or an arbitrary part of them on failure |
| WorkloadReconciler.CommittedListsAll | src/controller/pkg/workload/reconciler.go:93-144 | in a stream that went through, what was applied, what the new inventory lists and the Pods of all listed jobs are the same set |
| WorkloadReconciler.PassAccounts | src/controller/pkg/workload/reconciler.go:73-171 | a committed pass leaves the Pods of the listed jobs plus earlier leaks and reclaims those it lists; a failed pass adds exactly its own leak |
| WorkloadReconciler.DeletesOnlyStale | src/controller/pkg/workload/reconciler.go:146-158 | garbage collection deletes only what the inventory held and nothing the pass applied |
| WorkloadReconciler.LeakHistory | src/controller/pkg/workload/reconciler.go:73-171 | over every run of passes failing anywhere, a Pod is unaccounted for if and only if some pass left it behind and no later committed pass listed it |
| WorkloadReconciler.ConvergesIff | src/controller/pkg/workload/reconciler.go:146-168 | after a committed pass the cluster holds exactly the Pods of the listed jobs if and only if every Pod left behind earlier is among them |
| WorkloadReconciler.LeavesNothingIff | src/controller/pkg/workload/reconciler.go:95-158 | a failed pass leaves nothing behind if and only if it applied only Pods its inventory already had |
| WorkloadReconciler.CleanRunConverges | src/controller/pkg/workload/reconciler.go:73-171 | if no failing pass got past known Pods, every committed pass leaves exactly the listed Pods |
| WorkloadReconciler.LeaksForever | src/controller/pkg/workload/reconciler.go:146-168 | a leaked Pod stays through any further passes until a committed one lists it |
| WorkloadReconciler.LeakWitness | src/controller/pkg/workload/reconciler.go:95-158 | a run of two passes after which a committed, empty listing still leaves a job's Pods in the cluster |
| WorkloadReconciler.ListFailureLeaks | src/controller/pkg/workload/reconciler.go:79-88 | whatever is in the cluster when the initial list fails is still there after a committed, empty listing |
| WorkloadReconciler.InventoryEntered | src/controller/pkg/workload/reconciler.go:79-120 | every id the inventory holds was listed by a committed pass or by the initial list call |
| WorkloadReconciler.StaleWasEntered | src/controller/pkg/workload/reconciler.go:146-158 | every id handed to DeleteAll was entered earlier and is not one the pass just applied, whatever passes failed |
| WorkloadReconciler.PushedExactly | src/controller/pkg/workload/reconciler.go:122-137 | a push to a provider is made exactly for the Pods not configured, a push to the tracker exactly for such a primary Pod |
| WorkloadOutcome.UnreachableChangesNothing | src/controller/pkg/workload/reconciler.go:74-77 | a pass whose list call fails leaves cluster and inventory as they are, applies, deletes and pushes nothing, and fails |
| WorkloadOutcome.FailedStockTaking | src/controller/pkg/workload/reconciler.go:79-88 | a first pass that cannot take stock changes nothing in the cluster and remembers exactly what was listed before the failure |
| WorkloadOutcome.CommitsIff | src/controller/pkg/workload/reconciler.go:73-171 | a pass commits if and only if the list call succeeded, an inventory was there or could be made, every job was converted, applied and pushed, the stream ended properly and deletion succeeded |
| WorkloadOutcome.ClusterAfter | src/controller/pkg/workload/reconciler.go:73-171 | whatever happened, a Pod was applied, or handed to deletion, or is in the cluster afterwards, exactly under conditions on the outcomes alone |
| WorkloadOutcome.InventoryAfter | src/controller/pkg/workload/reconciler.go:79-168 | the inventory afterwards holds exactly the listed Pods if the pass commits and otherwise what the pass started from |
| WorkloadOutcome.AppliedExactly | src/controller/pkg/workload/reconciler.go:93-120 | a stream applies exactly the Pods of the jobs it reached, or the part of them a failing apply got to, and lists exactly those of jobs applied in full |
| WorkloadOutcome.StreamStopsAt | src/controller/pkg/workload/reconciler.go:93-144 | the stream stops at the first job that does not go through, with that job's share done |
| WorkloadOutcome.PushPositions | src/controller/pkg/workload/reconciler.go:122-137 | pushes go out in Pod order, one for each Pod not reconfigured, with the tracker's right after the primary Pod's |
| WorkloadOutcome.PushedUpToFailure | src/controller/pkg/workload/reconciler.go:122-137 | a push that fails has been made and is the job's last; a job goes through exactly if it was applied and none failed |
| WorkloadOutcome.IdsAre | src/controller/pkg/workload/conversion.go:74-79 | a job's ids are one Pod each under its name in the workload namespace |
| Propagation.PhaseAfter | src/controller/pkg/provider/provider.go:223-255 | after any deliveries a Pod, stored or cached, has the phase the pushes that hit it agree on, and the one it had if none does |
| Propagation.PhasesPropagate | src/controller/pkg/workload/reconciler.go:122-137 | after a committed pass with its pushes delivered, every Pod that was not reconfigured and whose node has a provider is there, stored or cached, with its job's phase |
| Propagation.TrackedFollows | src/controller/pkg/tracker/tracker.go:62-79 | and the tracked Pod of a job whose primary Pod was not reconfigured has the job's phase where it is stored |
| Propagation.TrackedFollowsRun | src/controller/pkg/tracker/tracker.go:41-79 | the same from any quiet state of any interleaving of provider operations, for the tracked Pod that bears the job's id wherever it is stored; that the tracker points there follows from the index's exactness |
| Inventory.Inventory.Populate | src/controller/pkg/inventory/inventory.go:65-90 | appends one entry per listed Pod up to the first without a known kind; nothing if listing fails |
| Inventory.Inventory.AddChangeSet | src/controller/pkg/inventory/inventory.go:93-104 | appends one entry per change, nothing for a nil set |
| Inventory.Inventory.ListMetadata | src/controller/pkg/inventory/inventory.go:107-118 | lists every entry's object, or fails exactly when some id does not parse |
| Inventory.Inventory.VersionOf | src/controller/pkg/inventory/inventory.go:122-129 | the version of the first entry for an object, empty if there is none |
| Inventory.FirstVersionIs | src/controller/pkg/inventory/inventory.go:122-129 | that is the version of the entry for the object that has none before it, and empty for an object without an entry |
| Inventory.VersionsAreV1 | src/controller/pkg/inventory/inventory.go:147-152 | objects found stale among listed or applied Pods are deleted as version v1 |
| Inventory.Inventory.Diff | src/controller/pkg/inventory/inventory.go:121-160 | the objects of this inventory missing from the target, each exactly once and with its first entry's version; fails exactly when either does not parse |
| Nodes.Instance.Start | src/controller/pkg/node/reconciler.go:44-56 | an instance with a live context is left alone, any other gets a new one derived from the loop's |
| Nodes.Instance.Stop | src/controller/pkg/node/reconciler.go:58-62 | cancels the current context, if there ever was one |
| Nodes.Reconciler.Reconcile | src/controller/pkg/node/reconciler.go:130-190 | one pass computes Pass for some iteration order of the map and succeeds exactly when the stream opens and ends |
| Nodes.Reconciler.Receive | src/controller/pkg/node/reconciler.go:141-171 | the stream loop marks, creates and updates as Received says |
| Nodes.Reconciler.See | src/controller/pkg/node/reconciler.go:151-170 | a known node is marked and keeps its object, an unknown one gets a new one; both get the reported status |
| Nodes.Reconciler.StartAndStop | src/controller/pkg/node/reconciler.go:173-180 | visits every instance once, in the order returned, whatever is cancelled meanwhile |
| Nodes.Reconciler.StartOrStop | src/controller/pkg/node/reconciler.go:175-179 | a tracked instance is started, an untracked one stopped; no other instance changes |
| Nodes.Reconciler.UpdateStatus | src/controller/pkg/node/reconciler.go:192-202 | a Pod's status goes to its node's instance; nowhere if it is unscheduled or its node unknown |
| Nodes.OneLiveContextPerName | src/controller/pkg/node/reconciler.go:44-62 | over every run, of all contexts ever made for a name by whatever instance at most one is live, and it is the current one of the instance in the map |
| Nodes.InstancesAreDistinct | src/controller/pkg/node/reconciler.go:151-167 | in every reachable state different nodes have different instances |
| Nodes.FailedPassOnlyAdds | src/controller/pkg/node/reconciler.go:130-149 | a pass that fails starts, stops and removes nothing; it may only add unstarted instances |
| Nodes.PassMatchesStream | src/controller/pkg/node/reconciler.go:130-190 | after a successful pass the map has exactly the streamed names; known nodes keep their instance, others get one never used before |
| Nodes.NothingElseRuns | src/controller/pkg/node/reconciler.go:173-187 | after a successful pass, whatever was cancelled meanwhile, every live context is a streamed node's |
| Nodes.StatusIsLatest | src/controller/pkg/node/reconciler.go:169-170 | a streamed node has the status it was last streamed with, even if the stream breaks later |
| Nodes.UndisturbedPassConverges | src/controller/pkg/node/reconciler.go:130-190 | an undisturbed successful pass of a live loop leaves running exactly the streamed nodes and restarts none that ran |
| Nodes.KeepsInstanceIff | src/controller/pkg/node/reconciler.go:151-187 | over every run a node has the instance it started with if and only if no successful pass since left it out; a dropped instance never returns |
| Nodes.NeverRevives | src/controller/pkg/node/reconciler.go:44-62 | over every run a context that is done stays done, and nothing under a cancelled loop is live again |
| Nodes.RoutesToStreamed | src/controller/pkg/node/reconciler.go:192-202 | after a successful pass a status finds an instance exactly if its node was streamed, the same one as before if there was one |
| Loop.Reachable | src/controller/pkg/reconciler/reconciler.go:57-102 | the mutex, wait group, cancel function and flag invariants hold in every reachable state |
| Loop.AtMostOneLoop | src/controller/pkg/reconciler/reconciler.go:57-93 | in every reachable state live loop goroutines equal the wait group's count and are at most one; passes never overlap |
| Loop.PassStep | src/controller/pkg/reconciler/reconciler.go:76-91 | a spawned goroutine does nothing before it begins a pass, each tick taken begins one, and a pass goes on until it ends, after which the goroutine selects |
| Loop.PassesBalance | src/controller/pkg/reconciler/reconciler.go:76-91 | over every run a goroutine has begun one pass more than it has ended while in one and as many otherwise, and none exactly before its first step |
| Loop.LastPassEnded | src/controller/pkg/reconciler/reconciler.go:76-91 | a goroutine that selects, leaves or is gone has ended a pass and begun none since |
| Loop.NoneAliveWhenStopReturns | src/controller/pkg/reconciler/reconciler.go:95-102 | when Stop returns no loop goroutine is alive and the flag is down |
| Loop.NoneBeginsBeforeStart | src/controller/pkg/reconciler/reconciler.go:57-93 | from then on none begins a pass until a Start reaches its body |
| Loop.NoDeadlock | src/controller/pkg/reconciler/reconciler.go:57-102 | while any call is unfinished some internal step is possible |
| Loop.WaitingStopHasCancelled | src/controller/pkg/reconciler/reconciler.go:86-101 | while Stop waits, the one goroutine left has a done context, so each select may leave |
| Loop.FlagIsTruthful | src/controller/pkg/reconciler/reconciler.go:61-68 | between calls a lowered flag means no loop, and a raised one without a loop means the outer context is cancelled |
| Loop.FlagLiesIff | src/controller/pkg/reconciler/reconciler.go:57-102 | from every reachable state between calls with the flag up, the loop can end by its own steps with the flag still up if and only if the outer context is cancelled |
| Loop.StartAlone | src/controller/pkg/reconciler/reconciler.go:57-70 | an undisturbed Start by any caller spawns a loop if the flag is down and changes nothing if it is up, loop or no loop |
| Loop.StopFinishes | src/controller/pkg/reconciler/reconciler.go:95-102 | from every reachable state between calls, any caller's Stop and the loop's own steps can lead to its return, with the flag down and no loop left |
| PodStatus.Pod.ChangePhase | src/controller/pkg/provider/phase.go:16-110 | the status is rebuilt from the old one as Changed says, in place |
| PodStatus.ReadyIffRunning | src/controller/pkg/provider/phase.go:19-72 | containers keep their order, names and images; readiness and the running state are the Running phase, and so are the conditions at their places |
| PodStatus.ChangedIsCoherent | src/controller/pkg/provider/phase.go:19-106 | the conditions are ContainersReady, Initialized, Ready and PodScheduled, each once, the first and third exactly when running and the others always; and each phase gives its container state, exit code and reason |
| Provider.Tracker.Track | src/controller/pkg/tracker/tracker.go:41-52 | binds the Pod's identifier label to its metadata and provider |
| Provider.Tracker.Untrack | src/controller/pkg/tracker/tracker.go:54-60 | forgets the Pod's identifier and no other |
| Provider.Tracker.Lookup | src/controller/pkg/tracker/tracker.go:62-76 | the report goes to the provider and key tracked for the identifier, with the reporting Pod's status; nowhere if there is none |
| Provider.PodProvider.CreatePod | src/controller/pkg/provider/provider.go:68-118 | consumes a cached status, dispatches and registers as needed, stores that very Pod object and notifies, all as Created says |
| Provider.PodProvider.Load | src/controller/pkg/provider/provider.go:76-80 | a cached status replaces the Pod's and leaves the cache |
| Provider.PodProvider.Admit | src/controller/pkg/provider/provider.go:82-108 | a tracked Pod is submitted exactly if it has no identifier, fails if refused, and is registered exactly if it then has one |
| Provider.PodProvider.Store | src/controller/pkg/provider/provider.go:110-114 | rewrites the status for its phase, stores the Pod, notifies once with the stored status |
| Provider.PodProvider.UpdatePod | src/controller/pkg/provider/provider.go:120-136 | stores the given Pod with its status rewritten and notifies |
| Provider.PodProvider.DeletePod | src/controller/pkg/provider/provider.go:138-170 | an unknown Pod changes nothing; a known one is cancelled and untracked if tracked, removed, and reported deleted |
| Provider.PodProvider.Release | src/controller/pkg/provider/provider.go:151-160 | a tracked Pod's job is asked to be deleted and its identifier leaves the tracker |
| Provider.PodProvider.Remove | src/controller/pkg/provider/provider.go:162-166 | the Pod leaves the map and is reported succeeded and deleted |
| Provider.PodProvider.UpdateStatus | src/controller/pkg/provider/provider.go:223-255 | a report for an absent Pod is cached or dropped; for a stored one it acts exactly if the phase differs |
| Provider.PodProvider.Overwrite | src/controller/pkg/provider/provider.go:242-248 | the reported status replaces the stored one and is rewritten and notified once; no other Pod changes |
| ProviderHistory.StateIsHistory | src/controller/pkg/provider/provider.go:68-255 | for every history of calls, whether a Pod is stored, its cached report and its whole status are what the history says |
| StatusHistory.StartKnownIff | src/controller/pkg/provider/phase.go:50-106 | over every history a stored container is terminated exactly in a terminal phase, and then its start time is t if and only if the status last given said it was running since t |
| StatusHistory.RestartsAreGiven | src/controller/pkg/provider/phase.go:74-79 | over every history a container's restart count is the one the status last given has for it, zero if it has none |
| StatusHistory.AlwaysCoherent | src/controller/pkg/provider/phase.go:19-106 | over every history, every stored status and every one Virtual Kubelet was told of has the conditions and container states of its phase |
| StatusHistory.BareReportForgets | src/controller/pkg/provider/provider.go:242-245 | after any history, a report without container statuses that changes the phase leaves no restarts and, in a terminal phase, no start time |
| StatusHistory.OrdinaryEndForgetsStart | src/controller/pkg/provider/provider.go:242-245 | after any history, a Pod created running and then reported succeeded has lost the start time it had |
| StatusHistory.DeletionKeepsStartIff | src/controller/pkg/provider/provider.go:162-166 | what Virtual Kubelet is told of a deleted container has a start time if and only if the status handed over with the deletion said it was running since then |
| ProviderHistory.PodsAreIndependent | src/controller/pkg/provider/provider.go:68-255 | what a provider knows of a Pod is that Pod's own history replayed |
| ProviderHistory.DisjointUnless | src/controller/pkg/provider/provider.go:120-136 | stored and cached keys stay disjoint through an operation if and only if it is not an update of a Pod with a cached status |
| ProviderHistory.AlwaysDisjoint | src/controller/pkg/provider/provider.go:68-255 | with updates only of stored Pods, stored and cached keys are always disjoint |
| ProviderHistory.NotifierIsCurrent | src/controller/pkg/provider/provider.go:110-114 | after every history Virtual Kubelet was last told exactly the stored status of every stored Pod, and of deletion for every other it heard of |
| ProviderHistory.ReportEffect | src/controller/pkg/provider/provider.go:223-255 | a report never adds a Pod, caches exactly when asked to and absent, sets the phase, and notifies if and only if the phase changed, with its own message |
| ProviderHistory.DispatchedOnce | src/controller/pkg/provider/provider.go:82-108 | a job is submitted if and only if a tracked Pod has no identifier; an accepted one is stored with the returned identifier and would not be submitted again |
| ProviderEffects.SubmittedExactly | src/controller/pkg/provider/conversion.go:18-80 | a job is submitted, once, if and only if the Pod lacks the untracked kind and an identifier, with the Pod's containers, its node and the additional ones, exactly its option and extra labels, and its name |
| ProviderEffects.LabelsAfterCreation | src/controller/pkg/provider/conversion.go:82-93 | an accepted job's identifier and extras go onto the stored Pod and every other label stays; otherwise all labels stay |
| ProviderEffects.DeletionCancels | src/controller/pkg/provider/provider.go:146-160 | deleting a stored Pod asks for its job to be deleted if and only if a user created it, by its identifier, name and extras; deleting an unknown one does nothing |
| ProviderEffects.OnlyCreationAndDeletionCall | src/controller/pkg/provider/provider.go:120-136 | updates and reports say nothing to the agent |
| ProviderEffects.ToldOnce | src/controller/pkg/provider/provider.go:110-166 | every creation, update and deletion is notified once, with the message of that operation and the status it leaves |
| Protocol.LocksAlways | src/controller/pkg/provider/provider.go:68-255 | in every reachable state each lock is held by exactly the threads whose position says so |
| Protocol.MutualExclusion | src/controller/pkg/tracker/tracker.go:41-65 | no two threads are inside one provider, and nobody reads the tracker's map while it is written |
| Protocol.NoDeadlock | src/controller/pkg/provider/provider.go:68-170 | in every reachable state with an unfinished operation some thread can take its next step |
| Protocol.StepsCountDown | src/controller/pkg/provider/provider.go:68-170 | every step of an operation under way brings the system closer to done |
| Protocol.OperationsEnd | src/controller/pkg/provider/provider.go:68-170 | without new operations, n threads take at most 7 n steps in whatever order |
| ProtocolRuns.CallRuns | src/controller/pkg/provider/provider.go:68-255 | from any quiet state any thread can carry out any call at any provider, with exactly the effect of the sequential operation |
| ProtocolRuns.RouteRuns | src/controller/pkg/tracker/tracker.go:62-79 | and have any report routed to the Pod the tracker has for its identifier, or nowhere |
| ProtocolRuns.EveryHistoryHappens | src/controller/pkg/provider/provider.go:68-255 | so every history of operations can happen at every provider |
| ProtocolHistory.PartsMakeOp | src/controller/pkg/provider/provider.go:68-170 | the parts of a method between its calls out, run in sequence, are the sequential operation |
| ProtocolHistory.Linearizable | src/controller/pkg/provider/provider.go:68-255 | under every interleaving a provider nobody is inside of is its completed operations replayed in mutex order; otherwise it differs by that one thread's half-done operation |
| ProtocolHistory.QuietIsReplay | src/controller/pkg/provider/provider.go:68-255 | the same, read at any moment the mutex is free |
| ProtocolHistory.ConcurrentStateIsHistory | src/controller/pkg/provider/provider.go:68-255 | so stored, cached and notified state follow the history under every interleaving |
| ProtocolHistory.RoutedNeverCached | src/controller/pkg/tracker/tracker.go:62-75 | if the tracker is only called without caching, no report is cacheable anywhere between that call and its delivery |
| ProtocolHistory.NoResurrection | src/controller/pkg/tracker/tracker.go:62-79 | a Pod gone at one moment is gone at any later one unless its provider completed a creation or update of it in between |
| ProtocolHistory.RoutedAddsNothing | src/controller/pkg/provider/provider.go:230-240 | delivering a routed report adds no key to the Pods or the cache, even if its Pod was deleted since the lookup |
| ProtocolIndex.IndexAlways | src/controller/pkg/provider/provider.go:103-107 | under every interleaving the index points at a Pod exactly from the write in CreatePod to the write in DeletePod, and no identifier has two owners |
| ProtocolIndex.IndexIsExact | src/controller/pkg/tracker/tracker.go:41-60 | with no operation mid-way an identifier maps to a Pod and provider if and only if that provider stores that tracked Pod with that identifier, and only one such Pod exists |
| ProtocolRouting.LawfulAlways | src/controller/pkg/provider/provider.go:120-136 | under every interleaving the updates completed are of Pods stored at that point |
| ProtocolRouting.AlwaysDisjointConcurrently | src/controller/pkg/provider/provider.go:68-255 | under every interleaving stored and cached keys are disjoint whenever the mutex is free |
| ProtocolRouting.GoneUntilCreated | src/controller/pkg/provider/provider.go:138-170 | under every interleaving a Pod that was gone and is there later was created in between |
| ProtocolRouting.RoutesAlways | src/controller/pkg/tracker/tracker.go:62-79 | for every routed report under way, the Pod under its key bears the identifier looked up exactly if it is still the one meant |
| ProtocolRouting.DeliveredToTheRightPod | src/controller/pkg/tracker/tracker.go:62-79 | when a routed report takes effect, the Pod under its key bears the identifier it was looked up by if and only if no Pod of that name was created since the lookup or the last one created bears it too |
| ProtocolRouting.StaleDelivery | src/controller/pkg/tracker/tracker.go:62-79 | a run, everyone keeping to what is relied on, in which a report for one job is applied to another job's Pod of the same name |
| Dispatch.Reachable | src/agent/pkg/dispatch/dispatch.go:51-62 | in every interleaving of readers and partial writes each reader has printed a prefix of its stream, and the file plus the holder's unwritten rest is whole lines |
| Dispatch.WholeLines | src/agent/pkg/dispatch/dispatch.go:51-55 | whenever the mutex is free the file consists of whole lines in mutex order |
| Dispatch.SurvivesScan | src/agent/pkg/dispatch/dispatch.go:89-93 | a printed line comes back from the scanner unchanged if and only if the output has no line feed and does not end in a carriage return |
| Dispatch.ScanRender | src/agent/pkg/server/workload.go:289-289 | scanning a file of clean lines gives those lines |
| Dispatch.MatchingLines | src/agent/pkg/server/workload.go:297-303 | parsing and filtering it for one container gives that container's entries in order |
| Dispatch.NamedIsMerge | src/agent/pkg/dispatch/dispatch.go:89-93 | a container's entries are a merge of what its two readers printed |
| Dispatch.Demultiplex | src/agent/pkg/server/workload.go:289-312 | at any moment, under every interleaving, filtering the file for a container gives a merge of prefixes of its two streams, each in its own order |
| Dispatch.DemultiplexAll | src/agent/pkg/server/workload.go:289-312 | once everything is drained the merge is of the two complete streams |
| Dispatch.CanDrain | src/agent/pkg/dispatch/dispatch.go:57-62 | from every reachable state the readers can go on until every pipe is drained and every line is out |
| Dispatch.OwnLinesInOrder | src/agent/pkg/dispatch/dispatch.go:57-62 | in every interleaving each reader's own lines are in the file in the order of their stamps |
| Dispatch.LateIffOvertaken | src/agent/pkg/dispatch/dispatch.go:51-62 | the file, or what waits for the mutex, is out of time order if and only if at some point a reader took the mutex while another waited with an earlier stamp |
| Dispatch.InOrderUnlessOvertaken | src/agent/pkg/dispatch/dispatch.go:51-62 | with nobody waiting, the file itself is out of time order if and only if that happened |
| Dispatch.StampsMayGoBackwards | src/agent/pkg/dispatch/dispatch.go:60-92 | a run in which one reader stamps its line first and another, stamped later, writes first, for any two increasing stamps |
| LogLine.RoundTrip | src/agent/pkg/server/workload.go:344-365 | parsing the printed form of a time, name and text returns all three if and only if the name has no space |
| LogLine.ParsedByPosition | src/agent/pkg/server/workload.go:344-365 | a line with a stamp before its first space has its container between the first two and its text after them; otherwise it is all text, with the zero time |
| LogLine.WhoGetsALine | src/agent/pkg/server/workload.go:300-303 | a line without metadata is for everyone who asks, whole; any other for its container only |
| LogLine.ScanAppend | src/agent/pkg/server/workload.go:332-334 | reading in two instalments with a fresh scanner sees the lines of the whole if the first ends at a line end |
| LogLine.ScanTorn | src/agent/pkg/server/workload.go:332-334 | a cut inside a line makes exactly one line too many |
| LogLine.ScanInTwo | src/agent/pkg/server/workload.go:332-334 | so two instalments are faithful if and only if the cut falls on a line end |
| LogLine.TooLongIff | src/agent/pkg/server/workload.go:323-325 | the scanner gives up if and only if 65536 characters go by somewhere without a newline |
| Rfc3339.ParseFormat | src/agent/pkg/dispatch/dispatch.go:91-91 | every stamp the dispatcher prints is parsed back to the same stamp |
| Rfc3339.LayoutByExample | src/agent/pkg/dispatch/dispatch.go:91-91 | two stamps as RFC 3339 writes them, behind UTC and in UTC |
| Rfc3339.NeighbourDays | src/controller/pkg/provider/handler.go:155-157 | the calendar behind the conversion has no gaps across days, months and years |
| Rfc3339.FormatHasNoSpace | src/agent/pkg/dispatch/dispatch.go:91-91 | a stamp has no space, so it is always the first word |
| Rfc3339.ToUtcSameInstant | src/controller/pkg/provider/handler.go:155-157 | the UTC form printed for the caller is a proper date and clock of the same moment, across day, month and year ends |
| Tail.Ring.Put | src/agent/pkg/server/workload.go:305-308 | storing drops the oldest slot and appends the line |
| Tail.Ring.Do | src/agent/pkg/server/workload.go:314-320 | walking the ring gives the filled slots, oldest first |
| Tail.RingIsLast | src/agent/pkg/server/workload.go:283-321 | what is left in the ring after m lines is exactly the last min(n, m), oldest first |
| Tail.TailLines | src/agent/pkg/server/workload.go:283-321 | the ring pass over any scanned lines sends exactly the last n matching ones |
| Tail.Tailer.Turn | src/agent/pkg/server/workload.go:246-338 | one turn of the loop with every exit: cancelled, stat, close, open, fstat or reading failing, waiting, reopening, token too long, done, or going on |
| Tail.Tailer.Drain | src/agent/pkg/server/workload.go:283-321 | every matching line is sent in order, or only the last n |
| Tail.Follow | src/agent/pkg/server/workload.go:236-338 | over any number of polls of a file growing by whole lines: the last n or all matching lines of the first poll, then each later one once and in order |
| Tail.FollowAll | src/agent/pkg/server/workload.go:236-338 | without a line count, what was sent is exactly the matching lines of the final file |
| Tail.ReplacedIsReadWhole | src/agent/pkg/server/workload.go:246-280 | a file that was replaced is read from its start, whatever was read of the old one |
| Tail.FailedTurns | src/agent/pkg/server/workload.go:246-325 | a turn that fails before scanning sends nothing; one that fails in scanning has sent the lines before the failure |
| LogReader.Reader.Read | src/controller/pkg/provider/handler.go:83-170 | one call does to buffer, queue, cache and count what ReadStep says, with every exit and the possible panic |
| LogReader.Reader.Receive | src/controller/pkg/provider/handler.go:112-150 | skips to the first chunk that passes the filters, or to the end of the stream |
| LogReader.Reader.Defer | src/controller/pkg/provider/handler.go:86-96 | the deferred function counts, may close, may panic, and cannot change the result |
| LogReader.SkipToPassing | src/controller/pkg/provider/handler.go:132-149 | what is still to be read starts with the first chunk that passes |
| LogReader.PlainReadsAll | src/controller/pkg/provider/handler.go:132-149 | with a line count, or no time option that leaves anything out, reading returns the rendering of every chunk, byte by byte or with buffers that hold any line |
| LogReader.SurvivorsRendered | src/controller/pkg/provider/handler.go:132-147 | without a line count exactly the chunks not stamped before the later of the two time options are returned, in order |
| LogReader.SinceIsSuffix | src/controller/pkg/provider/handler.go:132-147 | on a stream in time order that is its suffix from the first chunk that is young enough |
| LogReader.RenderedAs | src/controller/pkg/provider/handler.go:154-159 | a chunk is returned as its text and a newline, after a stamp that reads as the same moment in UTC if timestamps are asked for |
| LogReader.EndIff | src/controller/pkg/provider/handler.go:115-130 | a call reports the end if and only if it is not filled from the cache and nothing that passes is left, and returns the cached bytes with it |
| LogReader.LosslessIffFits | src/controller/pkg/provider/handler.go:98-166 | a call loses, repeats and reorders nothing, for every stream, if and only if the cache is empty or fills the buffer |
| LogReader.FitsIsLossless | src/controller/pkg/provider/handler.go:98-166 | the same, one call at a time |
| LogReader.OverlapLoses | src/controller/pkg/provider/handler.go:160-160 | whenever the condition fails there is a chunk with which bytes are lost |
| LogReader.ReadsConserve | src/controller/pkg/provider/handler.go:83-170 | over any run of fitting calls, returned then cached then still to come is constant |
| LogReader.OneByteFits | src/controller/pkg/provider/handler.go:104-108 | one-byte reads always fit |
| LogReader.OneByteProgress | src/controller/pkg/provider/handler.go:83-170 | a one-byte read returns a byte if and only if one is left |
| LogReader.OneByteReadsAll | src/controller/pkg/provider/handler.go:83-170 | k one-byte reads return exactly the first k bytes of the rendered stream |
| LogReader.LongBuffersFit | src/controller/pkg/provider/handler.go:163-166 | buffers that hold any single line always fit and leave nothing cached |
| LogReader.LongBuffersReadAll | src/controller/pkg/provider/handler.go:83-170 | with buffers that hold any single line, as many calls as there are passing chunks return the rendering of all of them |
| LogReader.LimitDoesNotLimit | src/controller/pkg/provider/handler.go:86-96 | in one call LimitBytes changes no byte, count or error; it makes the call panic if and only if the total exceeds the limit by more than the buffer |
| LogReader.ReadsIgnoreLimit | src/controller/pkg/provider/handler.go:86-96 | over any run of calls without a panic, a limit changes nothing about chunks that are handed over anyway |
| LogReader.LimitOnlyEndsSooner | src/controller/pkg/provider/handler.go:86-96 | and with the agent stopping at any point once the reader is closed, bytes and state are those without a limit on a stream that ends sooner |
| LogReader.LimitIsOverrun | src/controller/pkg/provider/handler.go:86-96 | for every limit and longer stream, wherever the agent stops, a byte-by-byte reader gets one byte more than the limit; its next call panics if and only if a byte is still handed over, and ends the stream otherwise |
| LogReader.IntendedAgrees | src/controller/pkg/provider/handler.go:160-160 | copying behind the cached bytes would differ for no buffer that fits |
| LogReader.IntendedIsLossless | src/controller/pkg/provider/handler.go:160-160 | and would lose nothing for any buffer; a deviation from the code |
| LogPipeline.RenderIsPrinted | src/controller/pkg/provider/handler.go:159-159 | unfiltered chunks are rendered as the sent lines, a newline after each |
| LogPipeline.EndToEnd | src/agent/pkg/dispatch/dispatch.go:51-93 | for every interleaving of all readers, reading a finished job's log byte by byte gives exactly the last n (or all) lines of a merge of the container's two streams |
| LogPipeline.EndToEndByLines | src/agent/pkg/dispatch/dispatch.go:51-93 | the same for a caller whose buffers hold any single line |
| Naming.ToLowerRfc1123 | src/controller/pkg/workload/conversion.go:148-169 | the loop with its early exit equals trimming the first maxLen characters of the unbounded collapsed text |
| Naming.SanitizedIsTidy | src/controller/pkg/workload/conversion.go:146-169 | no leading, trailing or doubled dash, no upper case, at most maxLen characters when positive |
| Naming.SanitizedIsIdempotent | src/controller/pkg/workload/conversion.go:148-169 | sanitising twice at one bound is sanitising once, for every input |
| Naming.SanitizedLength | src/controller/pkg/workload/conversion.go:148-169 | without a bound the result has one character for each one kept and one for each gap between kept ones |
| Naming.SpellsKept | src/controller/pkg/workload/conversion.go:151-160 | dashes aside, the unbounded result spells exactly the ASCII letters and digits and Latin-1 letters of the lower-cased input, in order |
| Naming.LowerAlphabet | src/controller/pkg/workload/conversion.go:151-151 | the capital letters of ASCII go to their small ones and the rest of ASCII stays |
| Naming.CompliantIff | src/controller/pkg/workload/conversion.go:146-169 | the unbounded result is an RFC 1123 label if and only if the lower-cased input has no non-ASCII Latin-1 letter, keeps a character, and these with their gaps are at most 63 |
| Naming.PodNameInjective | src/controller/pkg/workload/conversion.go:138-144 | equal Pod names come from the same decimal job id and index, whatever the job names |
| Text.DecIsDecimal | src/agent/pkg/job/conversion.go:31-31 | job ids and indices are written in decimal notation without leading zeros |
| Naming.FitsIffRoom | src/controller/pkg/workload/conversion.go:142-143 | the 63 character limit holds for every job name if and only if id and index leave room |
| Naming.PodNameIsLabelIff | src/controller/pkg/workload/conversion.go:138-144 | a Pod name is such a label if and only if, with room, no non-ASCII Latin-1 letter of the job name comes early enough to be kept, or, without, the rest exactly fills 63 characters and the job name yields nothing |
| Naming.PodNameIsLabel | src/controller/pkg/workload/conversion.go:138-144 | for every ASCII job name, with room left by id and index, the Pod name is a label in the sense of section 2.1 of RFC 1123 |
| Naming.ConvertToPods | src/controller/pkg/workload/conversion.go:23-46 | one Pod per allocated node with its index, or a single gated one |
| Naming.PodsFollowNodes | src/controller/pkg/workload/conversion.go:23-46 | the i-th Pod is on the i-th node, or the only one is gated; all have the job's phase, and names that start with the id and end with the index |
| Naming.PodsOfJobDistinct | src/controller/pkg/workload/conversion.go:36-43 | the Pods of one job have different names |
| Naming.PodsOfJobsDistinct | src/controller/pkg/workload/conversion.go:138-144 | Pods of jobs with different ids never share a name |
| Naming.LabelsCarryMeta | src/controller/pkg/workload/conversion.go:60-68 | reading an untracked Pod's labels back gives the job's id and extras, and a Pod is gated exactly without nodes |
| Labels.GetLabels | src/controller/pkg/provider/conversion.go:31-42 | whatever the map order, exactly the labels in the scope, stripped of it |
| Labels.ApplyMeta | src/controller/pkg/provider/conversion.go:83-93 | whatever the map order, the labels overridden by the scoped extras and the identifier |
| Labels.MetaRoundTrip | src/controller/pkg/provider/conversion.go:45-93 | afterwards the Pod reports the given identifier and its old extras overridden by the new; options, kind and additional nodes are untouched |
| Labels.OtherLabelsStay | src/controller/pkg/provider/conversion.go:88-92 | labels that are neither extras nor the identifier are untouched |
| Labels.DispatchOnlyIdentifies | src/controller/pkg/provider/provider.go:97-99 | answering with the metadata sent plus a job id changes the identifier label only |
| Labels.NodelistIsVerbatim | src/controller/pkg/provider/conversion.go:19-28 | the joined node list is the node name, a comma and the label verbatim |
| Sbatch.ComposeScript | src/agent/pkg/sbatch/sbatch.go:88-137 | for every map order, refused if and only if a managed key is overridden or the binary is not found, otherwise listing each option once |
| Sbatch.Walk | src/agent/pkg/sbatch/sbatch.go:115-118 | every option becomes exactly one line, in some order |
| Sbatch.AcceptedIsDisjointUnion | src/agent/pkg/sbatch/sbatch.go:108-113 | an accepted script keeps every user and managed option as given, minus an empty node list |
| Sbatch.ScriptSays | src/agent/pkg/sbatch/sbatch.go:89-118 | an accepted script gives the job's name, the configured account, partition and output, the nodes joined by commas, each user option, and nothing else |

## Left out

- The gRPC tunnel, TLS and certificates, the Kubelet HTTP server, Virtual Kubelet and the Kubernetes and fluxcd clients are not part of this model; their calls appear as outcomes and assumptions.
- Endpoint OnConnected and OnIdle callbacks (`src/controller/main.go:88-97`): Start and Stop are called by arbitrary threads instead.
- Fairness of `select` between cancellation and ticker: it is a random choice, so WaitingStopHasCancelled says the loop may leave at each select, not when.
- Loop, Dispatch and Protocol are state machines on values rather than classes, because their claims are about interleavings of lock operations.
- Instance.Run and what happens inside it, apart from cancelling its own context at any time; the goroutine that runs it is not counted.
- The unsynchronised read of the instances map by the node reconciler's UpdateStatus while a pass writes it.
- Nodes.Script: the node resource's construction from the agent's data is not modelled, only its name and status.
- PodStatus.Pod: Pod spec constants, StartTime and the fixed texts in waiting and terminated states are left out; Submission likewise.
- Provider.PodProvider.UpdateStatus: the code caches a pointer to the reporting Pod's status, the model a copy, so a caller that changes its Pod afterwards is not captured.
- NotifyPods, GetPod, GetPodStatus, GetPods and GetStatsSummary: reads of maps proved elsewhere.
- NodeOk and Relied speak of providers with fixed identities; Virtual Kubelet restarting an instance with a new provider object is not modelled.
- Rfc3339.ParseTime: fractional seconds and the other forms Go tolerates are left out; years are 0 to 9999, which is what the fixed-width layout prints and reads.
- LogReader.Reader.Read: saturation of time.Since and overflow of time.Duration are left out; the filters use unbounded nanoseconds.
- LogReader.Reader.constructor: the receiving goroutine and its channel are the queue of what is still to come; an error that is stored late is not modelled.
- Tail.Follow: files that end in the middle of a line at a poll are covered by LogLine.ScanInTwo only.
- Dispatch.LateIffOvertaken: a wall clock that is set back is left out.
- Propagation.PhasesPropagate: says nothing of reconfigured Pods, whose status is pushed by a later pass, or of other operations between the pushes; those are the subject of the Protocol lemmas.
- Dispatch.Reachable: a reader's input is what its scanner delivers, so a container line over the scanner's limit, which ends that reader, is the end of its input.
- The log server's loop over its channels (`src/agent/pkg/server/workload.go:194-213`): chunks are delivered in the order sent, as LogPipeline.EndToEnd requires.
- LogPipeline.EndToEnd: stated without time filters, for byte-by-byte reads and (EndToEndByLines) for buffers that hold any line; other buffers and filters are covered by ReadsConserve and LongBuffersReadAll.
- Inventory.Inventory.ListMetadata: the string encoding of object metadata is a datatype with an unparsable alternative; ParseObjMetadata itself is library code.
- Sbatch.ComposeScript: quoting, base64 and protobuf encoding of the container specification are library code; options are lines of key and value.
- Naming.ToLowerRfc1123: strings are sequences of Unicode characters; names that are not valid UTF-8 are not captured.
- Exit codes, metrics, memory and float conversions, parseJobState and workloadPhaseToPodPhase, configuration, environment and logging: tables or library calls.
