# Kube Startup CPU Boost: a verified model

Kube Startup CPU Boost raises the CPU of containers while they start and takes the
boost back later. This project models its four hardest parts in Dafny and proves what
they are meant to guarantee.

* **The timed revert.** Each tick starts one producer, a pool of workers, an error
  drainer and a collector over three bounded channels, while event handlers take the
  manager lock and boost locks. `Pipeline` is this system as a step relation for any
  number of workers. No state is stuck, every schedule can be completed and none is longer
  than a fixed bound, nothing is sent on a closed channel, and the result does not depend
  on the schedule.
* **The global boost controller.** `GlobalBoostController` works against an API server
  (`ClusterApi`) whose calls may fail, with or without effect, and which lets users act
  before every call. Children are never leaked, a namespace has one owner, one undisturbed
  reconcile converges, and the next one writes nothing. `ClusterLog` says which boosts the
  writes of a reconcile can reach, whatever users do meanwhile. `GlobalBoostRuns` is about
  any run of reconciles, and `GlobalBoostRounds` shows that two undisturbed rounds over any
  global boosts leave all of them converged at the same time, and that one may not.
* **Boost and revert of one pod.** `Admission` raises CPU and may drop limits without
  changing the pod's class. `Revert` gives back the original pod. `RevertModes` compares
  the single update with the two merge patches of section 2 of RFC 7396, including
  every sequence of failed attempts. `EndToEnd` joins admission and revert.
* **The boost manager and its trackers.** `Manager` and `Tracker` keep registered
  boosts, the index of timed boosts, orphaned pods, tracked pods and counters. `ManagerRuns`
  is about all sequences of events, and `ManagerTicks` about a tick whose checks happen
  among them.

A module whose source updates objects in place is written with classes, methods and
loops. Each method is tied by its contract to a function or a predicate about which the
lemmas speak.

## How the outside world is modelled

* Amounts are exact decimals (`real`). The 64-bit addition in the percentage policy and
  the 32-bit namespace count in the status wrap around as in the source.
* Printed quantities and annotations are values that are well formed or malformed.
  Printing followed by parsing gives the value back.
* A pod exists as a local copy and a server copy. Building a patch changes the local
  copy, and a successful call overwrites it with the server's answer.
* A call to the API server succeeds, is refused, or takes effect although its answer is
  lost. Users may do anything to the cluster except put the managed-by label on a boost or
  take the controller's finalizer off a global boost.
* What users do before each call and how the call ends is fixed in advance by a script
  that is arbitrary and that the controller cannot influence. Contracts speak of the part
  of the script that a call uses up, so "undisturbed" and "no call failed" are facts about
  the surroundings and not about the code. The state of the cluster is at all times the
  replay of the script and of the logged writes. In the same way each boost has a fixed but
  arbitrary answer to every revert attempt, and keeps a log of its attempts.
* Read and write locks admit every schedule that Go's `sync.RWMutex` admits, including
  readers that enter ahead of a waiting writer. That no state is stuck is proved under the
  stricter rule that a waiting writer keeps new readers out.
* Time, the answers of the API server, map iteration order and the schedule are
  arbitrary.

## Where the code does less than one might expect

Each of these is proved, with the exact condition under which the expected property
does hold.

* A percentage above the largest 64-bit integer less 100 wraps around and lowers the
  amount (`Quantities.NeverBelowIffInRange`).
* A fixed policy keeps requests at or below limits for every container exactly when its
  own request is at most its limit. A limit that is left out counts as zero
  (`Policies.FixedStaysValidIff`).
* The class is checked before the CPU limit is dropped. A pod whose only positive
  amounts are CPU limits that all get dropped ends as best effort
  (`QosLoss.ClassKeptIff`, `QosLoss.ClassCanBeLost`).
* Totals can be equal although some container requests another amount than its limit, and
  then the pod looks guaranteed. Without negative amounts the computed class is right
  exactly when that is not the case (`Qos.ClassesAgreeIff`, `Qos.CancellingTotals`).
* Reverting loses a boost label or annotation that was there before the boost
  (`AdmissionProofs.RoundTrip`).
* With an unusable annotation the patch mode reports success after taking off only the
  labels, while the update mode fails (`RevertModes.ModesAgreeIff`).
* After a resize that the server refused, a retry on the same local copy sends an empty
  patch and then takes the labels off, so the boosted resources stay. If only the answer
  was lost the retry restores the pod, and so does a retry on a fresh copy
  (`RevertModes.RetryAfterFailedResize`, `RevertModes.RefreshAfterFailedResize`,
  `RevertModes.SuccessRevertsIff`).
* After a failed update the update mode gets no further on the same local copy. An attempt
  ends the tracking exactly when its copy is the boosted pod and the update succeeds, so a
  pod whose update was applied with a lost answer stays tracked
  (`RevertModes.LegacyNeverLosesARevert`).
* A failed revert changes the tracked copy but does not recount the active containers. From
  a right counter, a revert of a tracked boosted pod leads to a wrong one exactly when it
  takes the annotation off the local copy and then fails: when the update fails although
  the annotation was usable, or when the resize succeeds and the labels patch does not
  (`Tracker.CounterRightIff`, `Tracker.HalfDoneLeavesCounterHigh`).
* The labels patch removes a label that somebody added meanwhile exactly when the boost
  label was the only one the local copy knew (`RevertModes.ConcurrentLabelKeptIff`).
* A namespace is active exactly when it is selected, has no foreign boost and its own calls
  succeed. One whose check fails is not active, so the cleanup of the same reconcile
  deletes its child (`GlobalBoostController.SettleNamespaces`,
  `GlobalBoostController.FailedCheckDeletesChild`).
* Deletes go by name. A deletion hits a boost that is no child exactly when users acted
  between the read and the deletion and what they last left there is an unlabelled boost
  (`ClusterLog.DeleteHitsOtherIff`, `GlobalBoostController.SwappedChildIsDeleted`). So a
  boost that was no child when the reconcile began, under a name where it created none, is
  never deleted (`ClusterLog.OthersNotDeleted`).
* The "not managed by this global boost" error occurs exactly when users put a boost under
  the child name between the listing and the get
  (`GlobalBoostController.ProcessNamespace`, `GlobalBoostController.SwapLeadsToConflict`).
* A failed call inside an event mapping loses the event: the watches miss nothing if the
  calls of the mapping succeed, and can miss a new namespace otherwise
  (`Watches.WatchesComplete`, `Watches.FailedMappingMisses`).

Where code and documentation differ the model follows the code: README.md:271-273
speaks of user-created boosts, but a child of another global boost blocks a namespace
as well; the `Manager` interface names the parameters of `DeleteRegularCPUBoost` in the
opposite order of the implementation (internal/boost/manager.go:52, 164).

## Model

| member | source | states |
|---|---|---|
| Quantities.RoundUpHundredths | internal/boost/resource/percentage.go:57-58 | rounding up to two digits never lowers and adds less than 0.01 |
| Quantities.IncreaseIsLeastHundredth | internal/boost/resource/percentage.go:52-60 | the increased amount is the least multiple of 0.01 at or above the exact product |
| Quantities.IncreaseIsMonotone | internal/boost/resource/percentage.go:52-60 | the result grows with the amount and with the percentage |
| Quantities.IncreaseAtLeast | internal/boost/resource/percentage.go:52-60 | a percentage in range never lowers an amount |
| Quantities.NeverBelowIffInRange | internal/boost/resource/percentage.go:54 | a non-negative percentage lowers no amount exactly when 100 plus it fits 64 bits |
| Policies.NewResourcesTouchesOnlyCpu | internal/boost/resource/percentage.go:39-50 | a policy adds and removes no entry and changes nothing but CPU |
| Policies.FixedIsMaximum | internal/boost/resource/fixed.go:56-69 | a fixed policy gives an existing entry the larger of the two amounts |
| Policies.RaisesCpu | internal/boost/resource/fixed.go:46-69 | no policy in range lowers a CPU request or limit |
| Policies.NewResourcesStayValid | internal/boost/resource/percentage.go:39-50 | request at most limit survives every percentage in range and every ordered fixed pair |
| Policies.FixedStaysValidIff | internal/boost/resource/fixed.go:46-69 | a fixed policy keeps all valid containers valid if and only if its request is at most its limit |
| Qos.ProcessResourceList | internal/webhook/qos.go:46-61 | adds exactly the positive CPU and memory amounts of the second list to the first |
| Qos.GetQosResources | internal/webhook/qos.go:66-77 | finds exactly the names with a positive supported amount |
| Qos.RequestsMatchLimits | internal/webhook/qos.go:153-160 | every total request has an equal total limit |
| Qos.ClassOfTotals | internal/webhook/qos.go:149-165 | the tail of the computation answers the class of the containers whose totals the maps hold |
| Qos.PodLevelClass | internal/webhook/qos.go:89-103 | the pod-level branch computes the class of the pod's own resources |
| Qos.ContainersClass | internal/webhook/qos.go:104-147 | the accumulation over containers computes their class from totals |
| Qos.ComputePodQos | internal/webhook/qos.go:84-166 | the whole computation equals the class given by totals |
| Qos.AggregateIsPerContainer | internal/webhook/qos.go:79-166 | with requests at most limits, the class by totals is the class by containers: guaranteed, best effort and burstable each if and only if |
| Qos.ClassesAgreeIff | internal/webhook/qos.go:79-166 | without negative amounts, the class by totals is the class by containers if and only if there is no container whose deviation cancels out in the totals |
| Qos.CancelsBothWays | internal/webhook/qos.go:152-165 | when deviations cancel out, one container requests above its limit and another one below, of the same resource |
| Qos.CancellingTotals | internal/webhook/qos.go:152-165 | a family of pairs of containers that look guaranteed together although neither is |
| Qos.TotalsPermute | internal/webhook/qos.go:109-141 | totals do not depend on the order of containers |
| Qos.ClassIgnoresOrder | internal/webhook/qos.go:84-166 | the class does not depend on the order of containers |
| Revert.RevertResources | internal/boost/pod/pod.go:87-116 | the in-place loop, including where it stops at a malformed quantity |
| Revert.RevertLabels | internal/boost/pod/pod.go:81-85 | takes off label and annotation and nothing else |
| Revert.RevertBoost | internal/boost/pod/pod.go:74-79 | resources first, labels only if that succeeded |
| Revert.RevertFromPointwise | internal/boost/pod/pod.go:92-114 | with well-formed values each container is put back independently of the others |
| Revert.RevertFromSucceedsIff | internal/boost/pod/pod.go:92-115 | the loop succeeds if and only if every kept value of a visited container is well formed |
| Revert.RevertIsIdempotent | internal/boost/pod/pod.go:87-116 | putting resources back twice changes nothing more |
| Admission.RequiresRestart | internal/webhook/podcpuboost_webhook.go:164-172 | true if and only if there is a first rule for the resource and it asks for a restart |
| Admission.ContainerResizeChangesQosClass | internal/webhook/podcpuboost_webhook.go:142-148 | whether the pod with the new resources would have another class |
| Admission.BoostContainer | internal/webhook/podcpuboost_webhook.go:80-118 | one turn of the loop on the pod and the annotation |
| Admission.BoostContainerResources | internal/webhook/podcpuboost_webhook.go:76-129 | the webhook turns the pod into `Boosted`, about which the round trip and the class lemmas speak |
| AdmissionProofs.LoopKeeps | internal/webhook/podcpuboost_webhook.go:80-118 | what every turn of the loop keeps holds after the loop |
| AdmissionProofs.LoopIsGreedy | internal/webhook/podcpuboost_webhook.go:80-118 | each container is decided on against the original class with the earlier ones already boosted; nothing but container resources changes |
| AdmissionProofs.RevertUndoesBoost | internal/webhook/podcpuboost_webhook.go:97-116 | the kept originals undo any policy and a dropped limit on one container |
| AdmissionProofs.UndoableLoop | internal/webhook/podcpuboost_webhook.go:76-129 | after the loop every container reverts to what it was, and nothing but containers changed |
| AdmissionProofs.RoundTrip | internal/webhook/podcpuboost_webhook.go:76-129 | revert after boost gives the original pod if and only if it had no boost label or annotation before; a pod left alone is unchanged |
| AdmissionProofs.DropAndClass | internal/webhook/podcpuboost_webhook.go:107-114 | what dropping one CPU limit does to the class of a pod that is not guaranteed |
| AdmissionProofs.ClassStep | internal/webhook/podcpuboost_webhook.go:98-116 | one boosted container keeps the class although its limit is dropped after the check |
| AdmissionProofs.BoostKeepsQosClass | internal/webhook/podcpuboost_webhook.go:76-148 | every pod with defaulted requests keeps its class, for all policies and settings |
| QosLoss.DoomedLoop | internal/webhook/podcpuboost_webhook.go:98-116 | a pod described by `LosesClass` ends as best effort |
| QosLoss.KeptLoop | internal/webhook/podcpuboost_webhook.go:76-148 | any pod keeps its class or loses every positive amount |
| QosLoss.SurvivesLoop | internal/webhook/podcpuboost_webhook.go:76-129 | what else was positive in a container stays positive |
| QosLoss.ClassKeptIff | internal/webhook/podcpuboost_webhook.go:76-148 | for raising policies the class is kept if and only if the pod is not of the kind `LosesClass` describes |
| QosLoss.ClassCanBeLost | internal/webhook/podcpuboost_webhook.go:98-116 | every pod with a single CPU limit and nothing else loses its class under a wildcard policy |
| MergePatch.EmptyDiff | internal/boost/pod/pod.go:118-132 | a computed patch is empty if and only if the documents are equal |
| MergePatch.ApplyDiff | internal/boost/pod/pod.go:118-132 | applying the computed patch by RFC 7396 gives the second document, if that has no null field |
| MergePatch.PatchableIffNullFree | internal/boost/pod/pod.go:118-132 | a document can be reached from every other by a computed patch if and only if it has no null field |
| PodJson.DecodeEncode | internal/boost/pod/pod.go:119-129 | decoding the JSON form of a pod gives the pod back |
| PodJson.EncodeIsNullFree | internal/boost/pod/pod.go:119-129 | the JSON form of a pod has no null field |
| RevertModes.PatchReaches | internal/boost/pod/pod.go:118-132 | the patch computed from one pod to another leads the server from the one to the other |
| RevertModes.UsableIff | internal/boost/pod/pod.go:87-116 | putting the resources back succeeds if and only if there is an annotation and all values it keeps for containers of the pod are well formed |
| RevertModes.SendPatch | internal/boost/startupcpuboost.go:303-308 | one patch call: what it leaves locally and on the server when it succeeds, is refused or loses its answer |
| RevertModes.UpdateBoostPod | internal/boost/startupcpuboost.go:302-310 | what the two patch calls leave locally and on the server for every outcome of each call |
| RevertModes.UpdateBoostPodLegacy | internal/boost/startupcpuboost.go:313-318 | the same for the single update |
| RevertModes.ModesAgreeIff | internal/boost/startupcpuboost.go:302-318 | on a fresh copy both modes leave the same pod if and only if the annotation is there and its values for the containers of the pod are well formed |
| RevertModes.StaleCopyGivesEmptyPatch | internal/boost/pod/pod.go:164-174 | a copy that an earlier attempt worked on gives the empty resize patch |
| RevertModes.PatchAttemptOutcome | internal/boost/startupcpuboost.go:302-310 | the outcome of an attempt from any reachable pair of copies, for each outcome of the two calls |
| RevertModes.ReachableRun | internal/boost/startupcpuboost.go:283-310 | the local and server copies that any run of attempts and refreshes can lead to, answers lost or not |
| RevertModes.SuccessRevertsIff | internal/boost/startupcpuboost.go:283-310 | after any run, a fully successful attempt restores the pod if and only if the server has the resources back or the copy is fresh; otherwise it takes off only the labels |
| RevertModes.ResizeStays | internal/boost/startupcpuboost.go:302-310 | once the resources are back they stay back, whatever fails or gets lost afterwards |
| RevertModes.RetryAfterHalfDoneRevert | internal/boost/startupcpuboost.go:283-310 | resources back, then any attempts and refreshes, then one success: fully reverted and untracked |
| RevertModes.RetryAfterFailedResize | internal/boost/startupcpuboost.go:283-310 | failed resize, then success on the same copy: the pod is restored if and only if only the answer was lost or there was nothing to put back |
| RevertModes.RefreshAfterFailedResize | internal/boost/startupcpuboost.go:283-310 | failed resize, fresh copy, then success: the pod is restored |
| RevertModes.LegacyRun | internal/boost/startupcpuboost.go:313-318 | the copies that any run of updates and refreshes can lead to |
| RevertModes.LegacyNeverLosesARevert | internal/boost/startupcpuboost.go:313-318 | after any run the server has the boosted or the restored pod, and the restored one if the pod is untracked; an attempt ends the tracking if and only if the copy is fresh and the update succeeds |
| RevertModes.ConcurrentLabelKeptIff | internal/boost/pod/pod.go:145-151 | a label added meanwhile survives the labels patch if and only if the boost label was not the only one |
| RevertModes.AttemptKeepsIdentity | internal/boost/startupcpuboost.go:302-318 | no attempt changes name or namespace of the local copy, so the pod is untracked under the name it was tracked under |
| RevertModes.AttemptAnnotation | internal/boost/startupcpuboost.go:302-318 | when an attempt succeeds, and that it takes the annotation off the local copy if and only if it gets as far as the labels |
| EndToEnd.BoostedIsUsable | internal/webhook/podcpuboost_webhook.go:76-129 | a pod that the webhook boosted, with nothing of an earlier boost on it, can be reverted to itself |
| EndToEnd.PatchesRestore | internal/boost/startupcpuboost.go:283-310 | boost at admission, any run of patch attempts, one success: the server has the pod as before admission if and only if the resources were back or the copy was fresh |
| EndToEnd.UpdatesRestore | internal/boost/startupcpuboost.go:313-318 | boost at admission, any run of updates after which the pod is untracked: the server has the pod as before admission |
| NamespacedObjects.Collection.constructor | internal/boost/util.go:21-25 | starts empty |
| NamespacedObjects.Collection.Put | internal/boost/util.go:27-34 | the two-level map behaves as one flat map: update |
| NamespacedObjects.Collection.Get | internal/boost/util.go:36-43 | lookup, with the absent case |
| NamespacedObjects.Collection.List | internal/boost/util.go:45-55 | exactly the objects of one namespace, each once |
| NamespacedObjects.Collection.ListAll | internal/boost/util.go:57-65 | exactly all objects, each once |
| NamespacedObjects.Collection.Delete | internal/boost/util.go:67-73 | removal, also of what is not there |
| Tracker.LastEntryWins | internal/boost/startupcpuboost.go:366-382 | a container gets the policy of its last entry |
| Tracker.MapResourcePolicy | internal/boost/startupcpuboost.go:363-387 | succeeds if and only if every entry names exactly one kind of policy |
| Tracker.AttemptLeaves | internal/boost/startupcpuboost.go:283-299 | with answers as `RevertModes` describes them, the copy that an attempt leaves is the one given there |
| Tracker.NewStartupCpuBoost | internal/boost/startupcpuboost.go:106-126 | succeeds if and only if selector and policies are usable; a new boost has the object's settings, tracks nothing and has counted nothing |
| Tracker.StartupCpuBoost.constructor | internal/boost/startupcpuboost.go:115-125 | the fields of a new boost |
| Tracker.StartupCpuBoost.UpdateStats | internal/boost/startupcpuboost.go:322-336 | active is the sum over tracked pods; only a created pod adds to the total |
| Tracker.StartupCpuBoost.RevertResources | internal/boost/startupcpuboost.go:283-299 | success, as the server answers, ends the tracking and recounts; failure changes the tracked copy if that is the object that was passed in, and does not recount; the attempt is logged |
| Tracker.StartupCpuBoost.Track | internal/boost/startupcpuboost.go:170-176 | tracks the new copy; a first copy adds its boosted containers to the total, a later one does not |
| Tracker.StartupCpuBoost.UpsertPod | internal/boost/startupcpuboost.go:165-191 | tracks the new copy, or reverts it when its condition is met; pods, both counters and the log in every case |
| Tracker.StartupCpuBoost.DeletePod | internal/boost/startupcpuboost.go:194-202 | ends the tracking of that pod only and recounts |
| Tracker.StartupCpuBoost.ValidateFixedPolicy | internal/boost/startupcpuboost.go:206-220 | exactly the tracked pods whose duration has expired, each once |
| Tracker.StartupCpuBoost.UpdateFromSpec | internal/boost/startupcpuboost.go:241-258 | takes over everything, or changes nothing when selector or policies are unusable |
| Tracker.StepConserves | internal/boost/startupcpuboost.go:165-202 | in every event, tracked containers afterwards plus dropped ones are those before plus new ones plus what a changed copy makes up |
| Tracker.RunConserves | internal/boost/startupcpuboost.go:165-202 | the same over every run, disturbed or not |
| Tracker.UndisturbedMeansNoDrift | internal/boost/startupcpuboost.go:165-202 | if every revert succeeds and updates keep the boosted containers, no copy changes its count |
| Tracker.KeepsCounterIff | internal/boost/startupcpuboost.go:283-299 | the calls after which an attempt has succeeded or left the copy with as many boosted containers |
| Tracker.CounterRightIff | internal/boost/startupcpuboost.go:283-299 | from a right active counter an event leads to a right one if and only if it makes no attempt, works on a copy that is not the tracked one, or its calls are of that kind |
| Tracker.HalfDoneLeavesCounterHigh | internal/boost/startupcpuboost.go:302-310 | resize done, labels patch failed: the tracked pod has lost its annotation and is still counted |
| Tracker.UndisturbedCountsActive | internal/boost/startupcpuboost.go:322-336 | in such a run the active counter is always the number of boosted containers of the tracked pods |
| Tracker.HandleEvent | internal/boost/startupcpuboost.go:165-202 | one event: outcome, tracked pods, log and both counters |
| Tracker.RunEvents | internal/boost/startupcpuboost.go:165-202 | any run, with the outcome and the state after each event: the total is what was ever tracked; total equals tracked plus dropped up to changed copies; in an undisturbed run total equals active plus dropped |
| Manager.BoostManager.constructor | internal/boost/manager.go:129-144 | starts empty and valid |
| Manager.BoostManager.GetMatchingBoost | internal/boost/manager.go:279-287 | finds a matching registered boost of the namespace if and only if there is one |
| Manager.TrackMatching | internal/boost/manager.go:346-366 | offering pods to a boost is the fold of its upserts over those that match; which are mapped, what has become of the others, and which reverts were made |
| Manager.TrackListed | internal/boost/manager.go:308-342 | giving listed pods to a boost is the fold of its upserts over those it does not track; each is tracked or was reverted without error |
| Manager.BoostManager.UpsertPod | internal/boost/manager.go:215-229 | the pod goes to one matching boost exactly as that boost upserts it, or becomes an orphan; an orphan leaves only without error; no other boost changes |
| Manager.BoostManager.DeletePod | internal/boost/manager.go:233-243 | untracks the pod with one matching boost, or removes the orphan; no other boost changes |
| Manager.BoostManager.MapOrphanedPods | internal/boost/manager.go:346-366 | exactly the matching orphans whose revert did not fail leave, and the boost has them; one whose revert failed stays as the copy that was worked on; afterwards no orphan matches as long as all reverts ever made succeeded |
| Manager.BoostManager.SyncBoostPods | internal/boost/manager.go:308-342 | every listed pod is tracked or was reverted without error, whichever others failed; pods tracked before stay as they were |
| Manager.BoostManager.IndexBoost | internal/boost/manager.go:290-295 | brings the index back in agreement with the registered boosts |
| Manager.BoostManager.PostProcessNewBoost | internal/boost/manager.go:290-302 | restores all invariants; the boost ends as the orphans, then the listed pods, leave it; recovery holds whatever orphan mapping did |
| Manager.BoostManager.AddRegularCpuBoost | internal/boost/manager.go:148-161 | registers if and only if the name is free, else changes nothing; every listed pod is then tracked or reverted; which reverts were made |
| Manager.BoostManager.UpdateRegularCpuBoost | internal/boost/manager.go:176-193 | takes over the object of a registered boost if it is usable, else changes nothing; keeps all invariants, also when a policy is dropped |
| Manager.BoostManager.DeleteRegularCpuBoost | internal/boost/manager.go:164-173 | removes the boost and its index entry and nothing else |
| Manager.BoostManager.TasksOf | internal/boost/manager.go:380-388 | the expired pods of one boost as tasks, each once |
| Manager.BoostManager.CollectRevertTasks | internal/boost/manager.go:370-390 | scanning the index finds exactly the expired pods of all registered boosts; what it reports to the concurrent part is distinct |
| Manager.BoostManager.ExpiredPodsOnce | internal/boost/manager.go:370-432 | with all checks in one state: when the concurrent part has returned, after any schedule, each expired pod of a registered boost has had exactly one attempt and no other pod any |
| Manager.BoostManager.RevertWith | internal/boost/manager.go:398-402 | one revert by a worker, also with a boost that was deleted meanwhile: outcome, state and log; keeps all invariants |
| Manager.BoostManager.Tick | internal/boost/manager.go:370-432 | with its reverts made in turn, keeps all invariants whichever fail; if none fails, no tracked pod of any registered boost is expired afterwards |
| ManagerRuns.HandleEvent | internal/boost/manager.go:148-243 | one event refines a step on values: which boost takes a pod, the states and logs of all boosts, the registered boosts, the index and the orphans |
| ManagerRuns.ShownInv | internal/boost/manager.go:279-302 | the invariants as facts about such values: the index agrees with the registered boosts, the logs are what the servers answer, and no orphan matches while all logged reverts succeeded |
| ManagerRuns.ReliableTrace | internal/boost/manager.go:215-366 | if the servers of all boosts answer with success, no orphan ever matches a registered boost |
| ManagerRuns.RunEvents | internal/boost/manager.go:148-243 | any run of events, with reverts by workers in between, is a trace of such steps, and the invariants hold in every state of it |
| ManagerTicks.ListTimed | internal/boost/manager.go:371-374 | the tick reads exactly the index that the state at that moment shows |
| ManagerTicks.CheckBoost | internal/boost/startupcpuboost.go:206-220 | a check reports exactly the pods that are expired in the state at that moment, each once |
| ManagerTicks.ListedOnTheWay | internal/boost/manager.go:371-384 | the producer has started only if the index has been read |
| ManagerTicks.CheckedOnTheWay | internal/boost/manager.go:380-390 | the producer gets past a boost only by checking it |
| ManagerTicks.CheckedPodsOnce | internal/boost/manager.go:370-432 | with any events between the steps of a tick: when it has returned, each pod that was expired when its boost was checked has had exactly one attempt, and no other pod any |
| ManagerTicks.RegisteredIsChecked | internal/boost/manager.go:370-390 | a boost that is registered with a fixed duration when the index is read is checked |
| Pipeline.DedupeReconcileRequests | internal/boost/manager.go:434-444 | lists every received request exactly once |
| PipelineProofs.InvStep | internal/boost/manager.go:370-444 | every step of every process keeps the invariant on channels, tasks, requests and locks |
| PipelineProofs.InvRun | internal/boost/manager.go:370-444 | the invariant holds in every reachable state |
| PipelineProgress.NeverStuck | internal/boost/manager.go:370-432 | an unfinished reachable state always has a step, with full channels and with waiting writers keeping readers out |
| PipelineProgress.StepUsesWork | internal/boost/manager.go:370-432 | every step strictly lowers a measure |
| PipelineProgress.RunsAreBounded | internal/boost/manager.go:370-432 | no schedule is longer than the initial measure |
| PipelineProgress.UnfinishedRunContinues | internal/boost/manager.go:370-432 | an unfinished schedule has a next step and is shorter than the initial measure |
| PipelineProgress.RunsFinish | internal/boost/manager.go:370-432 | every schedule is the beginning of one in which the tick returns and every process is done |
| PipelineProgress.TickResult | internal/boost/manager.go:380-444 | when the tick returns, the attempts are exactly the reported tasks, and exactly the boosts with a successful revert have been reconciled, each once |
| PipelineProgress.OneAttemptEach | internal/boost/manager.go:380-407 | each reported pair of boost and pod had exactly one attempt, and no other pair had any |
| PipelineProgress.NeverPanics | internal/boost/manager.go:389-417 | nothing is sent on a closed channel and no channel is closed twice |
| PipelineLocks.LocksExclude | internal/boost/startupcpuboost.go:155-228 | in every reachable state a lock has one writer and then no reader, be it the producer or an event handler |
| Cluster.ChildNameInjective | internal/controller/globalboost_controller.go:370-372 | different global boosts have different child names |
| Cluster.AtMostOneChild | internal/controller/globalboost_controller.go:178-192 | a namespace has at most one managed boost |
| Cluster.UserKeepsInv | internal/controller/globalboost_controller.go:178-192 | no leak, exclusive ownership and naming survive whatever users do |
| Cluster.CreateKeepsInv | internal/controller/globalboost_controller.go:204-210 | they survive the creation of a child in a namespace without another owner |
| Cluster.DeleteKeepsInv | internal/controller/globalboost_controller.go:311-328 | they survive a deletion |
| Cluster.GlobalKeepsInv | internal/controller/globalboost_controller.go:168-171 | they survive a change of a global boost that keeps its finalizer or has no children |
| ClusterApi.TurnReplayed | internal/controller/globalboost_controller.go:60-83 | a call that writes nothing leaves the state that users leave, and the replay says so |
| ClusterApi.WriteReplayed | internal/controller/globalboost_controller.go:60-83 | after a write the state is still the replay of the script and the log |
| ClusterApi.ApiServer.CreateBoost | internal/controller/globalboost_controller.go:204-210 | creates if the name is free and the call does not fail; a failed call may have taken effect |
| ClusterApi.ApiServer.UpdateBoost | internal/controller/globalboost_controller.go:221-230 | replaces if the boost is still the one that was read |
| ClusterApi.ApiServer.DeleteBoost | internal/controller/globalboost_controller.go:271-275 | deletes by name whatever is there, and logs what was read and what was found |
| ClusterApi.ApiServer.AddFinalizer | internal/controller/globalboost_controller.go:74-79 | the finalizer is put on only if the object is still the one that was read |
| ClusterApi.ApiServer.RemoveFinalizer | internal/controller/globalboost_controller.go:168-171 | may be called only in a state without children, and children stay absent |
| ClusterApi.ApiServer.UpdateStatus | internal/controller/globalboost_controller.go:357-363 | writes if the object is still the one that was read; conflict, missing object and failure are told apart |
| ClusterLog.DeleteHitsOtherIff | internal/controller/globalboost_controller.go:256-276 | a deletion hits a boost that is no child if and only if users acted between the read and the deletion and last left an unlabelled boost there |
| ClusterLog.TracedTransitive | internal/controller/globalboost_controller.go:60-83 | what is known of the writes of two stretches of a reconcile holds of both together |
| ClusterLog.OthersNotDeleted | internal/controller/globalboost_controller.go:256-276 | a boost that was no child at the beginning, under a key where no child was created since, is not deleted |
| Convergence.StatusUnique | internal/controller/globalboost_controller.go:331-353 | the exact status is determined by the cluster state |
| Convergence.StatusPartitions | internal/controller/globalboost_controller.go:149-151 | active and skipped namespaces are disjoint and together are the selected ones |
| GlobalBoostController.HasUnmanagedBoosts | internal/controller/globalboost_controller.go:178-192 | true if and only if the namespace has a boost that is not a child of this global boost |
| GlobalBoostController.EnsureChild | internal/controller/globalboost_controller.go:195-232 | undisturbed the child is then there as the template says; the not-managed error occurs if and only if the get succeeds and finds an unlabelled boost; an up-to-date child is not written |
| GlobalBoostController.CreateChild | internal/controller/globalboost_controller.go:204-210 | creates exactly the built child |
| GlobalBoostController.UpdateChild | internal/controller/globalboost_controller.go:221-230 | changes selector and spec of the existing child and keeps its label and annotation |
| GlobalBoostController.DeleteChild | internal/controller/globalboost_controller.go:271-275 | one delete call: the state it leaves, and that it finds what users have left under the key since the read |
| GlobalBoostController.DeleteNext | internal/controller/globalboost_controller.go:297-305 | one deletion out of a listing: the other listed children are still only touched by users |
| GlobalBoostController.DeleteChildIfExists | internal/controller/globalboost_controller.go:256-276 | the exact state after get and delete, whatever users do and whichever call fails |
| GlobalBoostController.ProcessNamespace | internal/controller/globalboost_controller.go:118-141 | the conflict occurs if and only if users occupy the child name between listing and get; undisturbed: failed if and only if an own call fails, skipped if and only if a foreign boost is there, else active and up to date; a settled namespace is not written |
| GlobalBoostController.ProcessNamespaces | internal/controller/globalboost_controller.go:117-141 | every desired namespace is visited once, in any order; undisturbed the lists are exact up to the namespaces whose own calls failed, and active ones have their child |
| GlobalBoostController.CleanupStaleChildren | internal/controller/globalboost_controller.go:279-308 | only children outside active namespaces are deleted, and all of them if no call fails |
| GlobalBoostController.DeleteAllChildren | internal/controller/globalboost_controller.go:311-328 | success means that no child is left, even with users acting in between |
| GlobalBoostController.WriteStatus | internal/controller/globalboost_controller.go:331-366 | the result for each case: equal status, failed call, conflict, missing object; the status becomes the new one; an equal status is not written |
| GlobalBoostController.DesiredNamespaces | internal/controller/globalboost_controller.go:96-115 | exactly the selected namespaces that are not terminating |
| GlobalBoostController.CleanedUp | internal/controller/globalboost_controller.go:117-151 | after a cleanup in which no call failed, exactly the active namespaces have their child |
| GlobalBoostController.NothingFailed | internal/controller/globalboost_controller.go:117-151 | if moreover no namespace failed, children and status are exact |
| GlobalBoostController.SettleNamespaces | internal/controller/globalboost_controller.go:104-150 | undisturbed, active is exactly the selected namespaces without a foreign boost whose own calls succeeded; if the calls of the cleanup succeed, exactly these have their child; without any failed call children and lists are exact, and from a converged state nothing is written |
| GlobalBoostController.Distribute | internal/controller/globalboost_controller.go:86-152 | one undisturbed reconcile without failed calls converges; from a converged state it writes nothing |
| GlobalBoostController.HandleDeletion | internal/controller/globalboost_controller.go:155-174 | success means no children and no finalizer; a failed deletion keeps the finalizer protocol |
| GlobalBoostController.Reconcile | internal/controller/globalboost_controller.go:60-83 | all branches: missing, deleting, without finalizer, live; always keeps the invariants and the rules for writes; converges if the script leaves it alone |
| GlobalBoostController.WorkOff | internal/controller/globalboost_controller.go:60-83 | a live global boost converges after at most one requeue |
| GlobalBoostRuns.RunReconciles | internal/controller/globalboost_controller.go:60-83 | any run of reconciles of any global boosts among failing calls and user activity, each beginning where and when the one before it ended: no leak and exclusive ownership before and after each; the state is the replay of users and writes; each writes only its own children and itself; a conflict needs a boost that users put there; without user activity only its own children and itself change, and without failed calls either it does what the returned result says and converges |
| GlobalBoostRounds.ChildBlocks | internal/controller/globalboost_controller.go:178-192 | where a global boost has its child, a reconcile of another one puts nothing |
| GlobalBoostRounds.ConvergedStays | internal/controller/globalboost_controller.go:117-151 | once its own children are where they belong, a reconcile of one global boost keeps the others converged |
| GlobalBoostRounds.TwoRoundsConverge | internal/controller/globalboost_controller.go:60-152 | two undisturbed rounds without failed calls over any global boosts with finalizer, in any order: all are converged at the same time |
| GlobalBoostRounds.ThreeRoundsConverge | internal/controller/globalboost_controller.go:60-152 | the same without the assumption about finalizers, after three rounds |
| GlobalBoostRounds.OneRoundMayMiss | internal/controller/globalboost_controller.go:117-151 | one round is not enough: a namespace that another global boost gives up later in the round is missed |
| GlobalBoostController.FailedCheckDeletesChild | internal/controller/globalboost_controller.go:123-126 | converged state, one failed listing: the child is gone |
| GlobalBoostController.SwappedChildIsDeleted | internal/controller/globalboost_controller.go:256-276 | users replace a child between read and deletion: their boost is deleted |
| GlobalBoostController.SwapLeadsToConflict | internal/controller/globalboost_controller.go:215-218 | users occupy the child name between listing and get: the conflict occurs |
| Watches.MapNamespaceToGlobalBoosts | internal/controller/globalboost_controller.go:391-414 | exactly the global boosts whose selector matches the namespace's labels; none if the listing fails |
| Watches.MapBoostToGlobalBoosts | internal/controller/globalboost_controller.go:418-449 | exactly those that target the boost's namespace; none if that is gone or a call fails |
| Watches.NamespaceEventsComplete | internal/controller/globalboost_controller.go:391-414 | a namespace change that maps to no request for a converged global boost leaves it converged |
| Watches.BoostEventsComplete | internal/controller/globalboost_controller.go:418-449 | the same for a boost change |
| Watches.WatchesComplete | internal/controller/globalboost_controller.go:375-449 | no single change of any object can end convergence unnoticed, if the calls of the mapping succeed |
| Watches.FailedMappingMisses | internal/controller/globalboost_controller.go:391-414 | a selected namespace that appears while the mapping fails is missed |

## Left out

- The Kubernetes client, informers and their caches, admission decoding, HTTP,
  certificates and leader election: a call succeeds or fails, reads are fresh.
- Parsing and matching of label selectors, duration units, quantity and annotation text:
  short code around libraries; selectors are a predicate on labels.
- Metrics, configuration, feature gates, logging, charts, generated code.
- The validating webhooks and the reconciler of a single boost's status: they count and
  copy.
- The choice of the revert mode by server version: both modes are modelled, the choice is
  free.
- Whether a pod is tracked by at most one boost: overlapping or changed selectors break
  it, and which matching boost is taken depends on map order.
- Absent and empty maps are the same in the model; the source only distinguishes them
  where it allocates.
- Finalizers of other controllers on children: a successful delete removes the child. On
  a global boost other finalizers appear as an arbitrary choice whether it stays.
- Resource versions: a conditional write compares the whole object that was read.
- Transition times, reasons and messages of the status condition.
- Manager.BoostManager.Tick: makes its reverts one after the other. Their concurrency is
  the subject of `Pipeline`, and events between the checks and the reverts are the subject
  of `ManagerTicks` and `ManagerRuns`.
- Manager.BoostManager.ExpiredPodsOnce: takes all checks in one state;
  `ManagerTicks.CheckedPodsOnce` is the statement with events between them.
- Pipeline.DedupeReconcileRequests: takes what was received as a sequence; the blocking
  channel is part of the step relation.
- PipelineProgress.TickResult: the reconcile of a single boost is one step under the
  manager's read lock.
- Tracker.StartupCpuBoost.RevertResources: tracked pods are values. Whether the tracked copy
  is the very object that was passed in is an argument, which only matters if the contents
  are equal; a change of the informer's copy of the pod is not modelled. What the server
  answers is arbitrary; `Tracker.AttemptLeaves` says what it means for answers that follow
  `RevertModes`.
