# Namespace lifecycle operator: a verified model

The operator freezes the workloads of a namespace (scales them to zero and remembers
their size in annotations) and resumes them. It is driven by one reconcile worker, a
startup goroutine that runs beside it, a work queue with timers, and events from users
and nodes. This project models that behaviour in Dafny and proves properties of it, most
of them over every run and every interleaving.

The modules follow the program:

- `Policies`, `Operator`: the policy resource, the decisions taken on it, and the whole
  operator as a transition system. One step is one API call or one read of shared memory,
  so the worker can be interrupted between any two API calls by the startup goroutine, by
  edits, node events, timers and restarts of the process.
- `Wakeups`, `FlagSeparation`, `Stalls`, `Ordering`, `GateBypass`, `Delays`, `Progress`,
  `Operations`, `Acknowledgements`, `PreconditionCancel`, `Commands`, `Conflicts`,
  `Survivors`: what holds over the runs of that system.
- `Reconciles`, `Outcomes`: what one undisturbed reconcile, and some of its single steps,
  do to the stored policy; `StartupActs`: what startup does to each policy of its list.
- `Decimal`, `Workloads`, `NodeFailure`, `Namespaces`: freezing and resuming workloads,
  node failure and recovery.
- `FreezeGroups`: the startup freeze groups and their barrier.
- `Throttling`, `ThrottledResume`, `JsonPath`: adaptive throttling and the metrics path.
- `ManualOperations`: the manual freeze and resume, at once or throttled.

`dafny verify dfyconfig.toml` checks everything.

## What was found

Seven promises of the code or its comments do not hold as stated. The model keeps the code
as it is, shows a state or run that breaks the promise, and proves when it does hold.

- A pending resume can be forgotten. When a delayed freeze completes, Reconcile returns
  without a requeue, so a resume that is pending at the same time loses its last wake-up
  and holds back every policy of lower priority (`FreezeLosesWakeupIff`,
  `LostWakeupReachable`, `StuckForever`). As long as no policy waits for a freeze and a
  resume at once this cannot happen (`NoLostWakeup`), and a condition on the specs
  guarantees that (`NoLostWakeupBySpecs`); the only other way to get stuck is the exit
  for duplicate policies (`OnlyTwoWaysToGetStuck`, `ConflictLosesWakeupIff`).
- The priority gate can be bypassed. A reconcile that takes the branch for pre-conditions
  under check resumes the workloads and clears the pending flag without gate, delay or
  startup check, so a resume of priority 50 can be completed before one of priority 1 and
  before startup is complete (`BypassReachable`). A completion goes around the gate if and
  only if its reconcile took that branch (`BypassIff`), and then the policy was flagged
  while the reconcile was under way (`BypassNeedsNewFlag`). Any other completion is of
  the most urgent policy pending at that moment (`MostUrgentFirst`), and as long as
  nothing new is flagged the order holds for every completion (`PriorityOrder`).
- A delayed freeze or resume can be carried out before its time. A reconcile measures the
  delay from the start in its own copy. When startup starts a left-over delay anew after
  the policy was read, the freeze (`EarlyFreezeReachable`) or the resume
  (`EarlyResumeReachable`) is carried out on the old start, and the branch for
  pre-conditions under check does not look at the delay at all (`EarlyBypassReachable`).
  An action is too early by the stored start if and only if startup or an edit has set
  the deadline since the reconcile began and the last one set is not over
  (`TooEarlyIff`); a reconcile that begins after startup is on time
  (`OnTimeAfterStartup`).
- A duplicate that has been failed does not stay so: startup overwrites its phase
  (`FailureUndone`). While the older policy owns the namespace the younger one stays
  Failed if and only if startup does not (`YoungerStaysFailed`, `YoungerFails`).
- Startup acknowledges old operation ids so that they do not cancel the resumes it flags.
  A reconcile that read the policy before it was flagged and reads the startup bit after
  it was set cancels the resume nevertheless (`StaleCancelReachable`). A cancel is for an
  acknowledged id if and only if startup acknowledged it after the reconcile began
  (`CancelIsStaleIff`); a reconcile that begins after the flag, or after startup, does no
  such thing (`FlagNotCancelled`, `CancelIsGenuine`).
- A manual command that arrives while pre-conditions are being checked is not carried out
  in any continuation of the reconcile that takes it up (`NeverCarriedOut`); when nothing
  goes wrong the namespace is resumed, even by a Freeze (`CommandTurnsIntoResume`). This
  hits a command that cancels the resume (`FreezeThatResumes`), and also one that comes
  long after it, because a resume through the gate never ends the checks
  (`ResumeLeavesChecking`, `FreezeAfterResumeLost`). `CarriedOutIff` says exactly when a
  command is carried out.
- The slice of the next batch panics when the end of the batch does not fit 32 bits, which
  the schema allows because `minBatchSize` has no maximum (`BatchEndIff`,
  `HugeMinimumPanics`); the loop panics if and only if the signals of its batches lead
  there, and that cannot happen while the number of workloads and the larger batch size
  together stay within 32 bits (`ResumeThrottled`).

The code also differs from its texts in these places, and the model follows the code:

- `resumeDelay` counts from the moment of flagging, not from the end of the previous
  priority (README.md:276 of the repository).
- A missing target namespace records the operation id, although the comment says it does
  not (`MissingNamespaceUsesUpId`).
- The annotation written at the end of startup to trigger reconciles (cmd/main.go:483)
  changes neither spec nor status, and the update predicate lets only those pass.
- `blockPriorityChain: false` keeps the pending flag and therefore still blocks the gate.

## Model

| member | source | states |
|---|---|---|
| Operator.FindConflict | internal/controller/namespacelifecyclepolicy_controller.go:733-773 | The duplicate loop finds a policy exactly when a live, not failed, older one (or same age, earlier name) wants the namespace, and returns such a one |
| Operator.IsBlocked | internal/controller/namespacelifecyclepolicy_controller.go:2460-2494 | The gate loop answers yes exactly when another pending policy has a smaller effective resumePriority, 0 counting as 100 |
| Wakeups.DecideSound | internal/controller/namespacelifecyclepolicy_controller.go:775-2024 | Every step of Reconcile keeps the pending flags well formed, enters gated code only after startup and delay, and leaves a pending policy only if a further visit is assured or the exit is one of two named ones |
| Wakeups.StepPreserves | internal/controller/namespacelifecyclepolicy_controller.go:707-1351 | Every step of worker, startup goroutine, users, nodes, timers and restarts keeps the global invariant |
| Wakeups.PendingFlagsAndDelays | internal/controller/namespacelifecyclepolicy_controller.go:1013-1040 | In every reachable state a pending flag has its start time (the branches for a missing one are unreachable), gated code runs only after startup, and a delayed freeze or resume is begun only after the start plus delay of the copy the worker has read |
| Delays.TooEarlyIff | internal/controller/namespacelifecyclepolicy_controller.go:808-834 | In every run a delayed freeze, or a resume completed by whichever branch, comes before the stored start plus delay if and only if startup or an edit has set the deadline since the reconcile began and the last one set is not over |
| Delays.OnTimeAfterStartup | internal/controller/namespacelifecyclepolicy_controller.go:1020-1040 | In every run a reconcile that begins after startup and whose delay is not edited is never too early |
| Delays.EarlyFreezeReachable | internal/controller/namespacelifecyclepolicy_controller.go:603-630 | A concrete run in which a freeze that startup has just delayed is carried out at once |
| Delays.EarlyResumeReachable | internal/controller/namespacelifecyclepolicy_controller.go:536-543 | A concrete run in which a resume that startup has just delayed is completed at once through the gate |
| Delays.EarlyBypassReachable | internal/controller/namespacelifecyclepolicy_controller.go:1667-1709 | A concrete run in which the branch for pre-conditions under check completes a resume before its delay is over |
| Wakeups.NoLostWakeup | internal/controller/namespacelifecyclepolicy_controller.go:2503-2587 | In every run in which no policy waits for freeze and resume at once, each pending resume is queued, has a timer or is being worked on, unless its last reconcile stopped at a duplicate |
| FlagSeparation.NoLostWakeupBySpecs | internal/controller/namespacelifecyclepolicy_controller.go:603-640 | The same from a condition on specs: policies that freeze at startup after a delay handle no node failures and begin without a resume flag, the others begin without a freeze flag, and edits keep that division |
| Wakeups.NoLostFreeze | internal/controller/namespacelifecyclepolicy_controller.go:801-834 | In every run each pending delayed freeze is queued, has a timer or is being worked on, unless its last reconcile stopped at a duplicate |
| Wakeups.OnlyTwoWaysToGetStuck | internal/controller/namespacelifecyclepolicy_controller.go:913-1351 | In every run a pending resume without any wake-up was left either by the duplicate exit or by a delayed freeze that completed over it |
| Wakeups.FreezeLosesWakeupIff | internal/controller/namespacelifecyclepolicy_controller.go:887-909 | The end of a delayed freeze loses a wake-up if and only if a resume is pending then and the policy is neither queued nor on a timer |
| Stalls.ConflictLosesWakeupIff | internal/controller/namespacelifecyclepolicy_controller.go:765-770 | The duplicate exit leaves a resume stuck if and only if it is pending and the policy is neither queued nor on a timer |
| Stalls.StuckForever | internal/controller/namespacelifecyclepolicy_controller.go:2478-2493 | A stuck resume stays stuck in everything the operator does by itself, and no policy of lower priority gets past the gate meanwhile |
| Stalls.LostWakeupReachable | internal/controller/namespacelifecyclepolicy_controller.go:603-640 | A concrete run from a start state reaches a stuck resume |
| Ordering.PriorityOrder | internal/controller/namespacelifecyclepolicy_controller.go:998-1011 | In every run, from any settled state and while nothing new is flagged and no priority is edited, all pending resumes, whichever branch completes them, are completed in non-decreasing effective priority, whatever is cancelled, created, deleted or restarted in between |
| Ordering.MostUrgentFirst | internal/controller/namespacelifecyclepolicy_controller.go:2460-2494 | In every run without priority edits, whatever is flagged on the way, a resume that is completed other than by the branch for pre-conditions under check has no more urgent pending policy beside it |
| GateBypass.BypassIff | internal/controller/namespacelifecyclepolicy_controller.go:1563-1709 | In every run a reconcile that completes a pending resume goes around the priority gate if and only if it takes the branch for pre-conditions under check |
| GateBypass.NotBeforeStartup | internal/controller/namespacelifecyclepolicy_controller.go:914-923 | In every run a resume that does not take that branch is completed only after startup is marked complete |
| GateBypass.BypassNeedsNewFlag | internal/controller/namespacelifecyclepolicy_controller.go:1684-1709 | In every run a resume that goes around the gate was flagged while its reconcile was under way |
| GateBypass.BypassReachable | internal/controller/namespacelifecyclepolicy_controller.go:1667-1709 | A concrete run that completes a resume of priority 50 while one of priority 1 is pending and startup is not complete |
| StartupActs.StartupFlags | cmd/main.go:431-456 | In every run from the list to the completion mark whose startup calls succeed, each listed resume policy that is not Resumed and not taken care of by the pre-scan is flagged: pending from now on, Idle, its operation recorded, nothing else changed |
| StartupActs.StartupRecovers | cmd/main.go:391-418 | In every such run with a failed node, each listed resume policy that handles node failures is flagged with the failure noted and handled, unless it was handled after it was detected |
| StartupActs.StartupFreezes | cmd/main.go:333-352 | In every such run each listed freeze policy becomes Frozen, or pending with its start time if it has a delay |
| StartupActs.StartupLeavesAlone | cmd/main.go:391-456 | In every run startup changes no other policy: not those that ignore startup or came later, not Resumed ones, not those whose failure has been handled |
| StartupActs.FlagsInPriorityOrder | cmd/main.go:431-442 | In every run the policy flagged next is no less urgent than those flagged after it, 0 counting as 100 |
| Outcomes.FailureFlagsResume | internal/controller/namespacelifecyclepolicy_controller.go:1361-1406 | In every undisturbed reconcile of a policy whose unhandled node failure nothing holds up, the recovery resume ends up pending with its delay starting when the failure was handled, the operation recorded and a further reconcile asked for |
| Outcomes.HandlingFlags | internal/controller/namespacelifecyclepolicy_controller.go:1378-1396 | In any state a worker step that marks a failure handled flags the recovery resume with the same time and records the operation; only the wait for pre-conditions may put an older mark back |
| Outcomes.DuplicateFails | internal/controller/namespacelifecyclepolicy_controller.go:733-773 | In every undisturbed reconcile of a duplicate the policy ends Failed with its operation recorded and nothing asked for |
| Outcomes.FreezeByItsDeadline | internal/controller/namespacelifecyclepolicy_controller.go:801-909 | In every undisturbed reconcile of a delayed freeze no command interferes with: carried out if its time has come, left alone and looked at again by then if not |
| Outcomes.ResumeByItsDeadline | internal/controller/namespacelifecyclepolicy_controller.go:913-1351 | In every undisturbed reconcile of a pending resume: looked at again within 2 seconds before startup is complete, within 10 behind a more urgent one, by its deadline before that, and otherwise carried out, with a visit within 30 seconds if a node failed |
| Outcomes.NothingToDo | internal/controller/namespacelifecyclepolicy_controller.go:1409-1470 | In every undisturbed reconcile of a policy with nothing to do the name of a recovered node is forgotten, all else stays and nothing is asked for |
| Outcomes.PreconditionsIff | internal/controller/namespacelifecyclepolicy_controller.go:1090-1252 | A pending resume goes on past its pre-conditions if and only if there are none or they pass |
| Outcomes.PreconditionsWait | internal/controller/namespacelifecyclepolicy_controller.go:1219-1252 | Otherwise it stays pending, Resuming and under check, keeps the record, and is looked at again after the interval of the checks |
| Outcomes.ChecksWait | internal/controller/namespacelifecyclepolicy_controller.go:1591-1623 | Pre-conditions under check that do not pass are looked at again after their interval, 5 seconds by default |
| Outcomes.ThrottlingDecides | internal/controller/namespacelifecyclepolicy_controller.go:1255-1268 | A throttled resume counts only when it succeeded; a failure changes nothing and asks for another try, and only a newer command ends it for good |
| Outcomes.ProcessingWrites | internal/controller/namespacelifecyclepolicy_controller.go:1713-1724 | A manual operation begins with the phase of its action and its id recorded |
| Outcomes.ManualRecords | internal/controller/namespacelifecyclepolicy_controller.go:401-423 | Every phase the manual operation writes comes with its own id, and nothing else touches the record |
| Outcomes.NodeEventNoted | internal/controller/namespacelifecyclepolicy_controller.go:2275-2300 | A node event leaves an unhandled failure of this node, or one detected now, and the policy in the queue |
| Outcomes.EditQueues | internal/controller/namespacelifecyclepolicy_controller.go:2503-2510 | An edit of the spec puts the policy into the queue |
| Outcomes.RestartQueues | internal/controller/namespacelifecyclepolicy_controller.go:2565-2587 | A restarted operator looks at exactly the policies with a pending flag, an unhandled failure or an unhandled operation |
| Outcomes.WritesThatWake | internal/controller/namespacelifecyclepolicy_controller.go:2503-2562 | Status writes wake nobody up unless they set a flag, a start or a newer failure, and those do |
| Outcomes.NewPolicyQueued | internal/controller/namespacelifecyclepolicy_controller.go:2565-2587 | A new policy is in the queue if and only if it asks for an operation |
| Outcomes.FailedCallsRetried | internal/controller/namespacelifecyclepolicy_controller.go:887-909 | A call that fails changes nothing and is tried again, at every point at which it ends the reconcile |
| Outcomes.FetchRetried | internal/controller/namespacelifecyclepolicy_controller.go:707-718 | So is the fetch at the beginning |
| Outcomes.SkippedLeftAlone | internal/controller/namespacelifecyclepolicy_controller.go:1457-1533 | A skipped policy is left alone and looked at again only if a call made for it failed |
| Outcomes.NamespaceDecides | internal/controller/namespacelifecyclepolicy_controller.go:1535-1561 | A namespace that is missing or cannot be read fails the policy and records its operation, and in the second case there is another try |
| Outcomes.SkipsIff | internal/controller/namespacelifecyclepolicy_controller.go:108-128 | A policy is skipped if and only if it has an operation id, the id is recorded and no pre-conditions are under check |
| Progress.FirstNotBlocked | internal/controller/namespacelifecyclepolicy_controller.go:2473-2493 | A pending policy of minimal effective priority is never blocked |
| Progress.RoundShrinks | internal/controller/namespacelifecyclepolicy_controller.go:998-1334 | Every fair round (any interleaved run without duplicates or new flags in which due pending policies are left alone, their calls succeed, each is taken up at least once and the worker rests at the end) strictly shrinks the pending set, by completed resumes only |
| Progress.EverybodyResumed | internal/controller/namespacelifecyclepolicy_controller.go:913-1351 | Every run of at least as many fair rounds as policies are pending completes the resume of every one of them |
| Progress.FairRoundExists | internal/controller/namespacelifecyclepolicy_controller.go:1255-1334 | No deadlock: a fair round can be run from every calm state and ends in a calm state |
| Progress.ReachableIsCalm | internal/controller/namespacelifecyclepolicy_controller.go:2531-2543 | A reachable state without duplicates whose pending policies are due meets the assumptions of the progress theorem, by the wake-up theorem |
| Operations.AtMostOnce | internal/controller/namespacelifecyclepolicy_controller.go:1711-1724 | From any state, while a non-empty operation id stays in the spec, its manual operation gets past the "Processing" write at most once, across failures, cancellations, re-flagging and restarts |
| Operations.NewIdNotSwallowed | internal/controller/namespacelifecyclepolicy_controller.go:401-423 | An id that arrives while a manual reconcile carries out another one is still unhandled when that reconcile ends |
| Operations.FlagNotCancelled | internal/controller/namespacelifecyclepolicy_controller.go:529-550 | After startup flags a resume that no reconcile is working on, the id found in the spec never cancels it in any continuation |
| Operations.MissingNamespaceUsesUpId | internal/controller/namespacelifecyclepolicy_controller.go:1535-1552 | A missing namespace fails the policy and makes it skip the id afterwards |
| Acknowledgements.CancelIsGenuine | internal/controller/namespacelifecyclepolicy_controller.go:957-990 | In every run, a reconcile that began after startup cancels a resume only for an id that is unhandled in the store or has been replaced meanwhile |
| Acknowledgements.CancelIsStaleIff | internal/controller/namespacelifecyclepolicy_controller.go:529-550 | From any state and through any run in which the policy keeps asking for the id: a cancel is for an id that is recorded already if and only if startup acknowledged it after the reconcile began |
| Acknowledgements.StaleCancelReachable | internal/controller/namespacelifecyclepolicy_controller.go:967-990 | A concrete run in which a reconcile that began before startup ended cancels a resume for an acknowledged id |
| PreconditionCancel.NeverCarriedOut | internal/controller/namespacelifecyclepolicy_controller.go:1563-1709 | In every continuation a reconcile that is taken up, or cancels a resume, while pre-conditions are being checked never reaches the manual operation |
| PreconditionCancel.CancelCarriedOutIff | internal/controller/namespacelifecyclepolicy_controller.go:957-990 | In every run to the end of the reconcile whose calls succeed and whose policy nobody else touches, a command that cancels a resume is carried out, and once, if and only if it is unhandled in the store, no pre-conditions are being checked and no node failure is unhandled |
| Commands.CarriedOutIff | internal/controller/namespacelifecyclepolicy_controller.go:1457-1724 | For every policy with an unhandled command and every such run from the moment it is taken up: the command is carried out, and once, if and only if no pre-conditions are being checked, no node failure is unhandled, no older policy owns the namespace, and a pending resume does not wait for startup |
| Commands.ResumeLeavesChecking | internal/controller/namespacelifecyclepolicy_controller.go:1309-1331 | A resume completed through the gate leaves pre-conditions under check if they were |
| Commands.FreezeAfterResumeLost | internal/controller/namespacelifecyclepolicy_controller.go:1565-1709 | A concrete run in which a Freeze asked for after a completed resume ends with the namespace resumed, the command unhandled and nothing queued |
| PreconditionCancel.CommandTurnsIntoResume | internal/controller/namespacelifecyclepolicy_controller.go:1563-1709 | In every run to the end of the reconcile whose calls succeed and whose policy nobody else touches, a command that cancels a resume, or finds nothing pending, under pre-condition checks ends with the namespace resumed, the command unhandled and no further reconcile asked for |
| PreconditionCancel.FreezeThatResumes | internal/controller/namespacelifecyclepolicy_controller.go:967-990 | A concrete run from a start state in which a Freeze command ends with the namespace resumed |
| Conflicts.SeniorityIsStrict | internal/controller/namespacelifecyclepolicy_controller.go:752-755 | Seniority is asymmetric, and total on policies with distinct age or name |
| Conflicts.PrecedesIff | internal/controller/namespacelifecyclepolicy_controller.go:752-755 | The order of names is decided where one name ends or has the smaller character |
| Conflicts.SurvivorExists | internal/controller/namespacelifecyclepolicy_controller.go:724-726 | Any non-empty set of distinguishable policies has an oldest one |
| Conflicts.YoungerKeptOut | internal/controller/namespacelifecyclepolicy_controller.go:733-773 | In every run in which an older policy owns the namespace and has not failed, the worker never gets past the conflict for a younger one |
| Conflicts.YoungerFails | internal/controller/namespacelifecyclepolicy_controller.go:757-770 | In every run, startup and restarts included, in which an older policy owns the namespace and the younger one is taken up and its calls succeed, it is Failed when the worker rests if and only if startup has not overwritten its phase after the last report |
| Conflicts.YoungerStaysFailed | internal/controller/namespacelifecyclepolicy_controller.go:764-770 | In every run, startup and restarts included, in which an older policy owns the namespace, a younger policy that is Failed stays Failed throughout if and only if startup does not overwrite its phase |
| Conflicts.FailureUndone | internal/controller/namespacelifecyclepolicy_controller.go:536-550 | A concrete run in which startup makes a failed duplicate Idle again while the older policy owns the namespace |
| Conflicts.OldestNeverOusted | internal/controller/namespacelifecyclepolicy_controller.go:752-755 | In every run the oldest policy of a namespace is never failed for a conflict |
| Survivors.ExactlyOldestSurvives | internal/controller/namespacelifecyclepolicy_controller.go:733-773 | In every run, startup included, that takes up all policies of a namespace, brings none in or out and in which the oldest reports no failure of its own: the oldest is not Failed, and every other one is Failed if and only if startup has not overwritten its phase after the last report |
| Decimal.RoundTrip | internal/controller/namespacelifecyclepolicy_controller.go:204-209 | Parsing the decimal rendering of any 64-bit integer gives the integer |
| Decimal.NilIsNoNumber | internal/controller/namespacelifecyclepolicy_controller.go:91-94 | The word for an absent grace period is not the rendering of any number |
| Decimal.GarbageRejected | internal/controller/namespacelifecyclepolicy_controller.go:289-293 | Nothing, a sign alone, or a string with a character that is no digit is not parsed |
| Workloads.Stored.Freeze | internal/controller/namespacelifecyclepolicy_controller.go:177-223 | A freeze that succeeds on a running workload sets zero replicas and the override as grace period, notes the old count and, with an override, the old grace period so that they can be read back, and touches no other annotation; otherwise nothing changes |
| Workloads.Stored.Resume | internal/controller/namespacelifecyclepolicy_controller.go:275-335 | A resume with a possibly outdated annotated copy of an annotated workload sets the count of the copy, the noted grace period and removes both annotations; otherwise nothing changes, and exactly the failures are reported |
| Workloads.FreezeConserves | internal/controller/namespacelifecyclepolicy_controller.go:226-272 | A freeze of a conserved workload leaves it at zero replicas and conserved |
| Workloads.ResumeConserves | internal/controller/namespacelifecyclepolicy_controller.go:338-398 | A resume with any conserved copy succeeds and conserves, and with an annotated copy restores the original |
| Workloads.Conservation | internal/controller/namespacelifecyclepolicy_controller.go:177-398 | From a workload without operator annotations, any sequence of freezes and resumes, each resume with any earlier copy, keeps it running as at the beginning or at zero with annotations that decode exactly to the beginning |
| Workloads.ResumesIff | internal/controller/namespacelifecyclepolicy_controller.go:278-304 | A frozen workload runs again after a resume if and only if the copy given carries the annotation, and is untouched otherwise |
| NodeFailure.ResolveOwner | internal/controller/node_failure.go:164-188 | The answer is a StatefulSet if and only if the first reference to a ReplicaSet or StatefulSet is to it, a Deployment if and only if that reference is to a ReplicaSet that can be fetched whose first reference to a Deployment is to it, and unresolved if and only if the ReplicaSet cannot be fetched |
| NodeFailure.FullyLocalMeans | internal/controller/node_failure.go:88-98 | A pod counts for its workload if and only if it has neither finished nor been told to terminate |
| NodeFailure.CountersMeanLocal | internal/controller/node_failure.go:122-144 | The two counters agree if and only if every live pod of the workload is on the node, and the total is positive if and only if there is one |
| NodeFailure.FindFullyLocal | internal/controller/node_failure.go:48-158 | The workloads returned are exactly the selected ones with a live pod, all of whose live pods are on the failed node, without repetition, whatever the pod and map order |
| Namespaces.Namespace.FreezeEach | internal/controller/node_failure.go:257-281 | The loop freezes exactly the listed workloads whose calls succeed and reports them |
| Namespaces.Namespace.ResumeOne | internal/controller/namespacelifecyclepolicy_controller.go:275-335 | The resume of a stored workload with a possibly outdated copy succeeds without a call if the copy is not annotated, and otherwise exactly when the calls succeed, the workload exists and the annotation parses |
| Namespaces.Namespace.ResumeEach | internal/controller/namespacelifecyclepolicy_controller.go:1275-1286 | With possibly outdated copies, exactly the listed workloads whose resume succeeds are resumed and logged |
| Namespaces.Namespace.ScaleDown | internal/controller/node_failure.go:232-284 | Exactly the fully local workloads are scaled down, none in a frozen namespace |
| Namespaces.FailureThenRecovery | internal/controller/node_failure.go:255-283 | Scaling any workloads of a namespace without annotations down and resuming the selection gives every workload its original replicas, grace period and annotations back, and leaves untouched what was not scaled down |
| Namespaces.FailAndRecover | internal/controller/namespacelifecyclepolicy_controller.go:1361-1406 | The whole episode is an identity, and a workload with a live pod elsewhere is unchanged |
| ManualOperations.Filter | internal/controller/namespacelifecyclepolicy_controller.go:2997-3014 | The filter keeps exactly the annotated workloads, at ascending places of the list |
| ManualOperations.ManualFreeze | internal/controller/namespacelifecyclepolicy_controller.go:1775-1813 | Frozen is reported only when every listed workload is at zero, Failed exactly when a call failed, and exactly a prefix has been changed |
| ManualOperations.ManualResume | internal/controller/namespacelifecyclepolicy_controller.go:1939-2019 | At once or throttled, for every history: the workloads changed are exactly a prefix of the annotated ones, Resumed is reported exactly when it is all of them and then no listed workload carries the annotation, and no phase is written only on an override or a panic |
| FreezeGroups.Group | cmd/main.go:312-324 | The keys are strictly ascending, each group has one priority, and the groups one after the other are the sorted policies |
| FreezeGroups.ResortIsIdentity | cmd/main.go:326-329 | Sorting the keys once more changes nothing |
| FreezeGroups.BarrierHolds | cmd/main.go:349-350 | The wait is over only when every policy of the group has returned |
| FreezeGroups.LowerPrioritiesReturnFirst | cmd/main.go:333-352 | In every interleaving a freeze policy starts only after all of strictly lower freezePriority have returned |
| FreezeGroups.AllReturnBeforeFlags | cmd/main.go:448-453 | In every interleaving all freeze policies have returned before a resume policy is flagged |
| FreezeGroups.EachRunsOnce | cmd/main.go:339-347 | In every interleaving no policy is started twice, and all have run when the last barrier is passed |
| FreezeGroups.AlwaysFinishes | cmd/main.go:333-352 | From wherever an interleaving has led the groups can be brought to the last barrier |
| Throttling.Collect | internal/controller/signals.go:73-161 | The signals are exactly those raised by enabled checks, and an error is returned exactly when an enabled check fails |
| Throttling.BatchSizeInRange | internal/controller/adaptive_throttling.go:323-400 | The next size lies between the smaller and the larger of initial and minimum size, even where the 32-bit product wraps around |
| Throttling.SizeStaysInRange | internal/controller/adaptive_throttling.go:157-159 | The size stays in that range over every history of signals |
| Throttling.OneSignalDecides | internal/controller/adaptive_throttling.go:340-399 | For every configuration and any signals together: pressure before usage before restarts takes its configured percentage of the initial size, else pending pods theirs of the current one, never below the minimum, and without them the size climbs by one |
| Throttling.Defaults | internal/controller/adaptive_throttling.go:78-91 | Absent sizes and intervals count as 3, 1 and 5 |
| Throttling.DefaultSlowdowns | internal/controller/adaptive_throttling.go:341-391 | For every admitted configuration that leaves the percentages to their defaults: 50, 60 and 50 percent of the initial and 70 percent of the current size, but at least the minimum |
| Throttling.ClimbsBack | internal/controller/adaptive_throttling.go:394-399 | n rounds without signals give the minimum of the initial size and the size plus n |
| Throttling.FallsToMinimum | internal/controller/adaptive_throttling.go:381-392 | Lasting PendingPods below 100 percent brings the size to the minimum within the difference of the two |
| Throttling.WaitBounds | internal/controller/adaptive_throttling.go:403-425 | The wait is between one and six intervals, six exactly under all three signals, without 64-bit overflow |
| Throttling.WaitFactors | internal/controller/adaptive_throttling.go:403-425 | The wait is the interval times two for pressure, one and a half for pending pods and two for restarts |
| ThrottledResume.CheckManualOverride | internal/controller/adaptive_throttling_helper.go:29-91 | The stepwise check is the single condition used in the operator model |
| ThrottledResume.NodeWaitDefaults | internal/controller/adaptive_throttling.go:439-448 | Every 20 seconds for half an hour unless configured otherwise |
| ThrottledResume.WaitForClear | internal/controller/adaptive_throttling.go:428-493 | For every history the wait ends at the first answer that is not merely an unready node: cleared if and only if the nodes are ready there or a check fails with fallback on, given up only when cancelled, when a check fails without fallback or when the limit has passed |
| ThrottledResume.ResumeBatch | internal/controller/adaptive_throttling.go:223-253 | The workloads of the batch are resumed in the store one by one and logged in order, each after a check of its own; the batch stops only on an override that was seen or a resume that failed |
| ThrottledResume.ResumeThrottled | internal/controller/adaptive_throttling.go:43-320 | For every history the loop ends; the log of resumed workloads is a prefix of the list and exactly these are changed in the store; success is the whole list; pauses are bounded by the time limit over the interval, batches by the list over the smallest size, the sleeps are the waits of the batches but the last; the signals of each batch are those of the recorded answer of the outside, an early end has its cause in an answer, and a slice panics if and only if these signals lead past 32 bits |
| ThrottledResume.BoundedOverrun | internal/controller/adaptive_throttling.go:224-232 | Once an override is stored and readable, at most one more workload is resumed |
| ThrottledResume.BatchEndIff | internal/controller/adaptive_throttling.go:200-205 | The slice panics if and only if the end of the batch does not fit 32 bits |
| ThrottledResume.HugeMinimumPanics | api/v1alpha1/namespacelifecyclepolicy_types.go:286-291 | An admitted configuration and a history of the outside on which the loop panics |
| JsonPath.SplitOfJoin | internal/controller/signals.go:741-744 | Splitting joined dot-free keys gives the keys |
| JsonPath.JoinOfSplit | internal/controller/signals.go:741-744 | Joining the split of any path gives the path |
| JsonPath.Extract | internal/controller/signals.go:743-778 | For every path the answer is the one at the end of the way along its keys: the number, or where a key is missing, or where there is no object; the error after the loop never occurs |
| JsonPath.OneAnswer | internal/controller/signals.go:743-778 | There is one such way and one such answer |

## Left out

- The Kubernetes client, its cache, merge patches and conflict retries: a fetch followed by a write is one step that may fail, and reads are fresh except for the worker's own copy and the copies in the startup list.
- Watch latency: an event is in the queue as soon as the write happens; a deleted policy's name is not reused while a reconcile of it is running.
- The manual branch inside the operator model: after the "Processing" write any sequence of its status writes and exits is allowed; its loops over workloads are modelled separately in `ManualOperations`.
- waitForPreConditions and the pre-condition checks themselves: their verdict is an input.
- Pod balancing, node-ready events and rolling restarts: they appear only as wake-ups without further effect.
- Force deletion of terminating pods: it changes no workload and no policy.
- Status fields that no modelled decision reads (messages, conditions, progress, timestamps of the last resume or freeze).
- The library sort: the grouping takes the sorted policies as its input.
- Label selectors, HTTP and kubelet scraping, JSON decoding: selected lists, check results and decoded values are inputs.
- The node metrics cache: it is not keyed by selector or thresholds, so what can be said of it is easy.
- Namespaces.FailAndRecover: assumes that UIDs of Deployments and StatefulSets are distinct, as the API server guarantees, and that nobody else edits the workloads meanwhile.
- ThrottledResume.ResumeThrottled: takes at most 2147483647 workloads, because the code counts them in 32 bits.
- Progress.EverybodyResumed: assumes that calls made for pending policies succeed, their pre-conditions pass and nobody edits or flags them meanwhile; what interference can do is covered by the other theorems.
- The pre-condition check inside the manual Resume: it comes before the modelled loop and only decides whether the loop is reached.
