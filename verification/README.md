# Temote: verified models

Dafny models of the parts of Temote whose promises cover whole runs: the
Change graph with its stacked pull-request delivery, the start of a Change's
first task, the preparation of an environment, the plugin installer, the
bounded evidence store with its pager, the bounded line reader, the session
runtime and the capability grants.

`dafny verify dfyconfig.toml` checks everything.

## What is modelled, and how

**Change graph and delivery** (`src/change.rs`, `src/delivery.rs`,
`src/change_cli.rs`). `ChangeModel` holds the record and one function for each
closure the store runs under its lock. `LockedStore.Store` is the store: a map
from id to record, one method for each locked operation, each compare-and-swap
on the record revision (an unsigned 64-bit number whose overflow is an error).
`DeliveryPlanning` is the planner as the program runs it, with its nested loops;
`Delivery` has acceptance, delegation, observation and reconciliation on top of
the store. `Forest` is a small theory of parent pointers; its central lemma is
that a set of nodes each blocked by another node of the set contains a cycle.

`ChangeRuns` is the step relation. A history lists the store after every
critical section. A procedure of several critical sections reads several earlier
states and writes once, so the guard of a write says what its caller must have
read somewhere earlier in the history, at any moments and with anything in
between. A crash is a caller that never writes. `ChangeRunTheorems` holds what
every such history satisfies. SHA-256 over the plan is a constructor, hence
injective, and so is the derived observation identity. `OperationEffects` says
of every operation, in plain record fields, when it is accepted, what an
accepted one leaves and that nothing else moves; `ChangeLife` shows that the
whole life of a Change, from its creation to a completed delivery, is such a run.

Four claims one might expect are false of the code, and are stated exactly:

- The freshness check of a plan and the write that relies on it are separate
  critical sections, and a claim or a reconciliation compares the revision of
  its own Change. So another Change of the plan may have gone stale meanwhile.
  `PlanDisturbance` proves exactly which operations do that: an update of one of
  the plan's Changes, at its current revision, that grants a writer, advances the
  task revision, observes another snapshot or stamps a failure. `DeliveryRaces`
  lifts this to runs: a plan stays fresh from one moment to another if and only
  if no such operation comes between, and the whole plan is fresh at a claim or a
  reconciliation if and only if no step was disturbed after the check began
  without becoming fresh again. `ReachableExamples` has runs from the empty store
  in which a claim and a reconciliation succeed with the plan stale.
- The claim compares the revision the caller expects, not the one that was
  checked. `ClaimedChangeIsFresh` therefore asks that the expected revision was
  reached when the call began; a caller who expects a revision that is reached
  only during the call can claim a Change whose writer is held
  (`UnreachedRevisionCanBeClaimedWithWriter`).
- `verify_initial_snapshot` replaces the revision without clearing the
  verification. The callers' guards keep verifications fresh
  (`VerificationIsNeverStale`); without them freshness survives an import exactly
  under the condition of `ImportKeepsVerificationExactlyWhen`, and
  `ImportCanLeaveStaleVerification` lists operations from the empty store after
  which it does not.
- `handoff_writer` names the previous holder, but a call that names one always
  fails (`DirectHandoffAlwaysFails`): a lease is released and granted anew.

**First task of a Change** (`InitialStart`, `InitialStartProgress`). Any number of
concurrent, retried and crashing calls of the start procedure over the same
store. The reservation of the version-control system is an atomic test-and-set.
Each step of a call is determined (the lemmas named `…Exactly`), and three
theorems say what an undisturbed call gets done: the first one launches the
snapshot helper, a later one imports the snapshot and starts the main task, a
retry after the import starts it again with the same execution.

**Environment preparation** (`Preparation`, `PreparationRuns`,
`PreparationProgress`). The receipt as a class, the receipt file with its lock and expected-value save, and a machine of
concurrent `start` and `status` calls that may stop anywhere. `Ready` is not
final: a later `status` stores whatever it observes.

**Plugin installer** (`ConfigText`, `ConfigTextTheorems`, `PluginInstall`). The
line editor and validator are exact on text, with Unicode white space. The
installer runs on a host whose every step may fail, whose config may be edited
from outside between any two steps, and which records what happened at each
moment: a directory changed, the new config file was complete on disk, the config
was replaced, somebody edited it. It also counts the steps that failed and the
outside edits, so that success is promised exactly for runs in which there were
none. A crash leaves the state of one of those moments. Removing a directory is not atomic: it goes file by file. Outside edits
keep the setting of the owned section, nothing else about the file. Three things
the code leaves behind are visible in the contracts: a staging directory that was
made but could not be secured has no guard yet (`NotSecured`), a guard's failed
removal goes unnoticed (`stuck`), and temporary config files of a run that died
are never cleaned up (`TempsKept`). An edit made between the comparison with the
snapshot and the rename is overwritten; one made before is not
(`EditsBeforeTheCheckSurvive`).

**Evidence store** (`Utf8`, `Evidence`) and **line reader** (`Lines`,
`LineProtocol`). UTF-8 is section 4 of RFC 3629, byte for byte, and is proved to be
the encodings of the sequences of Unicode scalar values. The line reader
is proved equal to a function of the remaining stream alone, so the way the
stream is cut into buffers cannot matter.

**Sessions** (`SessionRuntime`, `SortedLists`, `Grants`). Instance generations
over whole histories of spawns with any clock, the nonce fence around activity,
the quiescing loop, and the grant algebra. `apply_session_grants` extends its
lists before it checks their limits, so a refused request may leave a session
over the limit; the contract of `Apply` says so.

## Model

| member | source | states |
|---|---|---|
| DeliveryPlanning.IndexById | src/delivery.rs:38-46 | the map of all Changes by id; a refusal exactly when an id repeats |
| DeliveryPlanning.RunPass | src/delivery.rs:52-115 | one sweep over the sorted ids, visiting each Change not yet placed, refuses or places exactly as the specified pass |
| DeliveryPlanning.Plan | src/delivery.rs:37-118 | terminates on every input and returns the specified plan or error; what that plan is worth is stated by the rows below |
| DeliveryPlanTheorems.PlanSucceedsExactlyWhenDeliverable | src/delivery.rs:37-118 | a plan exists if and only if ids are distinct, every base is in the set with the same scope, bases form no cycle and every Change is ready |
| DeliveryPlanTheorems.IdleRoundMeansCycle | src/delivery.rs:49-116 | completeness: a sweep that places nothing while Changes are left can only mean a cycle of bases |
| DeliveryPlanTheorems.PlanRefusalIsJustified | src/delivery.rs:41-116 | each refusal names a defect the set has: a repeated id, a missing or differently scoped base, a cycle, an unready Change |
| DeliveryPlanTheorems.PlanPlacesEachChangeAfterItsBase | src/delivery.rs:49-118 | the steps are a permutation of the Changes, each after its base, and each step names its Change's base, revision, refs and method |
| DeliveryPlanTheorems.PlannedRefsStack | src/delivery.rs:92-110 | the heads of a plan are distinct branches, none of them main; each step's refs, revision and method follow from its Change, and a stacked one goes to the head and revision of an earlier step |
| DeliveryPlanTheorems.ReadyInFields | src/delivery.rs:68-91 | being ready, in the fields of the record, and which refusal means what |
| IdOrder.LessExactly | src/delivery.rs:38-46 | the key order is the lexicographic one: the first difference decides |
| DeliveryPlanTheorems.PlanIgnoresInputOrder | src/delivery.rs:37-118 | every permutation of the Changes has the same plan or is refused alike |
| DeliveryPlanTheorems.PlanIgnoresDeliveryProgress | src/delivery.rs:37-118 | updates that only concern delivery leave plan and fingerprint identical, so a retry recomputes them |
| Forest.BlockedSetHasCycle | src/delivery.rs:112-114 | a nonempty set in which every node's parent is again in the set contains a cycle |
| Forest.NewLeafClosesNoCycle | src/change.rs:283-355 | giving a parent to a node nobody points at keeps a forest a forest |
| LockedStore.Store.Get | src/change.rs:194-213 | in a valid store reading succeeds exactly for a Change it holds, and returns that Change's own record, of the store's scope |
| LockedStore.Store.Update | src/change.rs:382-407 | compare-and-swap: the change is applied to the record at the expected revision, an unchanged record is not rewritten, a written one has the next revision, an error leaves the store alone |
| LockedStore.Store.CreateNamed | src/change.rs:283-355 | creates once, replays an identical request, refuses a conflicting one, a task that is owned, and a base that does not exist; keeps the store invariant |
| LockedStore.Store.AllocationIntent | src/change.rs:450-470 | records one allocation intent per Change and keeps the store invariant |
| LockedStore.Store.BindManagedWorkspace | src/change.rs:472-511 | binds the workspace of the recorded intent unless another Change owns it, replays, never rebinds |
| LockedStore.Store.AppendExecution | src/change.rs:513-550 | appends an execution with a new id and a larger generation than the last, at most 128; an identical recorded attempt is replayed, a different one under its id refused |
| LockedStore.Store.ReserveInitialStart | src/change.rs:552-580 | reserves the first start once and replays only the same reservation |
| LockedStore.Store.MarkInitialSnapshotAttempt | src/change.rs:629-651 | marks the snapshot dispatched, for the reserved snapshot only |
| LockedStore.Store.VerifyInitialSnapshot | src/change.rs:582-627 | records the imported revision once, after dispatch, and replays only the same import |
| LockedStore.Store.HandoffWriter | src/change.rs:653-687 | grants the lease with the next generation to a known execution, only while nobody holds it |
| LockedStore.Store.ReleaseWriter | src/change.rs:689-700 | only the exact lease that is held releases it |
| LockedStore.Store.ObserveTaskRevision | src/change.rs:725-743 | the task revision never goes back, and advancing it drops the verification |
| LockedStore.Store.ObserveSnapshot | src/change.rs:745-769 | a new revision drops the verification |
| LockedStore.Store.Verify | src/change.rs:771-798 | stamps the current revision with the recorded task revision, which must be known, and the record revision it will have; an equal stamp is replayed |
| OperationEffects.LabelsAre | src/change.rs:126-136 | identities are 1 to 128 ASCII letters, digits, hyphens, underscores and full stops |
| OperationEffects.ChangeIsCreated | src/change.rs:283-355 | a new Change is created if and only if its labels are legal, its base exists and agrees with the parent Change, and nobody has its task; the record it starts with |
| OperationEffects.CreationIsReplayed | src/change.rs:310-330 | creating an existing Change is answered with its record if and only if the request is the same |
| OperationEffects.WorkspaceIsBound | src/change.rs:472-511 | exactly when a binding is accepted, and that it writes workspace, provisioning and revision alone |
| OperationEffects.AllocationIsRecorded | src/change.rs:450-470 | exactly when an intent is accepted; it writes the allocation, which is pending, and nothing else |
| OperationEffects.NewAttemptIsAppended | src/change.rs:513-550 | an attempt under a new identity is accepted if and only if it is labelled, the Change bound, the history below 128 and the generation larger; it is appended at the end and nothing else moves |
| OperationEffects.RecordedAttemptIsReplayed | src/change.rs:513-550 | an attempt under a recorded identity is accepted if and only if the first one recorded under it is the same, and writes nothing |
| OperationEffects.LeaseIsGranted | src/change.rs:653-687 | exactly when a lease is granted, with the next generation, and nothing else moves |
| OperationEffects.LeaseIsReleased | src/change.rs:689-700 | a release is accepted if and only if this lease is held, at the current revision, below the limit; then nobody holds it and nothing else moved |
| OperationEffects.ReleaseMakesWay | src/change.rs:653-700 | after an accepted release a handoff to the last execution succeeds while generation and revision can be raised |
| OperationEffects.StartIsReserved | src/change.rs:552-580 | exactly when a first start is reserved or replayed, and what is written |
| OperationEffects.AttemptIsMarked | src/change.rs:629-651 | exactly when the attempt is marked; only the dispatched flag moves |
| OperationEffects.ImportIsRecorded | src/change.rs:582-627 | exactly when an import is recorded or replayed; it writes the observed revisions, the snapshot and the verified flag, and leaves the verification alone |
| OperationEffects.TaskRevisionIsObserved | src/change.rs:725-743 | accepted exactly for a positive revision that does not go back; a larger one is stored and drops the verification |
| OperationEffects.SnapshotIsObserved | src/change.rs:745-769 | exactly when a snapshot is accepted and what it writes; the verification stays only for an unchanged snapshot |
| OperationEffects.VerificationIsStamped | src/change.rs:771-798 | exactly when a stamp is accepted and what it says, or that an equal one is replayed |
| OperationEffects.ClaimIsRecorded | src/delivery.rs:218-227 | a claim stores a receipt in the accepted state with nothing recorded yet |
| OperationEffects.DelegationIsRecorded | src/delivery.rs:299-327 | a delegation stores its task and the delegated state, unless the delivery is completed; refused exactly for another operation or another task |
| OperationEffects.ObservationIsPrepared | src/delivery.rs:357-368 | the observation identity is stored, for this delivery only |
| OperationEffects.ObservationTaskIsRecorded | src/delivery.rs:371-398 | the observation task is stored once, for this delivery and observation only |
| OperationEffects.DeliveryIsSettled | src/delivery.rs:430-480 | in the fields of observation and step: an accepted settlement leaves the delivery completed if and only if the branch is at the step's revision and the pull request is the one asked for, waiting for reconciliation otherwise; it is refused exactly for another delivery, another revision or another pull request on record |
| OperationEffects.UnplannedDeliveryIsNotSettled | src/delivery.rs:412-416 | a Change the plan does not name is never settled |
| OperationEffects.UnknownChangeIsRefused | src/change.rs:194-213 | every operation on a Change the store does not hold is refused and moves nothing |
| ChangeRunTheorems.ReleasableHasNothingOpen | src/change.rs:800-806 | a Change reported ready for release has no lease anyone could give back, no workspace left to bind, and a delivery only with its pull request recorded, which takes no delegated task any more |
| StoreInvariants.ExecuteKeepsStoreOk | src/change.rs:283-798 | every locked operation with any arguments keeps the store well formed (a forest of bases, distinct tasks, distinct workspaces, bounded rising histories, a known holder) and only moves each record forward |
| Delivery.ValidatePlanFresh | src/delivery.rs:240-295 | accepts if and only if every step's Change has no writer, is at the planned revision with a passing current verification, and its base is as planned |
| Delivery.FreshInFields | src/delivery.rs:240-295 | freshness of a plan in the fields of its steps, their Changes and their bases |
| Delivery.AcceptOnce | src/delivery.rs:184-238 | succeeds if and only if the plan is fresh and admissible; reports a fresh claim exactly when it wrote the receipt, otherwise replays the stored one and writes nothing |
| Delivery.RecordDelegated | src/delivery.rs:299-327 | records the delegated task of an accepted delivery once |
| Delivery.PrepareObserving | src/delivery.rs:331-369 | succeeds if and only if this delivery was accepted and the request is the one on record or there is none and a revision is left; stores the observation request once, changing only the receipt; a replay changes nothing and keeps its identity, an error changes nothing |
| Delivery.ReconcileOnce | src/delivery.rs:403-480 | gets to its update if and only if the plan is fresh, names the Change and the parent's number is recorded, and then succeeds exactly for this delivery, revision and receipt unless another pull request is on record; the receipt ends completed if and only if what was seen is what the step asks for; an error changes nothing |
| ChangeRuns.StepKeepsStateOk | src/change.rs:283-798 | one step of any caller under its guard keeps fresh verifications, linked receipts and the store invariant |
| ChangeRuns.EveryRunIsOk | src/change_cli.rs:1883-2352 | every state of every interleaving satisfies the invariant, and records only move forward between any two moments |
| ChangeRunTheorems.ClosedSelectionPlans | src/change_cli.rs:899-909 | planning a selection closed under bases, read at any moments of a run, never fails for its bases: only an unready Change can refuse it |
| ChangeRunTheorems.OwnershipIsExclusiveAndPermanent | src/change.rs:472-511 | no two Changes ever share a task or a workspace; a bound workspace stays bound and has no pending allocation |
| ChangeRunTheorems.VerificationIsNeverStale | src/change_cli.rs:1645-1738 | in every reachable state a verification names the current revision and task revision and is no newer than the record |
| ChangeRunTheorems.StampDoesNotOutliveItsTarget | src/change.rs:725-769 | once the revision or the task revision changed, the earlier verification is gone |
| ChangeRunTheorems.ImportKeepsVerificationExactlyWhen | src/change.rs:582-627 | without the callers' guard an import keeps a verification fresh if and only if there is none or the revision is the recorded one |
| ReachableExamples.ImportCanLeaveStaleVerification | src/change.rs:582-627 | operations from the empty store, without the callers' guards, after which an import succeeds and leaves a verification of the revision it replaced |
| ChangeRunTheorems.LeaseNeverReturns | src/change.rs:653-700 | a lease given up is never held again in any later state |
| ChangeRunTheorems.StaleLeaseCannotRelease | src/change.rs:689-700 | a lease given up cannot release whatever came after it, at any revision |
| ChangeRunTheorems.LaterLeaseHasLargerGeneration | src/change.rs:653-687 | generations are granted strictly increasing and never reused |
| ChangeRunTheorems.HolderIsInTheHistory | src/change.rs:513-550 | the execution history only grows, is bounded with distinct ids and rising generations, and contains the holder |
| ChangeRunTheorems.DirectHandoffAlwaysFails | src/change.rs:672-675 | a handoff that names a previous holder fails on every store |
| ChangeRunTheorems.DeliveryIsClaimedAtMostOnce | src/delivery.rs:184-238 | over a run at most one acceptance of a Change claims its delivery |
| ChangeRunTheorems.ReceiptIsPermanent | src/delivery.rs:299-480 | operation, fingerprint, recorded pull request, delegated task, branch and observation identity of a receipt never change |
| ChangeRunTheorems.ClaimedChangeIsFresh | src/delivery.rs:184-238 | whatever interleaves, the claimed Change has no writer, the planned revision and a passing current verification at the claim |
| ChangeRunTheorems.SettledChangeIsFresh | src/delivery.rs:403-428 | the same for a reconciliation that gets past the revision comparison |
| ChangeRunTheorems.FreshnessExactlyWhen | src/delivery.rs:240-295 | in a reachable state a Change is fresh for a step if and only if it has no writer, is at the step's revision and its verification passed |
| ChangeRunTheorems.PlanIsFreshWhereComputed | src/delivery.rs:240-295 | a plan passes the freshness check on the records it was computed from |
| PlanDisturbance.StepStaysFreshExactlyWhen | src/delivery.rs:240-295 | in a reachable state one operation of anybody makes a fresh step stale if and only if it passes one of the listed guards on the step's Change or moves the revision of its base |
| PlanDisturbance.PlanStaysFreshExactlyWhen | src/delivery.rs:240-295 | one operation makes a fresh plan stale if and only if it disturbs one of its steps |
| PlanDisturbance.PlannedIsDisturbedExactlyWhen | src/change.rs:653-798 | for a plan the planner made: exactly an update of one of its Changes at the current revision that grants a writer, advances the task revision, observes another snapshot or stamps a failure |
| DeliveryRaces.FreshThroughoutExactlyWhen | src/delivery.rs:184-238 | a plan fresh at one moment of a run stays fresh through a later one if and only if no operation in between disturbs it |
| DeliveryRaces.WholePlanIsFreshExactlyWhen | src/delivery.rs:184-238 | at a write whose check read each step at its own moment, the whole plan is fresh if and only if no step was disturbed since the check began without becoming fresh again |
| DeliveryRaces.EveryClaimIsFreshOrRaced | src/delivery.rs:184-238 | every claim of every run has a checked plan behind it, and every step of that plan is fresh at the claim unless an operation disturbed it since the check began |
| DeliveryRaces.EveryReconciliationIsFreshOrRaced | src/delivery.rs:403-428 | the same for every reconciliation of every run |
| ReachableExamples.SiblingCanTakeWriterBeforeClaim | src/delivery.rs:184-238 | for any two Changes a run from the empty store in which one is granted a writer between the check and the claim of the other, and the claim succeeds |
| ReachableExamples.SiblingCanTakeWriterBeforeReconciliation | src/delivery.rs:403-480 | the same for a reconciliation, which completes the delivery |
| ReachableExamples.UnreachedRevisionCanBeClaimedWithWriter | src/delivery.rs:213-236 | a run from the empty store in which a caller who expects a revision reached only after the check claims a Change while its writer is held |
| ReachableExamples.CompletedDeliveryCanNeedReconciliation | src/delivery.rs:441-449 | a run from the empty store in which a completed delivery, whose branch is then seen elsewhere, needs reconciliation again |
| ChangeLife.LifeOfAChangeIsARun | src/change.rs:283-798 | a run of sixteen accepted operations from the empty store: creation, binding, first start, import, execution, lease, observation, verification, claim, delegation, observation and a completed delivery |
| ChangeRunTheorems.DeliveryProgressKeepsPlanFresh | src/delivery.rs:240-295 | when a plan's Changes and their bases moved by delivery only, the plan is as fresh or stale as before, whatever happened to other Changes |
| ChangeRunTheorems.RetryReplaysExactlyWhen | src/delivery.rs:184-238 | after a claim, a retry under the same operation and plan is answered, at any expected revision, if and only if the plan is fresh and the stack parent delivered |
| ChangeRunTheorems.CompletedHasPullRequest | src/delivery.rs:430-480 | a completed receipt has its pull request and the branch at the pull request's revision |
| ChangeRunTheorems.PullRequestsStackDownToMain | src/delivery.rs:403-480 | from a recorded pull request the bases lead to main, each pull request with the head and base refs of its Change and stacked on the number recorded for the next |
| InitialStart.NextKeepsOk | src/change_cli.rs:1225-1501 | one step of any call of the start procedure, or of anybody else, keeps the machine's invariant |
| InitialStart.SnapshotLaunchedAtMostOnce | src/change_cli.rs:1276-1313 | in every run of concurrent, retried and crashing calls the snapshot helper of a Change is launched at most once |
| InitialStart.MainStartIsProper | src/change_cli.rs:1406-1483 | the main start is admitted only with the snapshot dispatched, verified and imported and the lease held by the reserved execution |
| InitialStart.LostReservationIsNeverLaunched | src/change_cli.rs:1018-1035 | once the winner of the reservation is gone without launching, no later call launches that snapshot |
| InitialStartProgress.FirstCallLaunches | src/change_cli.rs:1276-1313 | every undisturbed run of a first call for a bound Change reserves, asks the version-control system, marks the attempt and launches exactly its snapshot |
| InitialStartProgress.FirstCallCanLaunch | src/change_cli.rs:1276-1313 | and from every such state there is one |
| InitialStartProgress.LaunchingExactly | src/change_cli.rs:1018-1031 | a launch is admitted exactly while the reservation is on record as dispatched and unverified and neither execution nor writer is there |
| InitialStartProgress.ReservingExactly | src/change_cli.rs:1276-1306 | a reservation goes on to the snapshot if it was never dispatched, to the import if it was, and past both if it was verified |
| InitialStartProgress.MarkingExactly | src/change_cli.rs:1299-1313 | only the call whose reservation was new goes on to launch |
| InitialStartProgress.LaterCallStarts | src/change_cli.rs:1314-1483 | every undisturbed run of a later call with a successful import ends with the main task started, with the imported revisions, the reserved execution and a new lease on record, and launches nothing |
| InitialStartProgress.LaterCallCanStart | src/change_cli.rs:1314-1483 | and from every such state there is one |
| InitialStartProgress.RetryStarts | src/change_cli.rs:1406-1483 | a retry after the import writes only what is missing of execution and lease and starts the main task with them |
| InitialStartProgress.RunLaunchesAndStarts | src/change_cli.rs:1225-1501 | a run of the machine from nothing in which a first call launches the snapshot of a Change and a second one starts its main task |
| Preparation.PreparationReceipt.Begin | src/environment_preparation.rs:225-233 | succeeds exactly for a receipt that was never begun, and leaves another one unchanged |
| Preparation.PreparationReceipt.RecordTask | src/environment_preparation.rs:235-251 | gives a begun, unsettled receipt its task and refuses another one |
| Preparation.PreparationReceipt.Reconcile | src/environment_preparation.rs:254-273 | running is in flight, unknown uncertain, failed failed, and completed ready or failed by the inspection |
| Preparation.ReceiptStore.SaveReceipt | src/environment_prepare_cli.rs:214-248 | writes if and only if the file holds the expected value |
| Preparation.ReceiptStore.OpenReceipt | src/environment_prepare_cli.rs:320-341 | begins a receipt when there is none, finds an equal one, refuses changed inputs or model |
| Preparation.ReceiptStore.RecordStarted | src/environment_prepare_cli.rs:376-393 | adds the started task to the stored receipt for the same session instance and owner |
| Preparation.ReceiptStore.SaveRecovered | src/environment_prepare_cli.rs:427-453 | records a retained task, or the uncertainty, over the unchanged receipt only |
| Preparation.ReceiptStore.SaveReconciled | src/environment_prepare_cli.rs:480-491 | stores an observation over the unchanged receipt only |
| PreparationRuns.StepKeepsOk | src/environment_prepare_cli.rs:302-491 | one step of any call keeps the machine's invariant and takes nothing durable back |
| PreparationRuns.StartIsAttemptedAtMostOnce | src/environment_prepare_cli.rs:302-400 | for any interleaving of start, status and crashes the delegated start of an operation is tried at most once, with its begun receipt stored |
| PreparationRuns.TaskIsPermanent | src/environment_preparation.rs:235-251 | a stored receipt keeps its plan and, once it has one, the task the backend started for it |
| PreparationRuns.NoUpdateIsLost | src/environment_prepare_cli.rs:214-248 | what a step writes over a stored receipt is that very receipt with the started or recovered task, or with the observed phase, computed by a call that holds the stored receipt, while its session instance is current; no other step rewrites one |
| PreparationRuns.ReadyMeansInspected | src/environment_preparation.rs:254-273 | ready is stored only for a task seen completed with a passed workspace inspection |
| PreparationProgress.FirstStartRecordsTask | src/environment_prepare_cli.rs:302-400 | an undisturbed first start begins the receipt, starts the task once and stores it |
| PreparationProgress.UnansweredStartLeavesReceipt | src/environment_prepare_cli.rs:343-375 | a start without an answer leaves the begun receipt and has spent its attempt |
| PreparationProgress.RepeatedStartExactly | src/environment_prepare_cli.rs:320-341 | a start over a stored receipt goes on as status if and only if inputs and model are the same |
| PreparationProgress.StatusReadsExactly | src/environment_prepare_cli.rs:402-430 | status goes on if and only if the stored receipt is of the same session instance, workspace and repository |
| PreparationProgress.StatusStoresWhatItSees | src/environment_prepare_cli.rs:455-491 | an undisturbed status over a known task stores the phase it observes, whatever was stored before |
| PreparationProgress.StatusRecoversTask | src/environment_prepare_cli.rs:427-453 | an undisturbed status without a task stores the retained one, or the uncertainty |
| PreparationProgress.StaleOwnerStoresNothing | src/environment_prepare_cli.rs:376-393 | a save by a call whose session instance was replaced meanwhile stores nothing |
| ConfigText.OwnedMeansUnderHeader | src/codex.rs:1077-1105 | a line belongs to the owned section exactly when the header is the last section line up to it |
| ConfigTextTheorems.OwnedIsHeaderBefore | src/codex.rs:1077-1105 | the same in the text of the lines: the header, and no line in square brackets since |
| ConfigTextTheorems.TrimCuts | src/codex.rs:1084-1085 | trimming cuts all white space off both ends and nothing else |
| ConfigText.RemovePluginConfigSection | src/codex.rs:1077-1105 | returns the lines outside the owned section, at most one blank line at the end, and whether there was a header |
| ConfigText.UpdatedConfigText | src/codex.rs:956-969 | the edited text; its properties are the rows about the edited text below |
| ConfigText.ValidateOwnedConfigSection | src/codex.rs:855-889 | accepts if and only if there is at most one section with exactly one setting and nothing else but comments; which error means what |
| ConfigText.ConfigSectionEnabled | src/codex.rs:1321-1335 | true exactly when some line of the owned section says enabled |
| ConfigTextTheorems.EnabledExactly | src/codex.rs:1321-1335 | the setting is on if and only if some line under the header is the enabling one |
| ConfigTextTheorems.UpdatedTextReadsBack | src/codex.rs:956-969 | for every text the edited text passes the validator and reads back the setting asked for |
| ConfigTextTheorems.UpdatedTextIsIdempotent | src/codex.rs:956-969 | asking twice is asking once, and enabling does not depend on the old setting |
| ConfigTextTheorems.UpdatedTextKeepsOutside | src/codex.rs:956-969 | all lines outside the owned section are kept in order, up to newlines at the end |
| ConfigTextTheorems.RemovalUndoesEnablingExactlyWhen | src/codex.rs:956-969 | enabling and then removing restores a text without the section if and only if it is empty or ends in exactly one blank line |
| PluginInstall.Host.CreatePrivateDirectory | src/codex.rs:354-369 | makes a new directory; if it cannot be secured the error leaves it behind |
| PluginInstall.Host.RemoveOwnedPluginRoot | src/codex.rs:763-774 | removes one directory, in any order and perhaps not to the end, and touches no other |
| PluginInstall.Host.CleanupTransactionArtifacts | src/codex.rs:321-326 | on success only the plugin root is left; the root and the setting never change |
| PluginInstall.Host.BuildStagedBundle | src/codex.rs:530-587 | a complete bundle beside the root, or an error whose leftovers are named |
| PluginInstall.Host.PlaceStagedBundle | src/codex.rs:645-671 | the bundle at the root and the old one at the alternate, or everything as before when the way back worked; no unsafe moment |
| PluginInstall.Host.RollbackBundle | src/codex.rs:673-681 | success means the old root is back, whole or absent, and the alternate gone; no unsafe moment |
| PluginInstall.Host.FinishBundleCommit | src/codex.rs:683-689 | removes what was replaced and leaves root and setting alone |
| PluginInstall.Host.ReadConfigSnapshot | src/codex.rs:891-954 | succeeds if and only if its step did not fail and the config is absent or passes the validator, and is then the config as it is |
| PluginInstall.Host.CommitConfigSnapshot | src/codex.rs:984-1061 | writes nothing for an equal text; otherwise replaces the config, keeping its mode, only if it equalled the snapshot at a comparison made after the new file was complete, with nothing but outside edits from there to the rename; any error leaves the config to the others |
| PluginInstall.Host.InstallAt | src/codex.rs:696-735 | every moment of an install is safe if the past was; success leaves exactly the new bundle, enabled; failure before the config was replaced puts root and setting back and leaves only directories this run could not remove; the config is replaced at most once, by the edited form of what it was at a comparison made after the new file was complete, with only outside edits in between; when no step fails, nobody edits, the temporary name is unused and the config is absent or well formed, it succeeds |
| PluginInstall.EditsBeforeTheCheckSurvive | src/codex.rs:1043-1056 | the replaced config has the mode and the outside lines of the compared one, and if the file it replaced was another, that one was put there by an outside edit after the comparison |
| PluginInstall.NoReplacementNoChange | src/codex.rs:984-1061 | a run that does not replace the config leaves every change of it to the others |
| PluginInstall.Host.UninstallAt | src/codex.rs:742-761 | every moment is safe; success leaves no bundle and the setting off; an error before the config commit changes neither; the config is replaced as in an install; it succeeds as an install does, and reports whether the config it replaced had a section |
| Utf8.BoundarySplitsValid | src/evidence.rs:174-228 | cutting well-formed UTF-8 at a character boundary leaves two well-formed texts |
| Utf8.BoundaryNearby | src/evidence.rs:242-247 | from any position a boundary is at most three bytes on and at most three bytes back |
| Utf8.BoundaryExactly | src/evidence.rs:242-247 | a cut leaves two well-formed texts if and only if it is at a boundary |
| Utf8.ValidExactlyWhenEncoded | src/line_protocol.rs:50-53 | a text is well formed if and only if it is the encoding of some sequence of Unicode scalar values |
| Evidence.Store.RemoveRecord | src/evidence.rs:270-274 | removes one record and its bytes, and does nothing for an unknown one; the total stays the exact sum, so the saturating subtraction never saturates |
| Evidence.Store.Prune | src/evidence.rs:257-268 | drops exactly the records past their retention |
| Evidence.ReadableForHalfAnHour | src/evidence.rs:257-268 | a record stored at t is kept, and readable by its owner, until t + 1800 seconds and not from then on |
| Evidence.LimitsInNumbers | src/evidence.rs:11-20 | the limits in numbers: 512 records, 128 of a session, 64 MiB in all, 2 MiB for one |
| Evidence.Store.MakeRoom | src/evidence.rs:93-107 | the eviction loop ends with room for the record, drops oldest records only, and none while there was room |
| Evidence.Store.StoreContent | src/evidence.rs:76-130 | keeps 512 records, 128 per session and 64 MiB after every store; the final limit check can never fail; empty and oversized content change nothing |
| Evidence.Store.RemoveSession | src/evidence.rs:230-240 | drops exactly the session's records |
| Evidence.Store.ReadContent | src/evidence.rs:166-228 | answers if and only if page size, owner, scope, instance, age and offset are right, with the page of the stored content |
| Evidence.NextCharBoundary | src/evidence.rs:242-247 | the first character boundary from a position on |
| Evidence.FindPageEnd | src/evidence.rs:205-216 | the page ends on a boundary, past its start unless at the end, at most three bytes over the request and never over the cap |
| Evidence.CutPage | src/evidence.rs:205-227 | the page is well-formed text of the stored content and says where to go on |
| Evidence.PagesAddUp | src/evidence.rs:166-228 | the pages got by following the offsets with any sizes are, joined, the content from the first offset to the last page's end |
| Evidence.ReadingTerminates | src/evidence.rs:166-228 | a reader who goes on is done after at most one page per byte and then has the whole content |
| Evidence.ContinuationIsReadable | src/evidence.rs:217-227 | a page's continuation offset is a legal offset further on |
| Lines.SplitIsUnique | src/line_protocol.rs:12-54 | a text can be cut into newline-ended lines in exactly one way |
| LineProtocol.NextBoundedLine | src/line_protocol.rs:12-54 | for every cutting of the stream into buffers, consumes exactly through the next newline or the end, and answers too-large, invalid or the line by the line's bytes alone |
| LineProtocol.ServeLines | src/mcp.rs:323-345 | asking until there are no more lines answers exactly the lines of the stream, in order |
| LineProtocol.LinesOfText | src/line_protocol.rs:50-53 | a stream is well-formed UTF-8 if and only if each of its lines is |
| LineProtocol.RecoversAfterAnyLine | src/line_protocol.rs:46-49 | after any line, oversized or malformed, the next one is answered as if it came first |
| SessionRuntime.SessionStore.SpawnRuntime | src/approvals.rs:945-1040 | the generation chosen and what is on disk after each way a spawn can end |
| SessionRuntime.SpawnExactly | src/approvals.rs:945-1040 | the generation is the clock, or one more than the latest that was read if that is not before it; a spawn runs if and only if a generation is left and every save succeeds, and what is on disk otherwise |
| SessionRuntime.EarlierTupleNeverMatches | src/approvals.rs:949-967 | with any clock a later runtime of an id has a larger generation, so an earlier instance tuple never fits it, if each spawn could read one of the two files |
| SessionRuntime.UnreadableStateCanRepeat | src/approvals.rs:945-967 | when neither file was readable the tuple can repeat |
| SessionRuntime.ActivitySink.Publish | src/approvals.rs:285-304 | accepts exactly updates for this instance with its nonce while not retired, and publishes only those |
| SessionRuntime.UpdatesReachTheirOwnRuntimeOnly | src/approvals.rs:229-234 | even with equal tuples after a session was forgotten and made anew, an update is accepted by one runtime only |
| SessionRuntime.Runtime.Dispatch | src/approvals.rs:1268-1560 | one message and exactly which answer it gets: allowed, applied or waiting only unquiesced and for this instance, by mode, console and free slots; bound and accepted only by an idle, unretired sink; and what is published, counted and held |
| SessionRuntime.Runtime.Finish | src/approvals.rs:1226-1230 | an operation is counted out when its task ends; quiesced keeps meaning none in flight |
| SessionRuntime.Runtime.SetUpgradeQuiesced | src/approvals.rs:1628-1640 | quiescing succeeds exactly when no operation is in flight |
| Grants.Session.GrantsMissingFrom | src/config.rs:248-277 | what a valid request would add, sorted and without duplicates |
| Grants.Session.Apply | src/config.rs:332-367 | succeeds if and only if the request is valid and nothing is missing or what comes of it is within the limits; adds exactly what is missing; says what each refused request leaves behind |
| Grants.Session.Revoke | src/config.rs:372-408 | removes exactly the named ports and prefixes and returns those held |
| Grants.RevokedIsIntersection | src/config.rs:372-408 | what a revocation returns is the intersection of request and session, each element as often as it was asked for |
| Grants.KeptInOrder | src/config.rs:372-408 | and in the order of the request |
| SortedLists.WithoutInOrder | src/config.rs:372-408 | what stays of a list stays in order and number |
| Grants.CanonicalOneByOne | src/config.rs:248-277 | directories are made canonical one by one, and refused if one has no canonical form |
| Grants.ApplyIsUnion | src/config.rs:332-367 | applying is a set union with sorted lists, and applying again adds nothing |
| Grants.RevokeUndoesApplyExactlyWhen | src/config.rs:372-408 | revoking the returned delta restores ports and prefixes if and only if the lists were sorted, and always the flag |
| SortedLists.AddThenDrop | src/config.rs:340-400 | adding missing elements and dropping them again sorts the list and changes it only if it was not sorted |

## Left out

- ChangeRunTheorems.ClaimedChangeIsFresh: speaks of the claimed Change alone, which the revision comparison protects; the whole plan is the subject of DeliveryRaces.WholePlanIsFreshExactlyWhen.
- ChangeRunTheorems.SettledChangeIsFresh: speaks of the reconciled Change alone, for the same reason.
- ChangeRuns.EveryRunIsOk: the guards of the callers in `change_cli.rs` are part of the step relation; the command dispatch around them is not.
- InitialStartProgress.FirstCallLaunches: the checks of session, task and binding before the reservation are taken as passed.
- PreparationProgress.FirstStartRecordsTask: the delegated start answers with a task; a session's owner is taken to be bound to that session.
- PluginInstall.Host.CommitConfigSnapshot: an edit between the re-check and the rename is lost, as in the code, and the contract says so.
- PreparationRuns.StepKeepsOk: the backend's retained task is read as it is; a backend that forgets it makes the receipt uncertain.
- SessionRuntime.EarlierTupleNeverMatches: takes the last save of a stopped runtime to come before the next spawn of its id, as the supervisor arranges.
- SessionRuntime.Runtime.Dispatch: a runtime without an activity sink is not modelled separately; updates to it are discarded.
- Size limits of stored records, receipts, config files and session messages, JSON encoding, and the text syntax of identifiers beyond the label rule.
- File permissions, symbolic links, sockets, fsync and the lock files themselves: critical sections, atomic rename and atomic exchange are primitives, and each may fail.
- `bind_workspace` and `observe_revision` of the store, which only tests call.
- The binding index of `change_cli.rs` (`record_binding`) and the admission locks beside it; views, projections and prompts.
- The contents of the version-control, backend, repository-store and named-root modules: a test-and-set, a counter and parameters stand for them.
- `list` of the store, the diagnostics of the plugin and the status text.
- `local_approval` for operations other than session grants; the approval console.
- Signature checks in `src/access.rs`, the event host, the activity runtime, command-line parsing and the deployment scripts: single-branch or plumbing.
