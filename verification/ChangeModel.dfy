// The durable Change record, and what each store operation does to one record.
module ChangeModel {
  import opened Wrappers

  const U64_MAX: nat := 0xFFFF_FFFF_FFFF_FFFF
  const MAX_EXECUTIONS: nat := 128

  type U64 = n: nat | n <= U64_MAX

  // A derived identity (UUIDv5) never collides with another derivation.
  datatype Uuid = Minted(seed: nat) | Derived(namespace: Uuid, name: string)

  datatype Scope = Scope(sessionId: string, startedAt: U64, processId: nat, root: string, repository: string)

  datatype Base = OriginMain | OnChange(id: string)

  datatype Execution = Execution(id: string, backend: string, executor: string, generation: U64)

  datatype Lease = Lease(executionId: string, generation: U64)

  datatype Verification = Verification(revision: string, recordRevision: U64, taskRevision: U64, passed: bool)

  datatype InitialStart = InitialStart(
    operation: Uuid,
    fingerprint: string,
    snapshotOperation: Uuid,
    executionId: string,
    dispatched: bool,
    verified: bool,
    vcsOperation: Option<string>)
  {
    // The part of a reservation that a retry must repeat.
    predicate SameRequest(other: InitialStart) {
      && operation == other.operation
      && fingerprint == other.fingerprint
      && snapshotOperation == other.snapshotOperation
      && executionId == other.executionId
    }
  }

  datatype DeliveryMethod = SinglePr | StackedPr

  datatype DeliveryStep = DeliveryStep(
    changeId: string,
    revision: string,
    headRef: string,
    baseRef: string,
    baseChange: Option<string>,
    baseRevision: Option<string>,
    how: DeliveryMethod)

  // SHA-256 of the serialized steps, taken as injective.
  datatype Fingerprint = Digest(steps: seq<DeliveryStep>)

  datatype DeliveryPlan = DeliveryPlan(steps: seq<DeliveryStep>, fingerprint: Fingerprint)

  datatype DeliveryState = Accepted | Delegated | ReconciliationRequired | Completed

  datatype PullRequest = PullRequest(
    number: U64,
    headRef: string,
    baseRef: string,
    revision: string,
    url: string,
    stackParent: Option<U64>,
    stackLinked: bool)

  datatype Observation = Observation(branchRevision: Option<string>, pullRequest: Option<PullRequest>)

  datatype DeliveryReceipt = DeliveryReceipt(
    operation: Uuid,
    fingerprint: Fingerprint,
    state: DeliveryState,
    delegatedTask: Option<string>,
    branchRevision: Option<string>,
    pullRequest: Option<PullRequest>,
    observationOperation: Option<Uuid>,
    observationTask: Option<string>)

  datatype ChangeRecord = ChangeRecord(
    changeId: string,
    scope: Scope,
    taskId: string,
    parentTask: Option<string>,
    parentChange: Option<string>,
    base: Base,
    workspace: Option<string>,
    provisioning: Option<Uuid>,
    allocation: Option<Uuid>,
    allocationPending: bool,
    executions: seq<Execution>,
    initialStart: Option<InitialStart>,
    writer: Option<Lease>,
    writerGeneration: U64,
    logical: Option<string>,
    materialized: Option<string>,
    latestSnapshot: Option<Uuid>,
    taskRevision: U64,
    verification: Option<Verification>,
    delivery: Option<DeliveryReceipt>,
    revision: U64)

  datatype Error =
    | InvalidLabel
    | NotFound
    | RevisionConflict
    | RevisionOverflow
    | BaseParentConflict
    | CreationConflict
    | TaskAlreadyOwned
    | AlreadyAllocated
    | AllocationConflict
    | WorkspaceOwned
    | WorkspaceConflict
    | ProvisioningConflict
    | NoAllocationIntent
    | NotAllocated
    | ExecutionConflict
    | GenerationNotAdvanced
    | HistoryFull
    | StartConflict
    | StartMissing
    | AlreadyExecuting
    | SnapshotConflict
    | NeverDispatched
    | FollowedStartup
    | WriterNotCurrent
    | WriterHeld
    | WriterOverflow
    | FenceMismatch
    | LogicalConflict
    | TaskRevisionInvalid
    | TaskRevisionRegressed
    | VerificationTargetStale
    | TaskRevisionMissing
    | DuplicateChange
    | MissingParent(child: string)
    | IncompatibleParent
    | ActiveWriter
    | MissingRevision
    | MissingVerification
    | VerificationStale
    | DependencyCycle
    | FingerprintMismatch
    | PlanStale
    | PlanMismatch
    | AbsentFromPlan
    | ParentIncomplete
    | DeliveryConflict
    | DeliveryNotAccepted
    | DeliveryTaskConflict
    | ObservationConflict
    | ParentPrMissing
    | ConflictingPr

  type Outcome = Result<ChangeRecord, Error>

  predicate LabelByte(c: char) {
    'a' <= c <= 'z' || 'A' <= c <= 'Z' || '0' <= c <= '9' || c == '-' || c == '_' || c == '.'
  }

  predicate Label(s: string) {
    0 < |s| <= 128 && forall i :: 0 <= i < |s| ==> LabelByte(s[i])
  }

  predicate OptionalLabel(s: Option<string>) {
    s.Some? ==> Label(s.value)
  }

  function HeadRef(id: string): string {
    "temote/" + id
  }

  function BaseRef(base: Base): string {
    match base
    case OriginMain => "main"
    case OnChange(id) => HeadRef(id)
  }

  function BaseChange(base: Base): Option<string> {
    match base
    case OriginMain => None
    case OnChange(id) => Some(id)
  }

  function MethodFor(base: Base): DeliveryMethod {
    if base.OnChange? then StackedPr else SinglePr
  }

  function NewRecord(scope: Scope, id: string, taskId: string, parentTask: Option<string>,
                     parentChange: Option<string>, base: Base): ChangeRecord {
    ChangeRecord(id, scope, taskId, parentTask, parentChange, base,
                 None, None, None, false, [], None, None, 0, None, None, None, 0, None, None, 1)
  }

  predicate Bound(r: ChangeRecord) {
    r.workspace.Some? && !r.allocationPending
  }

  // Nothing pending, written or in delivery.
  predicate Releasable(r: ChangeRecord) {
    && !r.allocationPending && r.writer.None?
    && (r.delivery.Some? ==> r.delivery.value.state == Completed)
  }

  // ----- allocation -----

  function AllocateIntent(r: ChangeRecord, operation: Uuid): Outcome {
    if r.workspace.Some? then Err(AlreadyAllocated)
    else if r.allocation.Some? && r.allocation != Some(operation) then Err(AllocationConflict)
    else Ok(r.(allocation := Some(operation), allocationPending := true))
  }

  // The record part of binding; ownership by another Change is the store's check.
  function BindWorkspace(r: ChangeRecord, operation: Uuid, workspace: string): Outcome {
    if r.allocation != Some(operation) then Err(AllocationConflict)
    else if r.workspace.Some? then
      if r.workspace != Some(workspace) then Err(WorkspaceConflict)
      else if r.provisioning != Some(operation) then Err(ProvisioningConflict)
      else Ok(r)
    else if !r.allocationPending then Err(NoAllocationIntent)
    else Ok(r.(workspace := Some(workspace), provisioning := Some(operation), allocationPending := false))
  }

  // ----- execution history and writer lease -----

  // The first attempt recorded under an execution identity.
  function FindExecution(s: seq<Execution>, id: string): (r: Option<Execution>)
    ensures r.Some? <==> exists e :: e in s && e.id == id
    ensures r.Some? ==> r.value in s && r.value.id == id
  {
    if |s| == 0 then None
    else if s[0].id == id then Some(s[0])
    else
      assert s == [s[0]] + s[1..];
      FindExecution(s[1..], id)
  }

  function AppendExecution(r: ChangeRecord, attempt: Execution): Outcome {
    if !Bound(r) then Err(NotAllocated)
    else
      var known := FindExecution(r.executions, attempt.id);
      if known.Some? then
        if known.value != attempt then Err(ExecutionConflict) else Ok(r)
      else if |r.executions| > 0 && attempt.generation <= r.executions[|r.executions| - 1].generation then
        Err(GenerationNotAdvanced)
      else if |r.executions| >= MAX_EXECUTIONS then Err(HistoryFull)
      else Ok(r.(executions := r.executions + [attempt]))
  }

  predicate IsLastExecution(r: ChangeRecord, id: string) {
    |r.executions| > 0 && r.executions[|r.executions| - 1].id == id
  }

  function HandoffWriter(r: ChangeRecord, previous: Option<Lease>, executionId: string): Outcome {
    if !Bound(r) then Err(NotAllocated)
    else if !IsLastExecution(r, executionId) then Err(WriterNotCurrent)
    else if previous.Some? || r.writer.Some? then Err(WriterHeld)
    else if r.writerGeneration == U64_MAX then Err(WriterOverflow)
    else Ok(r.(writerGeneration := r.writerGeneration + 1,
               writer := Some(Lease(executionId, r.writerGeneration + 1))))
  }

  function ReleaseWriter(r: ChangeRecord, expected: Lease): Outcome {
    if r.writer != Some(expected) then Err(FenceMismatch)
    else Ok(r.(writer := None))
  }

  // ----- initial start -----

  function ReserveStart(r: ChangeRecord, start: InitialStart): Outcome {
    if !Bound(r) then Err(NotAllocated)
    else if r.initialStart.Some? then
      if !r.initialStart.value.SameRequest(start) then Err(StartConflict) else Ok(r)
    else if r.executions != [] || r.writer.Some? then Err(AlreadyExecuting)
    else Ok(r.(initialStart := Some(start)))
  }

  function MarkSnapshotAttempt(r: ChangeRecord, operation: Uuid): Outcome {
    if r.initialStart.None? then Err(StartMissing)
    else if r.initialStart.value.snapshotOperation != operation then Err(SnapshotConflict)
    else if r.initialStart.value.verified || r.executions != [] || r.writer.Some? then Err(FollowedStartup)
    else Ok(r.(initialStart := Some(r.initialStart.value.(dispatched := true))))
  }

  function VerifyInitialSnapshot(r: ChangeRecord, operation: Uuid, logical: string,
                                 materialized: string, vcsOperation: string): Outcome {
    if r.initialStart.None? then Err(StartMissing)
    else
      var start := r.initialStart.value;
      if start.snapshotOperation != operation then Err(SnapshotConflict)
      else if !start.dispatched then Err(NeverDispatched)
      else if start.verified then
        if r.logical == Some(logical) && r.materialized == Some(materialized)
           && start.vcsOperation == Some(vcsOperation)
        then Ok(r) else Err(SnapshotConflict)
      else if r.executions != [] || r.writer.Some? then Err(FollowedStartup)
      else Ok(r.(initialStart := Some(start.(verified := true, vcsOperation := Some(vcsOperation))),
                 logical := Some(logical),
                 materialized := Some(materialized),
                 latestSnapshot := Some(operation)))
  }

  // ----- observation and verification -----

  function ObserveTaskRevision(r: ChangeRecord, taskRevision: U64): Outcome {
    if taskRevision < r.taskRevision then Err(TaskRevisionRegressed)
    else if taskRevision == r.taskRevision then Ok(r)
    else Ok(r.(taskRevision := taskRevision, verification := None))
  }

  function ObserveSnapshot(r: ChangeRecord, operation: Uuid, logical: string, materialized: string): Outcome {
    if r.logical.Some? && r.logical != Some(logical) then Err(LogicalConflict)
    else if r.materialized != Some(materialized) || r.latestSnapshot != Some(operation) then
      Ok(r.(logical := Some(logical), materialized := Some(materialized),
            latestSnapshot := Some(operation), verification := None))
    else Ok(r.(logical := Some(logical)))
  }

  function Verify(r: ChangeRecord, materialized: string, passed: bool): Outcome {
    if r.materialized != Some(materialized) then Err(VerificationTargetStale)
    else if r.taskRevision == 0 then Err(TaskRevisionMissing)
    else if r.verification.Some? && r.verification.value.revision == materialized
            && r.verification.value.passed == passed then Ok(r)
    else if r.revision == U64_MAX then Err(RevisionOverflow)
    else Ok(r.(verification := Some(Verification(materialized, r.revision + 1, r.taskRevision, passed))))
  }

  // ----- delivery receipt -----

  function NewReceipt(operation: Uuid, fingerprint: Fingerprint): DeliveryReceipt {
    DeliveryReceipt(operation, fingerprint, Accepted, None, None, None, None, None)
  }

  function ClaimDelivery(r: ChangeRecord, operation: Uuid, fingerprint: Fingerprint): Outcome {
    Ok(r.(delivery := Some(NewReceipt(operation, fingerprint))))
  }

  function RecordDelegation(r: ChangeRecord, operation: Uuid, task: string): Outcome {
    if r.delivery.None? then Err(DeliveryNotAccepted)
    else
      var d := r.delivery.value;
      if d.operation != operation then Err(DeliveryConflict)
      else if d.delegatedTask.Some? && d.delegatedTask != Some(task) then Err(DeliveryTaskConflict)
      else if d.state == Completed then Ok(r)
      else Ok(r.(delivery := Some(d.(delegatedTask := Some(task), state := Delegated))))
  }

  function PrepareObservation(r: ChangeRecord, operation: Uuid, observation: Uuid): Outcome {
    if r.delivery.None? then Err(DeliveryNotAccepted)
    else if r.delivery.value.operation != operation then Err(DeliveryConflict)
    else Ok(r.(delivery := Some(r.delivery.value.(observationOperation := Some(observation)))))
  }

  function RecordObservationTask(r: ChangeRecord, operation: Uuid, observation: Uuid, task: string): Outcome {
    if r.delivery.None? then Err(DeliveryNotAccepted)
    else
      var d := r.delivery.value;
      if d.operation != operation || d.observationOperation != Some(observation) then Err(ObservationConflict)
      else if d.observationTask.Some? && d.observationTask != Some(task) then Err(ObservationConflict)
      else Ok(r.(delivery := Some(d.(observationTask := Some(task)))))
  }

  predicate HttpsUrl(url: string) {
    "https://" <= url
  }

  // The observed pull request is the one the step asked for.
  predicate PullRequestMatches(step: DeliveryStep, pr: PullRequest, parent: Option<U64>) {
    && pr.number > 0
    && pr.headRef == step.headRef
    && pr.baseRef == step.baseRef
    && pr.revision == step.revision
    && HttpsUrl(pr.url)
    && (match step.how
        case SinglePr => pr.stackParent.None? && !pr.stackLinked
        case StackedPr => pr.stackParent == parent && pr.stackLinked)
  }

  function ReconcileReceipt(d: DeliveryReceipt, step: DeliveryStep, parent: Option<U64>, seen: Observation)
    : Result<DeliveryReceipt, Error>
  {
    if seen.branchRevision.Some? && seen.branchRevision != Some(step.revision) then
      Ok(d.(state := ReconciliationRequired))
    else
      var d1 := if seen.branchRevision.Some? then d.(branchRevision := seen.branchRevision) else d;
      if seen.pullRequest.Some?
         && PullRequestMatches(step, seen.pullRequest.value, parent)
         && seen.branchRevision == Some(step.revision)
      then
        if d1.pullRequest.Some? && d1.pullRequest != seen.pullRequest then Err(ConflictingPr)
        else Ok(d1.(pullRequest := seen.pullRequest, state := Completed))
      else Ok(d1.(state := ReconciliationRequired))
  }

  function StepOf(steps: seq<DeliveryStep>, id: string): (r: Option<DeliveryStep>)
    ensures r.Some? <==> exists k :: 0 <= k < |steps| && steps[k].changeId == id
    ensures r.Some? ==> r.value in steps && r.value.changeId == id
  {
    if |steps| == 0 then None
    else if steps[0].changeId == id then Some(steps[0])
    else
      assert forall k :: 0 <= k < |steps| - 1 ==> steps[1..][k] == steps[k + 1];
      StepOf(steps[1..], id)
  }

  function Reconcile(r: ChangeRecord, plan: DeliveryPlan, parent: Option<U64>, operation: Uuid, seen: Observation)
    : Outcome
  {
    var step := StepOf(plan.steps, r.changeId);
    if step.None? then Err(AbsentFromPlan)
    else if r.delivery.None? then Err(DeliveryNotAccepted)
    else
      var d := r.delivery.value;
      if d.operation != operation || d.fingerprint != plan.fingerprint then Err(DeliveryConflict)
      else if r.materialized != Some(step.value.revision) then Err(PlanStale)
      else
        var d' :- ReconcileReceipt(d, step.value, parent, seen);
        Ok(r.(delivery := Some(d')))
  }
}
