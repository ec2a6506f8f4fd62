// The locked, compare-and-swap record store. `Execute` says what each locked
// operation does to the whole store; the class carries the operations out.
module ChangeStore {
  import opened Wrappers
  import opened ChangeModel
  import opened DeliveryPlanning

  datatype RecordOp =
    | Allocate(operation: Uuid)
    | Append(attempt: Execution)
    | Reserve(start: InitialStart)
    | MarkAttempt(snapshot: Uuid)
    | VerifyInitial(snapshot: Uuid, logical: string, materialized: string, vcsOperation: string)
    | Handoff(previous: Option<Lease>, executionId: string)
    | Release(expected: Lease)
    | ObserveTask(taskRevision: U64)
    | Snapshot(snapshot: Uuid, logical: string, materialized: string)
    | Stamp(materialized: string, passed: bool)
    | Claim(operation: Uuid, fingerprint: Fingerprint)
    | Delegate(operation: Uuid, task: string)
    | PrepareObserver(operation: Uuid, observation: Uuid)
    | RecordObserver(operation: Uuid, observation: Uuid, task: string)
    | Settle(plan: DeliveryPlan, parent: Option<U64>, operation: Uuid, seen: Observation)

  datatype StoreOp =
    | Create(id: string, taskId: string, parentTask: Option<string>, parentChange: Option<string>, base: Base)
    | Bind(id: string, rev: U64, operation: Uuid, workspace: string)
    | Update(id: string, rev: U64, change: RecordOp)

  datatype Executed = Executed(records: Records, result: Outcome)

  function Effect(op: RecordOp, r: ChangeRecord): Outcome {
    match op
    case Allocate(operation) => AllocateIntent(r, operation)
    case Append(attempt) => AppendExecution(r, attempt)
    case Reserve(start) => ReserveStart(r, start)
    case MarkAttempt(snapshot) => MarkSnapshotAttempt(r, snapshot)
    case VerifyInitial(snapshot, logical, materialized, vcs) =>
      VerifyInitialSnapshot(r, snapshot, logical, materialized, vcs)
    case Handoff(previous, executionId) => HandoffWriter(r, previous, executionId)
    case Release(expected) => ReleaseWriter(r, expected)
    case ObserveTask(taskRevision) => ObserveTaskRevision(r, taskRevision)
    case Snapshot(snapshot, logical, materialized) => ObserveSnapshot(r, snapshot, logical, materialized)
    case Stamp(materialized, passed) => Verify(r, materialized, passed)
    case Claim(operation, fingerprint) => ClaimDelivery(r, operation, fingerprint)
    case Delegate(operation, task) => RecordDelegation(r, operation, task)
    case PrepareObserver(operation, observation) => PrepareObservation(r, operation, observation)
    case RecordObserver(operation, observation, task) => RecordObservationTask(r, operation, observation, task)
    case Settle(plan, parent, operation, seen) => Reconcile(r, plan, parent, operation, seen)
  }

  // The operation as the closure handed to the locked update.
  function EffectOf(op: RecordOp): ChangeRecord -> Outcome {
    (r: ChangeRecord) => Effect(op, r)
  }

  // Refusals made before the lock is taken.
  function ArgumentError(op: RecordOp): Option<Error> {
    match op
    case Append(attempt) =>
      if Label(attempt.id) && Label(attempt.backend) && Label(attempt.executor) then None else Some(InvalidLabel)
    case VerifyInitial(_, logical, materialized, vcs) =>
      if Label(logical) && Label(materialized) && Label(vcs) then None else Some(InvalidLabel)
    case Handoff(_, executionId) => if Label(executionId) then None else Some(InvalidLabel)
    case ObserveTask(taskRevision) => if taskRevision > 0 then None else Some(TaskRevisionInvalid)
    case Snapshot(_, logical, materialized) =>
      if Label(logical) && Label(materialized) then None else Some(InvalidLabel)
    case Delegate(_, task) => if Label(task) then None else Some(InvalidLabel)
    case _ => None
  }

  function Read(m: Records, id: string): Outcome {
    if !Label(id) then Err(InvalidLabel)
    else if id !in m then Err(NotFound)
    else Ok(m[id])
  }

  // Write back a changed record under the next revision.
  function Commit(m: Records, id: string, before: ChangeRecord, after: ChangeRecord): Executed {
    if after == before then Executed(m, Ok(before))
    else if before.revision == U64_MAX then Executed(m, Err(RevisionOverflow))
    else
      var written := after.(revision := before.revision + 1);
      Executed(m[id := written], Ok(written))
  }

  function UpdateWith(m: Records, id: string, rev: U64, f: ChangeRecord -> Outcome): Executed {
    match Read(m, id)
    case Err(e) => Executed(m, Err(e))
    case Ok(r) =>
      if r.revision != rev then Executed(m, Err(RevisionConflict))
      else
        match f(r)
        case Err(e) => Executed(m, Err(e))
        case Ok(r') => Commit(m, id, r, r')
  }

  function CreateArgumentError(op: StoreOp): Option<Error>
    requires op.Create?
  {
    if !(Label(op.id) && Label(op.taskId) && OptionalLabel(op.parentTask) && OptionalLabel(op.parentChange)) then
      Some(InvalidLabel)
    else if op.parentChange.Some? && op.base != OnChange(op.parentChange.value) then Some(BaseParentConflict)
    else None
  }

  predicate TaskTaken(m: Records, taskId: string) {
    exists id :: id in m && m[id].taskId == taskId
  }

  predicate WorkspaceTaken(m: Records, id: string, workspace: string) {
    exists other :: other in m && other != id && m[other].workspace == Some(workspace)
  }

  function CreateNamed(scope: Scope, m: Records, op: StoreOp): Executed
    requires op.Create?
  {
    if CreateArgumentError(op).Some? then Executed(m, Err(CreateArgumentError(op).value))
    else if op.base.OnChange? && Read(m, op.base.id).Err? then Executed(m, Err(Read(m, op.base.id).error))
    else if op.parentChange.Some? && Read(m, op.parentChange.value).Err? then
      Executed(m, Err(Read(m, op.parentChange.value).error))
    else if op.id in m then
      var existing := m[op.id];
      if existing.taskId == op.taskId && existing.parentTask == op.parentTask
         && existing.parentChange == op.parentChange && existing.base == op.base
      then Executed(m, Ok(existing))
      else Executed(m, Err(CreationConflict))
    else if TaskTaken(m, op.taskId) then Executed(m, Err(TaskAlreadyOwned))
    else
      var created := NewRecord(scope, op.id, op.taskId, op.parentTask, op.parentChange, op.base);
      Executed(m[op.id := created], Ok(created))
  }

  function BindOf(operation: Uuid, workspace: string): ChangeRecord -> Outcome {
    (r: ChangeRecord) => BindWorkspace(r, operation, workspace)
  }

  function BindManaged(m: Records, id: string, rev: U64, operation: Uuid, workspace: string): Executed {
    if !Label(workspace) then Executed(m, Err(InvalidLabel))
    else if WorkspaceTaken(m, id, workspace) then Executed(m, Err(WorkspaceOwned))
    else UpdateWith(m, id, rev, BindOf(operation, workspace))
  }

  function Execute(scope: Scope, m: Records, op: StoreOp): Executed {
    match op
    case Create(_, _, _, _, _) => CreateNamed(scope, m, op)
    case Bind(id, rev, operation, workspace) => BindManaged(m, id, rev, operation, workspace)
    case Update(id, rev, change) =>
      if ArgumentError(change).Some? then Executed(m, Err(ArgumentError(change).value))
      else UpdateWith(m, id, rev, EffectOf(change))
  }
}
