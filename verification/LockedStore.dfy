// The store object: every method is one critical section, and its contract is
// the corresponding store operation on the records.
module LockedStore {
  import opened Wrappers
  import opened ChangeModel
  import opened DeliveryPlanning
  import opened ChangeStore
  import opened StoreInvariants

  class Store {
    const scope: Scope
    var records: Records

    ghost predicate Valid()
      reads this
    {
      StoreOk(scope, records)
    }

    constructor (scope: Scope)
      ensures Valid() && this.scope == scope && records == map[]
    {
      this.scope := scope;
      records := map[];
      new;
      EmptyStoreOk(scope);
    }

    // In a valid store reading succeeds exactly for the Changes it holds, and
    // what comes back is that Change's own record, of this scope.
    method Get(id: string) returns (res: Outcome)
      ensures res == Read(records, id)
      ensures Valid() ==> (res.Ok? <==> id in records)
      ensures Valid() && res.Ok? ==> res.value.changeId == id && res.value.scope == scope
    {
      if !Label(id) {
        return Err(InvalidLabel);
      }
      if id !in records {
        return Err(NotFound);
      }
      res := Ok(records[id]);
    }

    // Read, compare the revision, run the closure, and write back a changed
    // record under the next revision.
    method Update(id: string, expected: U64, f: ChangeRecord -> Outcome) returns (res: Outcome)
      modifies this
      ensures Executed(records, res) == UpdateWith(old(records), id, expected, f)
    {
      var before :- Get(id);
      if before.revision != expected {
        return Err(RevisionConflict);
      }
      var after :- f(before);
      if after == before {
        return Ok(before);
      }
      if before.revision == U64_MAX {
        return Err(RevisionOverflow);
      }
      after := after.(revision := before.revision + 1);
      records := records[id := after];
      res := Ok(after);
    }

    method UpdateRecord(id: string, expected: U64, change: RecordOp) returns (res: Outcome)
      requires Valid() && ArgumentError(change).None?
      modifies this
      ensures Valid() && StoreAdvances(old(records), records)
      ensures Executed(records, res) == Execute(scope, old(records), ChangeStore.Update(id, expected, change))
    {
      UpdateKeepsStoreOk(scope, records, id, expected, change);
      res := Update(id, expected, EffectOf(change));
    }

    method CreateNamed(id: string, taskId: string, parentTask: Option<string>, parentChange: Option<string>, base: Base)
      returns (res: Outcome)
      requires Valid()
      modifies this
      ensures Valid() && StoreAdvances(old(records), records)
      ensures Executed(records, res)
              == Execute(scope, old(records), Create(id, taskId, parentTask, parentChange, base))
    {
      CreateKeepsStoreOk(scope, records, Create(id, taskId, parentTask, parentChange, base));
      if !Label(id) || !Label(taskId) || !OptionalLabel(parentTask) || !OptionalLabel(parentChange) {
        return Err(InvalidLabel);
      }
      if parentChange.Some? && base != OnChange(parentChange.value) {
        return Err(BaseParentConflict);
      }
      if base.OnChange? {
        var _ :- Get(base.id);
      }
      if parentChange.Some? {
        var parent := Get(parentChange.value);
        if parent.Err? {
          return parent;
        }
      }
      if id in records {
        var existing := records[id];
        if existing.taskId != taskId || existing.parentTask != parentTask
           || existing.parentChange != parentChange || existing.base != base {
          return Err(CreationConflict);
        }
        return Ok(existing);
      }
      if TaskTaken(records, taskId) {
        return Err(TaskAlreadyOwned);
      }
      var record := NewRecord(scope, id, taskId, parentTask, parentChange, base);
      records := records[id := record];
      res := Ok(record);
    }

    method AllocationIntent(id: string, rev: U64, operation: Uuid) returns (res: Outcome)
      requires Valid()
      modifies this
      ensures Valid() && StoreAdvances(old(records), records)
      ensures Executed(records, res) == Execute(scope, old(records), ChangeStore.Update(id, rev, Allocate(operation)))
    {
      res := UpdateRecord(id, rev, Allocate(operation));
    }

    // Bind the workspace named by the accepted provisioning receipt, unless
    // another Change owns it.
    method BindManagedWorkspace(id: string, rev: U64, operation: Uuid, workspace: string) returns (res: Outcome)
      requires Valid()
      modifies this
      ensures Valid() && StoreAdvances(old(records), records)
      ensures Executed(records, res) == Execute(scope, old(records), Bind(id, rev, operation, workspace))
    {
      BindKeepsStoreOk(scope, records, id, rev, operation, workspace);
      res := BindLocked(id, rev, operation, workspace);
    }

    method BindLocked(id: string, rev: U64, operation: Uuid, workspace: string) returns (res: Outcome)
      modifies this
      ensures Executed(records, res) == BindManaged(old(records), id, rev, operation, workspace)
    {
      if !Label(workspace) {
        return Err(InvalidLabel);
      }
      if WorkspaceTaken(records, id, workspace) {
        return Err(WorkspaceOwned);
      }
      var record :- Get(id);
      if record.revision != rev {
        return Err(RevisionConflict);
      }
      if record.allocation != Some(operation) {
        return Err(AllocationConflict);
      }
      if record.workspace.Some? {
        if record.workspace != Some(workspace) {
          return Err(WorkspaceConflict);
        }
        if record.provisioning != Some(operation) {
          return Err(ProvisioningConflict);
        }
        return Ok(record);
      }
      if !record.allocationPending {
        return Err(NoAllocationIntent);
      }
      if record.revision == U64_MAX {
        return Err(RevisionOverflow);
      }
      record := record.(workspace := Some(workspace), provisioning := Some(operation),
                        allocationPending := false, revision := record.revision + 1);
      records := records[id := record];
      res := Ok(record);
    }

    method AppendExecution(id: string, rev: U64, attempt: Execution) returns (res: Outcome)
      requires Valid()
      modifies this
      ensures Valid() && StoreAdvances(old(records), records)
      ensures Executed(records, res) == Execute(scope, old(records), ChangeStore.Update(id, rev, Append(attempt)))
    {
      if !Label(attempt.id) || !Label(attempt.backend) || !Label(attempt.executor) {
        StoreAdvancesIsReflexive(records);
        return Err(InvalidLabel);
      }
      res := UpdateRecord(id, rev, Append(attempt));
    }

    method ReserveInitialStart(id: string, rev: U64, start: InitialStart) returns (res: Outcome)
      requires Valid()
      modifies this
      ensures Valid() && StoreAdvances(old(records), records)
      ensures Executed(records, res) == Execute(scope, old(records), ChangeStore.Update(id, rev, Reserve(start)))
    {
      res := UpdateRecord(id, rev, Reserve(start));
    }

    method MarkInitialSnapshotAttempt(id: string, rev: U64, snapshot: Uuid) returns (res: Outcome)
      requires Valid()
      modifies this
      ensures Valid() && StoreAdvances(old(records), records)
      ensures Executed(records, res) == Execute(scope, old(records), ChangeStore.Update(id, rev, MarkAttempt(snapshot)))
    {
      res := UpdateRecord(id, rev, MarkAttempt(snapshot));
    }

    method VerifyInitialSnapshot(id: string, rev: U64, snapshot: Uuid, logical: string,
                                 materialized: string, vcsOperation: string) returns (res: Outcome)
      requires Valid()
      modifies this
      ensures Valid() && StoreAdvances(old(records), records)
      ensures Executed(records, res) == Execute(scope, old(records),
                ChangeStore.Update(id, rev, VerifyInitial(snapshot, logical, materialized, vcsOperation)))
    {
      if !Label(logical) || !Label(materialized) || !Label(vcsOperation) {
        StoreAdvancesIsReflexive(records);
        return Err(InvalidLabel);
      }
      res := UpdateRecord(id, rev, VerifyInitial(snapshot, logical, materialized, vcsOperation));
    }

    method HandoffWriter(id: string, rev: U64, previous: Option<Lease>, executionId: string) returns (res: Outcome)
      requires Valid()
      modifies this
      ensures Valid() && StoreAdvances(old(records), records)
      ensures Executed(records, res)
              == Execute(scope, old(records), ChangeStore.Update(id, rev, Handoff(previous, executionId)))
    {
      if !Label(executionId) {
        StoreAdvancesIsReflexive(records);
        return Err(InvalidLabel);
      }
      res := UpdateRecord(id, rev, Handoff(previous, executionId));
    }

    method ReleaseWriter(id: string, rev: U64, expected: Lease) returns (res: Outcome)
      requires Valid()
      modifies this
      ensures Valid() && StoreAdvances(old(records), records)
      ensures Executed(records, res) == Execute(scope, old(records), ChangeStore.Update(id, rev, Release(expected)))
    {
      res := UpdateRecord(id, rev, Release(expected));
    }

    method ObserveTaskRevision(id: string, rev: U64, taskRevision: U64) returns (res: Outcome)
      requires Valid()
      modifies this
      ensures Valid() && StoreAdvances(old(records), records)
      ensures Executed(records, res)
              == Execute(scope, old(records), ChangeStore.Update(id, rev, ObserveTask(taskRevision)))
    {
      if taskRevision == 0 {
        StoreAdvancesIsReflexive(records);
        return Err(TaskRevisionInvalid);
      }
      res := UpdateRecord(id, rev, ObserveTask(taskRevision));
    }

    method ObserveSnapshot(id: string, rev: U64, snapshot: Uuid, logical: string, materialized: string)
      returns (res: Outcome)
      requires Valid()
      modifies this
      ensures Valid() && StoreAdvances(old(records), records)
      ensures Executed(records, res)
              == Execute(scope, old(records), ChangeStore.Update(id, rev, Snapshot(snapshot, logical, materialized)))
    {
      if !Label(logical) || !Label(materialized) {
        StoreAdvancesIsReflexive(records);
        return Err(InvalidLabel);
      }
      res := UpdateRecord(id, rev, Snapshot(snapshot, logical, materialized));
    }

    method Verify(id: string, rev: U64, materialized: string, passed: bool) returns (res: Outcome)
      requires Valid()
      modifies this
      ensures Valid() && StoreAdvances(old(records), records)
      ensures Executed(records, res)
              == Execute(scope, old(records), ChangeStore.Update(id, rev, Stamp(materialized, passed)))
    {
      res := UpdateRecord(id, rev, Stamp(materialized, passed));
    }

    // A Change may be released when nothing is pending, written or in delivery.
    method ReleaseReady(id: string) returns (res: Result<bool, Error>)
      ensures res.Ok? <==> Read(records, id).Ok?
      ensures res.Ok? ==> res.value == Releasable(records[id])
    {
      var r :- Get(id);
      res := Ok(!r.allocationPending && r.writer.None? && (r.delivery.None? || r.delivery.value.state == Completed));
    }
  }
}
