// What each operation on one record is for, in the fields of the record: when it
// is accepted, what an accepted one leaves, and that nothing else moves.
module OperationEffects {
  import opened Wrappers
  import opened ChangeModel
  import opened DeliveryPlanning
  import opened ChangeStore
  import opened StoreInvariants

  // The operation is accepted exactly for a well-formed identity, at the current
  // revision, when `allowed`, and with a revision left if it has something to
  // write. Then the record is `after`, under the next revision if that is new,
  // and no other record moves. A refused operation moves nothing.
  predicate Behaves(scope: Scope, m: Records, id: string, rev: U64, op: RecordOp, allowed: bool, after: ChangeRecord)
    requires id in m
  {
    var e := Execute(scope, m, Update(id, rev, op));
    && (e.result.Ok? <==> Label(id) && m[id].revision == rev && allowed && (after == m[id] || rev < U64_MAX))
    && (e.result.Ok? && after == m[id] ==> e.result.value == m[id] && e.records == m)
    && (e.result.Ok? && after != m[id] ==>
          e.result.value == after.(revision := rev + 1) && e.records == m[id := e.result.value])
    && (e.result.Err? ==> e.records == m)
  }

  lemma UnknownChangeIsRefused(scope: Scope, m: Records, id: string, rev: U64, op: RecordOp)
    requires id !in m
    ensures var e := Execute(scope, m, Update(id, rev, op)); e.result.Err? && e.records == m
  {
  }

  // At most 128 ASCII letters, digits, hyphens, full stops and underscores.
  lemma LabelsAre(s: string)
    ensures Label(s) <==> 1 <= |s| <= 128 && forall i :: 0 <= i < |s| ==>
                            var c := s[i] as int;
                            65 <= c <= 90 || 97 <= c <= 122 || 48 <= c <= 57 || c == 45 || c == 46 || c == 95
  {
  }

  // ----- creation and binding -----

  // A new Change is created exactly when its labels are legal, its base exists
  // and agrees with a parent Change, and nobody else has its task.
  lemma ChangeIsCreated(scope: Scope, m: Records, id: string, taskId: string, parentTask: Option<string>,
                        parentChange: Option<string>, base: Base)
    requires id !in m
    ensures var e := Execute(scope, m, Create(id, taskId, parentTask, parentChange, base));
            && (e.result.Ok? <==>
                && Label(id) && Label(taskId) && (parentTask.Some? ==> Label(parentTask.value))
                && (parentChange.Some? ==> Label(parentChange.value) && base == OnChange(parentChange.value))
                && (base.OnChange? ==> Label(base.id) && base.id in m)
                && forall other :: other in m ==> m[other].taskId != taskId)
            && (e.result.Ok? ==>
                  && e.records == m[id := e.result.value]
                  && e.result.value == ChangeRecord(id, scope, taskId, parentTask, parentChange, base, None, None, None, false,
                                                    [], None, None, 0, None, None, None, 0, None, None, 1))
            && (e.result.Err? ==> e.records == m)
  {
  }

  // Creating a Change that exists is answered with its record when the request
  // is the same.
  lemma CreationIsReplayed(scope: Scope, m: Records, id: string, taskId: string, parentTask: Option<string>,
                           parentChange: Option<string>, base: Base)
    requires id in m
    ensures var e := Execute(scope, m, Create(id, taskId, parentTask, parentChange, base));
            && e.records == m && (e.result.Ok? ==> e.result.value == m[id])
            && (e.result.Ok? <==>
                && Label(id) && Label(taskId) && (parentTask.Some? ==> Label(parentTask.value))
                && (parentChange.Some? ==> Label(parentChange.value) && base == OnChange(parentChange.value))
                && (base.OnChange? ==> Label(base.id) && base.id in m)
                && m[id].taskId == taskId && m[id].parentTask == parentTask
                && m[id].parentChange == parentChange && m[id].base == base)
  {
  }

  // A workspace that no other Change has is bound for the recorded intent; a
  // bound one is only ever answered again.
  lemma WorkspaceIsBound(scope: Scope, m: Records, id: string, rev: U64, operation: Uuid, workspace: string)
    requires id in m
    ensures var r, e := m[id], Execute(scope, m, Bind(id, rev, operation, workspace));
            && (e.result.Ok? <==>
                && Label(id) && Label(workspace) && r.revision == rev && r.allocation == Some(operation)
                && (forall other :: other in m && other != id ==> m[other].workspace != Some(workspace))
                && (if r.workspace.Some? then r.workspace == Some(workspace) && r.provisioning == Some(operation)
                    else r.allocationPending && rev < U64_MAX))
            && (e.result.Ok? && r.workspace.Some? ==> e.result.value == r && e.records == m)
            && (e.result.Ok? && r.workspace.None? ==>
                  && e.records == m[id := e.result.value]
                  && e.result.value == r.(workspace := Some(workspace), provisioning := Some(operation),
                                          allocationPending := false, revision := rev + 1))
            && (e.result.Err? ==> e.records == m)
  {
  }

  // ----- allocation, execution history, writer lease -----

  lemma AllocationIsRecorded(scope: Scope, m: Records, id: string, rev: U64, operation: Uuid)
    requires id in m
    ensures var r := m[id];
            Behaves(scope, m, id, rev, Allocate(operation),
                    r.workspace.None? && (r.allocation.None? || r.allocation == Some(operation)),
                    r.(allocation := Some(operation), allocationPending := true))
  {
  }

  // The first attempt recorded under an identity decides a repetition.
  predicate FirstUnder(s: seq<Execution>, k: nat, id: string) {
    k < |s| && s[k].id == id && forall j :: 0 <= j < k ==> s[j].id != id
  }

  lemma {:induction false} FindExecutionFindsFirst(s: seq<Execution>, id: string, k: nat)
    requires FirstUnder(s, k, id)
    ensures FindExecution(s, id) == Some(s[k])
  {
    if k > 0 {
      assert FirstUnder(s[1..], k - 1, id);
      FindExecutionFindsFirst(s[1..], id, k - 1);
    }
  }

  predicate AttemptLabelled(attempt: Execution) {
    Label(attempt.id) && Label(attempt.backend) && Label(attempt.executor)
  }

  lemma RecordedAttemptIsReplayed(scope: Scope, m: Records, id: string, rev: U64, attempt: Execution, k: nat)
    requires id in m && FirstUnder(m[id].executions, k, attempt.id)
    ensures var r := m[id];
            Behaves(scope, m, id, rev, Append(attempt),
                    AttemptLabelled(attempt) && r.workspace.Some? && !r.allocationPending && r.executions[k] == attempt, r)
  {
    FindExecutionFindsFirst(m[id].executions, attempt.id, k);
  }

  lemma NewAttemptIsAppended(scope: Scope, m: Records, id: string, rev: U64, attempt: Execution)
    requires id in m && forall e :: e in m[id].executions ==> e.id != attempt.id
    ensures var r := m[id];
            Behaves(scope, m, id, rev, Append(attempt),
                    && AttemptLabelled(attempt) && r.workspace.Some? && !r.allocationPending && |r.executions| < 128
                    && (|r.executions| > 0 ==> attempt.generation > r.executions[|r.executions| - 1].generation),
                    r.(executions := r.executions + [attempt]))
  {
    assert FindExecution(m[id].executions, attempt.id).None?;
    assert m[id].executions + [attempt] != m[id].executions;
  }

  lemma LeaseIsGranted(scope: Scope, m: Records, id: string, rev: U64, previous: Option<Lease>, executionId: string)
    requires id in m
    ensures var r := m[id];
            Behaves(scope, m, id, rev, Handoff(previous, executionId),
                    && Label(executionId) && r.workspace.Some? && !r.allocationPending
                    && |r.executions| > 0 && r.executions[|r.executions| - 1].id == executionId
                    && previous.None? && r.writer.None? && r.writerGeneration < U64_MAX,
                    if r.writerGeneration < U64_MAX then
                      r.(writer := Some(Lease(executionId, r.writerGeneration + 1)),
                         writerGeneration := r.writerGeneration + 1)
                    else r)
  {
  }

  lemma LeaseIsReleased(scope: Scope, m: Records, id: string, rev: U64, lease: Lease)
    requires id in m
    ensures var r := m[id];
            Behaves(scope, m, id, rev, Release(lease), r.writer == Some(lease), r.(writer := None))
  {
  }

  // An accepted release leaves the record as it was, without the writer.
  lemma AfterRelease(scope: Scope, m: Records, id: string, rev: U64, lease: Lease)
    requires id in m && Execute(scope, m, Update(id, rev, Release(lease))).result.Ok?
    ensures Label(id) && m[id].writer == Some(lease) && m[id].revision == rev < U64_MAX
    ensures Execute(scope, m, Update(id, rev, Release(lease))).records == m[id := m[id].(writer := None, revision := rev + 1)]
  {
    LeaseIsReleased(scope, m, id, rev, lease);
  }

  lemma HolderHasHistory(scope: Scope, m: Records, id: string)
    requires StoreOk(scope, m) && id in m && m[id].writer.Some?
    ensures |m[id].executions| > 0 && m[id].workspace.Some? && !m[id].allocationPending
  {
    assert RecordOk(m[id]);
  }

  lemma FreeLeaseIsGranted(scope: Scope, m: Records, id: string, rev: U64, r: ChangeRecord)
    requires Label(id) && id in m && m[id] == r && r.revision == rev < U64_MAX && r.writerGeneration < U64_MAX
    requires |r.executions| > 0 && r.workspace.Some? && !r.allocationPending && r.writer.None?
    ensures var executionId := r.executions[|r.executions| - 1].id;
            && var e := Execute(scope, m, Update(id, rev, Handoff(None, executionId)));
            && (e.result.Ok? <==> Label(executionId))
            && (e.result.Ok? ==>
                  e.result.value == r.(writer := Some(Lease(executionId, r.writerGeneration + 1)),
                                       writerGeneration := r.writerGeneration + 1, revision := rev + 1))
  {
    LeaseIsGranted(scope, m, id, rev, None, r.executions[|r.executions| - 1].id);
  }

  // A release makes way: the last execution, whose identity is a label, can be
  // given the lease again while generation and revision can be raised.
  lemma ReleaseMakesWay(scope: Scope, m: Records, id: string, rev: U64, lease: Lease)
    requires StoreOk(scope, m) && id in m && Execute(scope, m, Update(id, rev, Release(lease))).result.Ok?
    requires m[id].writerGeneration < U64_MAX && rev + 1 < U64_MAX
    ensures var r := m[id];
            && |r.executions| > 0
            && var executionId := r.executions[|r.executions| - 1].id;
            && var n := Execute(scope, m, Update(id, rev, Release(lease))).records;
            && var e := Execute(scope, n, Update(id, rev + 1, Handoff(None, executionId)));
            && (e.result.Ok? <==> Label(executionId))
            && (e.result.Ok? ==>
                  e.result.value == r.(writer := Some(Lease(executionId, r.writerGeneration + 1)),
                                       writerGeneration := r.writerGeneration + 1, revision := rev + 2))
  {
    AfterRelease(scope, m, id, rev, lease);
    HolderHasHistory(scope, m, id);
    var r := m[id].(writer := None, revision := rev + 1);
    FreeLeaseIsGranted(scope, m[id := r], id, rev + 1, r);
  }

  // ----- first start -----

  lemma StartIsReserved(scope: Scope, m: Records, id: string, rev: U64, start: InitialStart)
    requires id in m
    ensures var r := m[id];
            Behaves(scope, m, id, rev, Reserve(start),
                    && r.workspace.Some? && !r.allocationPending
                    && (match r.initialStart
                        case None => r.executions == [] && r.writer.None?
                        case Some(s) =>
                          && s.operation == start.operation && s.fingerprint == start.fingerprint
                          && s.snapshotOperation == start.snapshotOperation && s.executionId == start.executionId),
                    if r.initialStart.None? then r.(initialStart := Some(start)) else r)
  {
  }

  lemma AttemptIsMarked(scope: Scope, m: Records, id: string, rev: U64, snapshot: Uuid)
    requires id in m
    ensures var r := m[id];
            Behaves(scope, m, id, rev, MarkAttempt(snapshot),
                    && r.initialStart.Some? && r.initialStart.value.snapshotOperation == snapshot
                    && !r.initialStart.value.verified && r.executions == [] && r.writer.None?,
                    if r.initialStart.Some? then r.(initialStart := Some(r.initialStart.value.(dispatched := true)))
                    else r)
  {
  }

  lemma ImportIsRecorded(scope: Scope, m: Records, id: string, rev: U64, snapshot: Uuid, logical: string,
                         materialized: string, vcs: string)
    requires id in m
    ensures var r := m[id];
            var s := r.initialStart;
            Behaves(scope, m, id, rev, VerifyInitial(snapshot, logical, materialized, vcs),
                    && Label(logical) && Label(materialized) && Label(vcs)
                    && s.Some? && s.value.snapshotOperation == snapshot && s.value.dispatched
                    && (if s.value.verified then
                          r.logical == Some(logical) && r.materialized == Some(materialized) && s.value.vcsOperation == Some(vcs)
                        else r.executions == [] && r.writer.None?),
                    if s.Some? && !s.value.verified then
                      r.(initialStart := Some(s.value.(verified := true, vcsOperation := Some(vcs))),
                         logical := Some(logical), materialized := Some(materialized), latestSnapshot := Some(snapshot))
                    else r)
  {
  }

  // ----- observation and verification -----

  lemma TaskRevisionIsObserved(scope: Scope, m: Records, id: string, rev: U64, taskRevision: U64)
    requires id in m
    ensures var r := m[id];
            Behaves(scope, m, id, rev, ObserveTask(taskRevision),
                    taskRevision > 0 && taskRevision >= r.taskRevision,
                    if taskRevision == r.taskRevision then r else r.(taskRevision := taskRevision, verification := None))
  {
  }

  lemma SnapshotIsObserved(scope: Scope, m: Records, id: string, rev: U64, snapshot: Uuid, logical: string,
                           materialized: string)
    requires id in m
    ensures var r := m[id];
            Behaves(scope, m, id, rev, Snapshot(snapshot, logical, materialized),
                    Label(logical) && Label(materialized) && (r.logical.None? || r.logical == Some(logical)),
                    r.(logical := Some(logical), materialized := Some(materialized), latestSnapshot := Some(snapshot),
                       verification := if r.materialized == Some(materialized) && r.latestSnapshot == Some(snapshot)
                                       then r.verification else None))
  {
  }

  lemma VerificationIsStamped(scope: Scope, m: Records, id: string, rev: U64, materialized: string, passed: bool)
    requires id in m
    ensures var r := m[id];
            var replayed := && r.verification.Some? && r.verification.value.revision == materialized
                            && r.verification.value.passed == passed;
            Behaves(scope, m, id, rev, Stamp(materialized, passed),
                    r.materialized == Some(materialized) && r.taskRevision > 0 && (replayed || rev < U64_MAX),
                    if replayed || rev == U64_MAX then r
                    else r.(verification := Some(Verification(materialized, rev + 1, r.taskRevision, passed))))
  {
  }

  // ----- delivery -----

  lemma ClaimIsRecorded(scope: Scope, m: Records, id: string, rev: U64, operation: Uuid, fingerprint: Fingerprint)
    requires id in m
    ensures var receipt := DeliveryReceipt(operation, fingerprint, Accepted, None, None, None, None, None);
            Behaves(scope, m, id, rev, Claim(operation, fingerprint), true, m[id].(delivery := Some(receipt)))
  {
  }

  lemma DelegationIsRecorded(scope: Scope, m: Records, id: string, rev: U64, operation: Uuid, task: string)
    requires id in m
    ensures var r := m[id];
            var d := r.delivery;
            Behaves(scope, m, id, rev, Delegate(operation, task),
                    && Label(task) && d.Some? && d.value.operation == operation
                    && (d.value.delegatedTask.None? || d.value.delegatedTask == Some(task)),
                    if d.None? || d.value.state == Completed then r
                    else r.(delivery := Some(d.value.(delegatedTask := Some(task), state := Delegated))))
  {
  }

  lemma ObservationIsPrepared(scope: Scope, m: Records, id: string, rev: U64, operation: Uuid, observation: Uuid)
    requires id in m
    ensures var r := m[id];
            var d := r.delivery;
            Behaves(scope, m, id, rev, PrepareObserver(operation, observation),
                    d.Some? && d.value.operation == operation,
                    if d.None? then r else r.(delivery := Some(d.value.(observationOperation := Some(observation)))))
  {
  }

  lemma ObservationTaskIsRecorded(scope: Scope, m: Records, id: string, rev: U64, operation: Uuid, observation: Uuid,
                                  task: string)
    requires id in m
    ensures var r := m[id];
            var d := r.delivery;
            Behaves(scope, m, id, rev, RecordObserver(operation, observation, task),
                    && d.Some? && d.value.operation == operation && d.value.observationOperation == Some(observation)
                    && (d.value.observationTask.None? || d.value.observationTask == Some(task)),
                    if d.None? then r else r.(delivery := Some(d.value.(observationTask := Some(task)))))
  {
  }

  // ----- settling a delivery -----

  // The branch is at the revision of the step, and the pull request is the one
  // the step asks for, stacked on the parent's number.
  predicate SeenAsAsked(step: DeliveryStep, parent: Option<U64>, seen: Observation) {
    && seen.branchRevision == Some(step.revision)
    && seen.pullRequest.Some?
    && var pr := seen.pullRequest.value;
    && pr.number >= 1
    && pr.headRef == step.headRef && pr.baseRef == step.baseRef && pr.revision == step.revision
    && |pr.url| >= 8 && pr.url[..8] == "https://"
    && pr.stackLinked == (step.how == StackedPr)
    && pr.stackParent == (if step.how == StackedPr then parent else None)
  }

  // The first step for a Change is the one that counts.
  predicate FirstFor(steps: seq<DeliveryStep>, k: nat, id: string) {
    k < |steps| && steps[k].changeId == id && forall j :: 0 <= j < k ==> steps[j].changeId != id
  }

  lemma {:induction false} StepOfIsFirst(steps: seq<DeliveryStep>, id: string, k: nat)
    requires FirstFor(steps, k, id)
    ensures StepOf(steps, id) == Some(steps[k])
  {
    if k > 0 {
      assert FirstFor(steps[1..], k - 1, id);
      StepOfIsFirst(steps[1..], id, k - 1);
    }
  }

  // What an observation makes of a receipt. An accepted one is completed if and
  // only if what was seen is what was asked for, and waits for reconciliation
  // otherwise, even when it was completed before. It is refused only when
  // another pull request is on record.
  function ReceiptAfter(d: DeliveryReceipt, step: DeliveryStep, parent: Option<U64>, seen: Observation): DeliveryReceipt {
    var asAsked := SeenAsAsked(step, parent, seen);
    d.(state := if asAsked then Completed else ReconciliationRequired,
       branchRevision := if seen.branchRevision == Some(step.revision) then seen.branchRevision else d.branchRevision,
       pullRequest := if asAsked then seen.pullRequest else d.pullRequest)
  }

  predicate OtherPullRequest(d: DeliveryReceipt, step: DeliveryStep, parent: Option<U64>, seen: Observation) {
    SeenAsAsked(step, parent, seen) && d.pullRequest.Some? && d.pullRequest != seen.pullRequest
  }

  lemma ReceiptIsSettled(d: DeliveryReceipt, step: DeliveryStep, parent: Option<U64>, seen: Observation)
    ensures ReconcileReceipt(d, step, parent, seen)
            == if OtherPullRequest(d, step, parent, seen) then Err(ConflictingPr)
               else Ok(ReceiptAfter(d, step, parent, seen))
  {
    if seen.pullRequest.Some? {
      UrlIsHttps(seen.pullRequest.value.url);
    }
  }

  lemma UrlIsHttps(url: string)
    ensures HttpsUrl(url) <==> |url| >= 8 && url[..8] == "https://"
  {
  }

  lemma DeliveryIsSettled(scope: Scope, m: Records, id: string, rev: U64, plan: DeliveryPlan, k: nat,
                          parent: Option<U64>, operation: Uuid, seen: Observation)
    requires id in m && m[id].changeId == id && FirstFor(plan.steps, k, id)
    ensures var r, d, step := m[id], m[id].delivery, plan.steps[k];
            Behaves(scope, m, id, rev, Settle(plan, parent, operation, seen),
                    && d.Some? && d.value.operation == operation && d.value.fingerprint == plan.fingerprint
                    && r.materialized == Some(step.revision)
                    && !(SeenAsAsked(step, parent, seen) && d.value.pullRequest.Some?
                         && d.value.pullRequest != seen.pullRequest),
                    if d.None? then r else r.(delivery := Some(ReceiptAfter(d.value, step, parent, seen))))
  {
    var r, step := m[id], plan.steps[k];
    StepOfIsFirst(plan.steps, id, k);
    if r.delivery.Some? {
      ReceiptIsSettled(r.delivery.value, step, parent, seen);
    }
    SettleBehaves(scope, m, id, rev, plan, parent, operation, seen, step);
  }

  lemma SettleBehaves(scope: Scope, m: Records, id: string, rev: U64, plan: DeliveryPlan, parent: Option<U64>,
                      operation: Uuid, seen: Observation, step: DeliveryStep)
    requires id in m && m[id].changeId == id && StepOf(plan.steps, id) == Some(step)
    requires m[id].delivery.Some? ==>
               ReconcileReceipt(m[id].delivery.value, step, parent, seen)
               == if OtherPullRequest(m[id].delivery.value, step, parent, seen) then Err(ConflictingPr)
                  else Ok(ReceiptAfter(m[id].delivery.value, step, parent, seen))
    ensures var r, d := m[id], m[id].delivery;
            Behaves(scope, m, id, rev, Settle(plan, parent, operation, seen),
                    && d.Some? && d.value.operation == operation && d.value.fingerprint == plan.fingerprint
                    && r.materialized == Some(step.revision) && !OtherPullRequest(d.value, step, parent, seen),
                    if d.None? then r else r.(delivery := Some(ReceiptAfter(d.value, step, parent, seen))))
  {
  }

  lemma UnplannedDeliveryIsNotSettled(scope: Scope, m: Records, id: string, rev: U64, plan: DeliveryPlan,
                                      parent: Option<U64>, operation: Uuid, seen: Observation)
    requires id in m && m[id].changeId == id && forall step :: step in plan.steps ==> step.changeId != id
    ensures var e := Execute(scope, m, Update(id, rev, Settle(plan, parent, operation, seen)));
            e.result.Err? && e.records == m
  {
    assert StepOf(plan.steps, id).None?;
  }
}
