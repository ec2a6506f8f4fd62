// What every locked operation keeps, for one record and for the whole store.
module StoreInvariants {
  import opened Wrappers
  import opened ChangeModel
  import opened DeliveryPlanning
  import opened DeliveryPlanTheorems
  import opened ChangeStore
  import opened Forest

  // ----- one record -----

  ghost predicate HistoryOk(s: seq<Execution>) {
    && |s| <= MAX_EXECUTIONS
    && (forall i, j :: 0 <= i < j < |s| ==> s[i].generation < s[j].generation && s[i].id != s[j].id)
  }

  ghost predicate HolderKnown(r: ChangeRecord) {
    r.writer.Some? ==>
      && r.writer.value.generation == r.writerGeneration
      && exists k :: 0 <= k < |r.executions| && r.executions[k].id == r.writer.value.executionId
  }

  predicate AllocationOk(r: ChangeRecord) {
    if r.workspace.Some? then
      !r.allocationPending && r.allocation.Some? && r.provisioning == r.allocation
    else
      && r.provisioning.None? && (r.allocationPending <==> r.allocation.Some?)
      && r.executions == [] && r.initialStart.None?
  }

  ghost predicate RecordOk(r: ChangeRecord) {
    HistoryOk(r.executions) && HolderKnown(r) && AllocationOk(r)
  }

  // The permanent part of a delivery receipt.
  predicate ReceiptAdvances(a: Option<DeliveryReceipt>, b: Option<DeliveryReceipt>) {
    a.Some? ==>
      && b.Some?
      && b.value.operation == a.value.operation
      && b.value.fingerprint == a.value.fingerprint
      && (a.value.pullRequest.Some? ==> b.value.pullRequest == a.value.pullRequest)
      && (a.value.branchRevision.Some? ==> b.value.branchRevision.Some?)
      && (a.value.observationOperation.Some? ==> b.value.observationOperation.Some?)
      && (a.value.delegatedTask.Some? ==> b.value.delegatedTask == a.value.delegatedTask)
      && (a.value.observationTask.Some? ==> b.value.observationTask == a.value.observationTask)
  }

  predicate StartAdvances(a: Option<InitialStart>, b: Option<InitialStart>) {
    a.Some? ==>
      && b.Some?
      && a.value.SameRequest(b.value)
      && (a.value.dispatched ==> b.value.dispatched)
      && (a.value.verified ==> b.value.verified && b.value.vcsOperation == a.value.vcsOperation)
  }

  // A later lease is the same lease or carries a generation never granted before.
  predicate LeaseAdvances(a: ChangeRecord, b: ChangeRecord) {
    && a.writerGeneration <= b.writerGeneration
    && (b.writer.Some? ==> b.writer == a.writer || b.writer.value.generation > a.writerGeneration)
  }

  predicate SameIdentity(a: ChangeRecord, b: ChangeRecord) {
    && a.changeId == b.changeId && a.scope == b.scope && a.taskId == b.taskId
    && a.parentTask == b.parentTask && a.parentChange == b.parentChange && a.base == b.base
  }

  predicate BindingAdvances(a: ChangeRecord, b: ChangeRecord) {
    && (a.allocation.Some? ==> b.allocation == a.allocation)
    && (a.workspace.Some? ==> b.workspace == a.workspace && b.provisioning == a.provisioning)
  }

  // Everything about a record that only ever moves forward.
  predicate Forward(a: ChangeRecord, b: ChangeRecord) {
    && SameIdentity(a, b)
    && a.executions <= b.executions
    && a.taskRevision <= b.taskRevision
    && LeaseAdvances(a, b)
    && BindingAdvances(a, b)
    && StartAdvances(a.initialStart, b.initialStart)
  }

  // A revision number names one state of the record.
  predicate Advances(a: ChangeRecord, b: ChangeRecord) {
    Forward(a, b) && a.revision <= b.revision && (a.revision == b.revision ==> a == b)
  }

  lemma AppendKeepsHistory(s: seq<Execution>, attempt: Execution)
    requires HistoryOk(s) && FindExecution(s, attempt.id).None? && |s| < MAX_EXECUTIONS
    requires |s| > 0 ==> s[|s| - 1].generation < attempt.generation
    ensures HistoryOk(s + [attempt])
  {
    var t := s + [attempt];
    forall i, j | 0 <= i < j < |t| ensures t[i].generation < t[j].generation && t[i].id != t[j].id {
      if j == |s| {
        assert s[i] in s;
        assert i < |s| - 1 ==> s[i].generation < s[|s| - 1].generation;
      } else {
        assert t[i] == s[i] && t[j] == s[j];
      }
    }
  }

  lemma AppendKeepsRecordOk(r: ChangeRecord, attempt: Execution)
    requires RecordOk(r) && AppendExecution(r, attempt).Ok?
    ensures RecordOk(AppendExecution(r, attempt).value)
  {
    var r' := AppendExecution(r, attempt).value;
    if r' != r {
      AppendKeepsHistory(r.executions, attempt);
      if r.writer.Some? {
        var k :| 0 <= k < |r.executions| && r.executions[k].id == r.writer.value.executionId;
        assert r'.executions[k] == r.executions[k];
      }
    }
  }

  lemma EffectKeepsRecordOk(op: RecordOp, r: ChangeRecord)
    requires RecordOk(r) && Effect(op, r).Ok?
    ensures RecordOk(Effect(op, r).value)
  {
    match op
    case Append(attempt) => AppendKeepsRecordOk(r, attempt);
    case Handoff(_, executionId) =>
      var r' := Effect(op, r).value;
      assert r'.executions[|r'.executions| - 1].id == executionId;
    case _ => OtherEffectKeepsRecordOk(op, r);
  }

  lemma OtherEffectKeepsRecordOk(op: RecordOp, r: ChangeRecord)
    requires !op.Append? && !op.Handoff?
    requires RecordOk(r) && Effect(op, r).Ok?
    ensures RecordOk(Effect(op, r).value)
  {
  }

  lemma EffectKeepsIdentity(op: RecordOp, r: ChangeRecord)
    requires Effect(op, r).Ok?
    ensures SameIdentity(r, Effect(op, r).value)
    ensures r.revision == Effect(op, r).value.revision
  {
  }

  lemma EffectAdvancesHistory(op: RecordOp, r: ChangeRecord)
    requires RecordOk(r) && Effect(op, r).Ok?
    ensures r.executions <= Effect(op, r).value.executions
    ensures r.taskRevision <= Effect(op, r).value.taskRevision
    ensures LeaseAdvances(r, Effect(op, r).value)
  {
  }

  lemma EffectAdvancesBinding(op: RecordOp, r: ChangeRecord)
    requires RecordOk(r) && Effect(op, r).Ok?
    ensures BindingAdvances(r, Effect(op, r).value)
    ensures StartAdvances(r.initialStart, Effect(op, r).value.initialStart)
  {
  }

  lemma EffectAdvancesReceipt(op: RecordOp, r: ChangeRecord)
    requires Effect(op, r).Ok?
    requires op.Claim? ==> r.delivery.None?
    ensures ReceiptAdvances(r.delivery, Effect(op, r).value.delivery)
  {
  }

  // ----- the whole store -----

  predicate TasksDistinct(m: Records) {
    forall a, b :: a in m && b in m && a != b ==> m[a].taskId != m[b].taskId
  }

  predicate WorkspacesDistinct(m: Records) {
    forall a, b :: a in m && b in m && a != b && m[a].workspace.Some? ==> m[a].workspace != m[b].workspace
  }

  predicate BasesKnown(m: Records) {
    forall id :: id in m && m[id].base.OnChange? ==> m[id].base.id in m
  }

  predicate Owned(scope: Scope, m: Records) {
    Keyed(m) && forall id :: id in m ==> Label(id) && m[id].scope == scope
  }

  ghost predicate RecordsOk(m: Records) {
    forall id :: id in m ==> RecordOk(m[id])
  }

  // The base relation is a forest whose nodes are all in the store.
  ghost predicate BasesFormForest(m: Records) {
    BasesKnown(m) && !HasCycle(Bases(m))
  }

  ghost predicate StoreOk(scope: Scope, m: Records) {
    Owned(scope, m) && RecordsOk(m) && TasksDistinct(m) && WorkspacesDistinct(m) && BasesFormForest(m)
  }

  predicate StoreAdvances(m: Records, n: Records) {
    forall id :: id in m ==> id in n && Advances(m[id], n[id])
  }

  // How an update that wrote something looks from outside.
  ghost predicate WroteOne(m: Records, n: Records, id: string, rev: U64, body: ChangeRecord) {
    && id in m && m[id].revision == rev && rev < U64_MAX && body != m[id]
    && n == m[id := body.(revision := rev + 1)]
  }

  lemma UpdateWritesAtMostOne(m: Records, id: string, rev: U64, f: ChangeRecord -> Outcome)
    ensures var e := UpdateWith(m, id, rev, f);
            e.records == m
            || (id in m && f(m[id]).Ok? && WroteOne(m, e.records, id, rev, f(m[id]).value)
                && e.result == Ok(e.records[id]))
  {
  }

  lemma CreateWritesAtMostOne(scope: Scope, m: Records, op: StoreOp)
    requires op.Create?
    ensures var n := CreateNamed(scope, m, op).records;
            n == m
            || (op.id !in m && !TaskTaken(m, op.taskId) && Label(op.id)
                && (op.base.OnChange? ==> op.base.id in m)
                && n == m[op.id := NewRecord(scope, op.id, op.taskId, op.parentTask, op.parentChange, op.base)])
  {
  }

  // Rebinding one record to a version with the same base keeps the base graph.
  lemma WriteKeepsForest(m: Records, n: Records, id: string, rev: U64, body: ChangeRecord)
    requires BasesFormForest(m) && WroteOne(m, n, id, rev, body) && SameIdentity(m[id], body)
    ensures BasesFormForest(n)
  {
    assert Bases(n) == Bases(m);
  }

  lemma WriteKeepsDistinct(m: Records, n: Records, id: string, rev: U64, body: ChangeRecord)
    requires TasksDistinct(m) && WorkspacesDistinct(m)
    requires WroteOne(m, n, id, rev, body) && SameIdentity(m[id], body)
    requires body.workspace == m[id].workspace || (body.workspace.Some? && !WorkspaceTaken(m, id, body.workspace.value))
    ensures TasksDistinct(n) && WorkspacesDistinct(n)
  {
    forall a, b | a in n && b in n && a != b && n[a].workspace.Some? ensures n[a].workspace != n[b].workspace {
      if body.workspace.Some? && body.workspace != m[id].workspace {
        var other := if a == id then b else a;
        var wanted := body.workspace.value;
        assert !WorkspaceTaken(m, id, wanted);
        assert m[other].workspace != Some(wanted);
      }
    }
  }

  // What the record function must guarantee when it accepts.
  ghost predicate GoodBody(m: Records, id: string, body: ChangeRecord)
    requires id in m
  {
    && Forward(m[id], body) && body.revision == m[id].revision && RecordOk(body)
    && (body.workspace == m[id].workspace || (body.workspace.Some? && !WorkspaceTaken(m, id, body.workspace.value)))
  }

  lemma WriteKeepsStoreOk(scope: Scope, m: Records, n: Records, id: string, rev: U64, body: ChangeRecord)
    requires StoreOk(scope, m) && WroteOne(m, n, id, rev, body) && GoodBody(m, id, body)
    ensures StoreOk(scope, n) && StoreAdvances(m, n)
  {
    WriteKeepsForest(m, n, id, rev, body);
    WriteKeepsDistinct(m, n, id, rev, body);
    WriteKeepsRecords(scope, m, n, id, rev, body);
  }

  lemma WriteKeepsRecords(scope: Scope, m: Records, n: Records, id: string, rev: U64, body: ChangeRecord)
    requires RecordsOk(m) && Owned(scope, m) && WroteOne(m, n, id, rev, body) && GoodBody(m, id, body)
    ensures RecordsOk(n) && Owned(scope, n) && StoreAdvances(m, n)
  {
    assert RecordOk(n[id]);
    assert Advances(m[id], n[id]);
  }

  lemma StoreAdvancesIsReflexive(m: Records)
    ensures StoreAdvances(m, m)
  {
  }

  lemma UpdateWithKeepsStoreOk(scope: Scope, m: Records, id: string, rev: U64, f: ChangeRecord -> Outcome)
    requires StoreOk(scope, m)
    requires id in m && f(m[id]).Ok? ==> GoodBody(m, id, f(m[id]).value)
    ensures var n := UpdateWith(m, id, rev, f).records; StoreOk(scope, n) && StoreAdvances(m, n)
  {
    UpdateWritesAtMostOne(m, id, rev, f);
    var n := UpdateWith(m, id, rev, f).records;
    if n == m {
      StoreAdvancesIsReflexive(m);
    } else {
      WriteKeepsStoreOk(scope, m, n, id, rev, f(m[id]).value);
    }
  }

  lemma EmptyStoreOk(scope: Scope)
    ensures StoreOk(scope, map[])
  {
    var none: Records := map[];
    assert Bases(none) == map[];
    var rank: map<string, nat> := map[];
    assert Ranks(Bases(none), rank);
    RankedHasNoCycle(Bases(none), rank);
  }

  lemma CreationAddsLeaf(m: Records, n: Records, r: ChangeRecord)
    requires BasesFormForest(m) && r.changeId !in m && n == m[r.changeId := r]
    requires r.base.OnChange? ==> r.base.id in m
    ensures BasesFormForest(n)
  {
    if r.base.OnChange? {
      assert Bases(n) == Bases(m)[r.changeId := r.base.id];
      NewLeafClosesNoCycle(Bases(m), r.changeId, r.base.id);
    } else {
      assert Bases(n) == Bases(m);
    }
  }

  lemma CreationKeepsStoreOk(scope: Scope, m: Records, r: ChangeRecord)
    requires StoreOk(scope, m) && r.changeId !in m && !TaskTaken(m, r.taskId)
    requires Label(r.changeId) && r.scope == scope && RecordOk(r) && r.workspace.None?
    requires r.base.OnChange? ==> r.base.id in m
    ensures StoreOk(scope, m[r.changeId := r]) && StoreAdvances(m, m[r.changeId := r])
  {
    var n := m[r.changeId := r];
    CreationAddsLeaf(m, n, r);
    forall a | a in m ensures m[a].taskId != r.taskId {
      assert m[a].taskId == r.taskId ==> TaskTaken(m, r.taskId);
    }
    assert Owned(scope, n);
    assert RecordsOk(n);
    assert TasksDistinct(n);
    assert WorkspacesDistinct(n);
  }

  lemma CreateKeepsStoreOk(scope: Scope, m: Records, op: StoreOp)
    requires op.Create? && StoreOk(scope, m)
    ensures StoreOk(scope, CreateNamed(scope, m, op).records)
    ensures StoreAdvances(m, CreateNamed(scope, m, op).records)
  {
    CreateWritesAtMostOne(scope, m, op);
    if CreateNamed(scope, m, op).records != m {
      var r := NewRecord(scope, op.id, op.taskId, op.parentTask, op.parentChange, op.base);
      CreationKeepsStoreOk(scope, m, r);
    }
  }

  lemma BindIsGood(m: Records, id: string, operation: Uuid, workspace: string)
    requires RecordsOk(m) && !WorkspaceTaken(m, id, workspace)
    ensures id in m && BindOf(operation, workspace)(m[id]).Ok? ==>
              GoodBody(m, id, BindOf(operation, workspace)(m[id]).value)
  {
  }

  lemma BindKeepsStoreOk(scope: Scope, m: Records, id: string, rev: U64, operation: Uuid, workspace: string)
    requires StoreOk(scope, m)
    ensures StoreOk(scope, BindManaged(m, id, rev, operation, workspace).records)
    ensures StoreAdvances(m, BindManaged(m, id, rev, operation, workspace).records)
  {
    if Label(workspace) && !WorkspaceTaken(m, id, workspace) {
      BindIsGood(m, id, operation, workspace);
      UpdateWithKeepsStoreOk(scope, m, id, rev, BindOf(operation, workspace));
    } else {
      StoreAdvancesIsReflexive(m);
    }
  }

  lemma UpdateKeepsStoreOk(scope: Scope, m: Records, id: string, rev: U64, op: RecordOp)
    requires StoreOk(scope, m)
    ensures StoreOk(scope, Execute(scope, m, Update(id, rev, op)).records)
    ensures StoreAdvances(m, Execute(scope, m, Update(id, rev, op)).records)
  {
    if ArgumentError(op).None? {
      EffectOfIsGood(m, id, op);
      UpdateWithKeepsStoreOk(scope, m, id, rev, EffectOf(op));
    } else {
      StoreAdvancesIsReflexive(m);
    }
  }

  lemma EffectOfIsGood(m: Records, id: string, op: RecordOp)
    requires id in m ==> RecordOk(m[id])
    ensures id in m && EffectOf(op)(m[id]).Ok? ==> GoodBody(m, id, EffectOf(op)(m[id]).value)
  {
    if id in m && Effect(op, m[id]).Ok? {
      EffectIsGood(m, id, op);
    }
  }

  lemma EffectIsGood(m: Records, id: string, op: RecordOp)
    requires id in m && RecordOk(m[id]) && Effect(op, m[id]).Ok?
    ensures GoodBody(m, id, Effect(op, m[id]).value)
  {
    EffectKeepsRecordOk(op, m[id]);
    EffectKeepsIdentity(op, m[id]);
    EffectKeepsWorkspace(op, m[id]);
    EffectAdvancesHistory(op, m[id]);
    EffectAdvancesBinding(op, m[id]);
  }

  lemma EffectKeepsWorkspace(op: RecordOp, r: ChangeRecord)
    requires Effect(op, r).Ok?
    ensures Effect(op, r).value.workspace == r.workspace
  {
  }

  // Main step theorem: whatever operation runs, with whatever arguments, the
  // store stays well formed and every record only moves forward.
  lemma ExecuteKeepsStoreOk(scope: Scope, m: Records, op: StoreOp)
    requires StoreOk(scope, m)
    ensures StoreOk(scope, Execute(scope, m, op).records)
    ensures StoreAdvances(m, Execute(scope, m, op).records)
  {
    match op
    case Create(_, _, _, _, _) => CreateKeepsStoreOk(scope, m, op);
    case Bind(id, rev, operation, workspace) => BindKeepsStoreOk(scope, m, id, rev, operation, workspace);
    case Update(id, rev, change) => UpdateKeepsStoreOk(scope, m, id, rev, change);
  }

  lemma AdvancesIsTransitive(a: ChangeRecord, b: ChangeRecord, c: ChangeRecord)
    requires Advances(a, b) && Advances(b, c)
    ensures Advances(a, c)
  {
  }

  lemma StoreAdvancesIsTransitive(m: Records, n: Records, o: Records)
    requires StoreAdvances(m, n) && StoreAdvances(n, o)
    ensures StoreAdvances(m, o)
  {
    forall id | id in m ensures id in o && Advances(m[id], o[id]) {
      AdvancesIsTransitive(m[id], n[id], o[id]);
    }
  }
}
