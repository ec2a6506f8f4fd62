// Which operations make a fresh plan stale: the freshness check and the write
// that relies on it are separate critical sections, and these are exactly the
// operations of other callers that must not come between.
module PlanDisturbance {
  import opened Wrappers
  import opened ChangeModel
  import opened DeliveryPlanning
  import opened ChangeStore
  import opened StoreInvariants
  import opened Delivery
  import opened ChangeRuns
  import opened DeliveryPlanTheorems

  // ----- one record -----

  // The guards under which an operation, reaching a fresh Change at its current
  // revision, leaves it stale: a writer is granted, the task revision advances,
  // another snapshot is observed, or the revision is stamped as failed.
  predicate Unfreshens(r: ChangeRecord, op: RecordOp) {
    match op
    case Handoff(previous, e) => previous.None? && IsLastExecution(r, e) && r.writerGeneration < U64_MAX
    case ObserveTask(t) => t > r.taskRevision
    case Snapshot(s, logical, materialized) =>
      && (r.logical.None? || r.logical == Some(logical))
      && (r.materialized != Some(materialized) || r.latestSnapshot != Some(s))
    case Stamp(materialized, passed) => !passed && r.materialized == Some(materialized)
    case _ => false
  }

  // The guards under which an operation moves the revision of a Change that a
  // stacked one was planned on.
  predicate MovesRevision(r: ChangeRecord, op: RecordOp) {
    match op
    case Snapshot(_, logical, materialized) =>
      (r.logical.None? || r.logical == Some(logical)) && r.materialized != Some(materialized)
    case VerifyInitial(s, _, materialized, _) =>
      && r.initialStart.Some? && r.initialStart.value.snapshotOperation == s
      && r.initialStart.value.dispatched && !r.initialStart.value.verified
      && r.executions == [] && r.writer.None? && r.materialized != Some(materialized)
    case _ => false
  }

  // The record a write leaves.
  function Written(r: ChangeRecord, body: ChangeRecord): ChangeRecord
    requires r.revision < U64_MAX
  {
    body.(revision := r.revision + 1)
  }

  lemma EffectUnfreshensExactlyWhen(r: ChangeRecord, op: RecordOp, step: DeliveryStep)
    requires RecordOk(r) && VerificationOk(r) && ChangeFresh(r, step) && r.revision < U64_MAX
    ensures Effect(op, r).Ok? && !ChangeFresh(Written(r, Effect(op, r).value), step) <==> Unfreshens(r, op)
  {
  }

  lemma EffectMovesRevisionExactlyWhen(r: ChangeRecord, op: RecordOp)
    ensures Effect(op, r).Ok? && Effect(op, r).value.materialized != r.materialized <==> MovesRevision(r, op)
  {
  }

  // ----- one step of a plan -----

  // The update gets to the record it names.
  predicate Reaches(m: Records, op: StoreOp) {
    && op.Update? && Label(op.id) && op.id in m && m[op.id].revision == op.rev < U64_MAX
    && ArgumentError(op.change).None?
  }

  predicate DisturbsStep(m: Records, step: DeliveryStep, op: StoreOp) {
    && Reaches(m, op)
    && ((op.id == step.changeId && Unfreshens(m[op.id], op.change))
        || (step.baseChange == Some(op.id) && MovesRevision(m[op.id], op.change)))
  }

  lemma WriteKeepsStep(m: Records, n: Records, id: string, rev: U64, body: ChangeRecord, step: DeliveryStep)
    requires StepFresh(m, step) && WroteOne(m, n, id, rev, body) && SameIdentity(m[id], body)
    requires step.changeId == id ==> ChangeFresh(n[id], step)
    requires step.baseChange == Some(id) ==> body.materialized == m[id].materialized
    ensures StepFresh(n, step)
  {
  }

  lemma WriteBreaksStep(m: Records, n: Records, id: string, rev: U64, body: ChangeRecord, step: DeliveryStep)
    requires StepFresh(m, step) && WroteOne(m, n, id, rev, body)
    requires || (step.changeId == id && !ChangeFresh(n[id], step))
             || (step.baseChange == Some(id) && body.materialized != m[id].materialized)
    ensures !StepFresh(n, step)
  {
  }

  lemma WriteDisturbsExactlyWhen(m: Records, n: Records, id: string, rev: U64, body: ChangeRecord, step: DeliveryStep,
                                 unfreshens: bool, moves: bool)
    requires StepFresh(m, step) && WroteOne(m, n, id, rev, body) && SameIdentity(m[id], body)
    requires id == step.changeId ==> (unfreshens <==> !ChangeFresh(n[id], step))
    requires moves <==> body.materialized != m[id].materialized
    ensures StepFresh(n, step) <==>
            !((id == step.changeId && unfreshens) || (step.baseChange == Some(id) && moves))
  {
    if (id == step.changeId && unfreshens) || (step.baseChange == Some(id) && moves) {
      WriteBreaksStep(m, n, id, rev, body, step);
    } else {
      WriteKeepsStep(m, n, id, rev, body, step);
    }
  }

  lemma UpdateWrites(m: Records, id: string, rev: U64, f: ChangeRecord -> Outcome)
    requires Label(id) && id in m && m[id].revision == rev < U64_MAX
    requires f(m[id]).Ok? && f(m[id]).value != m[id]
    ensures WroteOne(m, UpdateWith(m, id, rev, f).records, id, rev, f(m[id]).value)
  {
  }

  lemma UpdateLeaves(m: Records, op: StoreOp)
    requires op.Update? && ArgumentError(op.change).None?
    requires Reaches(m, op) ==> Effect(op.change, m[op.id]).Err? || Effect(op.change, m[op.id]).value == m[op.id]
    ensures UpdateWith(m, op.id, op.rev, EffectOf(op.change)).records == m
  {
  }

  lemma UpdateDisturbsExactlyWhen(m: Records, op: StoreOp, step: DeliveryStep)
    requires RecordsOk(m) && RecordsFresh(m) && StepFresh(m, step)
    requires op.Update? && ArgumentError(op.change).None?
    ensures StepFresh(UpdateWith(m, op.id, op.rev, EffectOf(op.change)).records, step) <==> !DisturbsStep(m, step, op)
  {
    var n := UpdateWith(m, op.id, op.rev, EffectOf(op.change)).records;
    if Reaches(m, op) {
      var r := m[op.id];
      EffectMovesRevisionExactlyWhen(r, op.change);
      if op.id == step.changeId {
        EffectUnfreshensExactlyWhen(r, op.change, step);
      }
      if Effect(op.change, r).Ok? && Effect(op.change, r).value != r {
        UpdateWrites(m, op.id, op.rev, EffectOf(op.change));
        EffectKeepsIdentity(op.change, r);
        WriteDisturbsExactlyWhen(m, n, op.id, op.rev, Effect(op.change, r).value, step,
                                 Unfreshens(r, op.change), MovesRevision(r, op.change));
      } else {
        UpdateLeaves(m, op);
      }
    } else {
      UpdateLeaves(m, op);
    }
  }

  lemma BindKeepsStep(m: Records, op: StoreOp, step: DeliveryStep)
    requires op.Bind? && StepFresh(m, step)
    ensures StepFresh(BindManaged(m, op.id, op.rev, op.operation, op.workspace).records, step)
  {
    var f := BindOf(op.operation, op.workspace);
    var n := BindManaged(m, op.id, op.rev, op.operation, op.workspace).records;
    UpdateWritesAtMostOne(m, op.id, op.rev, f);
    if n != m {
      WriteKeepsStep(m, n, op.id, op.rev, f(m[op.id]).value, step);
    }
  }

  lemma CreateKeepsStep(scope: Scope, m: Records, op: StoreOp, step: DeliveryStep)
    requires op.Create? && StepFresh(m, step)
    ensures StepFresh(CreateNamed(scope, m, op).records, step)
  {
    CreateWritesAtMostOne(scope, m, op);
  }

  // In a reachable state one operation of anybody makes a fresh step stale if
  // and only if it passes one of the guards above.
  lemma StepStaysFreshExactlyWhen(scope: Scope, m: Records, op: StoreOp, step: DeliveryStep)
    requires StateOk(scope, m) && StepFresh(m, step)
    ensures StepFresh(Execute(scope, m, op).records, step) <==> !DisturbsStep(m, step, op)
  {
    match op
    case Create(_, _, _, _, _) => CreateKeepsStep(scope, m, op, step);
    case Bind(_, _, _, _) => BindKeepsStep(m, op, step);
    case Update(_, _, change) =>
      if ArgumentError(change).None? {
        UpdateDisturbsExactlyWhen(m, op, step);
      }
  }

  predicate MovesBase(m: Records, base: string, op: StoreOp) {
    Reaches(m, op) && op.id == base && MovesRevision(m[base], op.change)
  }

  // The revision a stacked Change was planned on moves exactly by an import or
  // an observation of another one.
  lemma RevisionStaysExactlyWhen(scope: Scope, m: Records, op: StoreOp, base: string)
    requires base in m
    ensures var n := Execute(scope, m, op).records;
            base in n && (n[base].materialized == m[base].materialized <==> !MovesBase(m, base, op))
  {
    match op
    case Create(_, _, _, _, _) => CreateKeepsRevision(scope, m, op, base);
    case Bind(_, _, _, _) => BindKeepsRevision(m, op, base);
    case Update(_, _, change) =>
      if ArgumentError(change).None? {
        UpdateMovesExactlyWhen(m, op, base);
      }
  }

  lemma CreateKeepsRevision(scope: Scope, m: Records, op: StoreOp, base: string)
    requires op.Create? && base in m
    ensures base in CreateNamed(scope, m, op).records && CreateNamed(scope, m, op).records[base] == m[base]
  {
    CreateWritesAtMostOne(scope, m, op);
  }

  lemma BindKeepsRevision(m: Records, op: StoreOp, base: string)
    requires op.Bind? && base in m
    ensures var n := BindManaged(m, op.id, op.rev, op.operation, op.workspace).records;
            base in n && n[base].materialized == m[base].materialized
  {
    UpdateWritesAtMostOne(m, op.id, op.rev, BindOf(op.operation, op.workspace));
  }

  lemma UpdateMovesExactlyWhen(m: Records, op: StoreOp, base: string)
    requires base in m && op.Update? && ArgumentError(op.change).None?
    ensures var n := UpdateWith(m, op.id, op.rev, EffectOf(op.change)).records;
            base in n && (n[base].materialized == m[base].materialized <==> !MovesBase(m, base, op))
  {
    if Reaches(m, op) {
      EffectMovesRevisionExactlyWhen(m[op.id], op.change);
      if Effect(op.change, m[op.id]).Ok? && Effect(op.change, m[op.id]).value != m[op.id] {
        UpdateWrites(m, op.id, op.rev, EffectOf(op.change));
      } else {
        UpdateLeaves(m, op);
      }
    } else {
      UpdateLeaves(m, op);
    }
  }

  // ----- the whole plan -----

  predicate Disturbs(m: Records, plan: DeliveryPlan, op: StoreOp) {
    exists k :: 0 <= k < |plan.steps| && DisturbsStep(m, plan.steps[k], op)
  }

  lemma PlanStaysFreshExactlyWhen(scope: Scope, m: Records, op: StoreOp, plan: DeliveryPlan)
    requires StateOk(scope, m) && PlanFresh(m, plan)
    ensures PlanFresh(Execute(scope, m, op).records, plan) <==> !Disturbs(m, plan, op)
  {
    var n := Execute(scope, m, op).records;
    forall k | 0 <= k < |plan.steps|
      ensures StepFresh(n, plan.steps[k]) <==> !DisturbsStep(m, plan.steps[k], op)
    {
      StepStaysFreshExactlyWhen(scope, m, op, plan.steps[k]);
    }
  }

  ghost predicate BasesAreSteps(plan: DeliveryPlan) {
    forall k :: 0 <= k < |plan.steps| && plan.steps[k].baseChange.Some? ==>
                  Within(plan.steps, plan.steps[k].baseChange.value, |plan.steps|)
  }

  lemma BaseIsStep(m: Records, steps: seq<DeliveryStep>, k: nat)
    requires k < |steps| && StepGood(m, steps, k) && steps[k].baseChange.Some?
    ensures Within(steps, steps[k].baseChange.value, |steps|)
  {
    var base := m[steps[k].changeId].base.id;
    var j :| 0 <= j < k && j < |steps| && steps[j].changeId == base;
    assert steps[j].changeId == steps[k].baseChange.value;
  }

  lemma PlannedBasesAreSteps(changes: seq<ChangeRecord>, plan: DeliveryPlan)
    requires PlanOf(changes) == Ok(plan)
    ensures BasesAreSteps(plan)
  {
    PlanPlacesEachChangeAfterItsBase(changes);
    var m := ById(changes);
    forall k | 0 <= k < |plan.steps| && plan.steps[k].baseChange.Some?
      ensures Within(plan.steps, plan.steps[k].baseChange.value, |plan.steps|)
    {
      assert StepGood(m, plan.steps, k);
      BaseIsStep(m, plan.steps, k);
    }
  }

  lemma MovingFreshUnfreshens(r: ChangeRecord, op: RecordOp, step: DeliveryStep)
    requires VerificationOk(r) && ChangeFresh(r, step) && MovesRevision(r, op)
    ensures Unfreshens(r, op)
  {
  }

  // For a plan the planner made, the guards on its own Changes are all: an
  // operation disturbs it if and only if it is an update of one of the plan's
  // Changes, at its current revision, that grants a writer, advances the task
  // revision, observes another snapshot or stamps a failure.
  lemma PlannedIsDisturbedExactlyWhen(scope: Scope, m: Records, op: StoreOp, changes: seq<ChangeRecord>, plan: DeliveryPlan)
    requires StateOk(scope, m) && PlanFresh(m, plan) && PlanOf(changes) == Ok(plan)
    ensures Disturbs(m, plan, op) <==>
            && Reaches(m, op) && Unfreshens(m[op.id], op.change)
            && exists k :: 0 <= k < |plan.steps| && plan.steps[k].changeId == op.id
  {
    PlannedBasesAreSteps(changes, plan);
    if Disturbs(m, plan, op) {
      var k :| 0 <= k < |plan.steps| && DisturbsStep(m, plan.steps[k], op);
      var step := plan.steps[k];
      if !(op.id == step.changeId && Unfreshens(m[op.id], op.change)) {
        var j :| 0 <= j < |plan.steps| && plan.steps[j].changeId == step.baseChange.value;
        assert StepFresh(m, plan.steps[j]);
        MovingFreshUnfreshens(m[op.id], op.change, plan.steps[j]);
      }
    } else if Reaches(m, op) && Unfreshens(m[op.id], op.change) {
      assert forall k :: 0 <= k < |plan.steps| ==> !DisturbsStep(m, plan.steps[k], op);
    }
  }
}
