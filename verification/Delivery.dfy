// Accepting and reconciling a delivery against the store, one call at a time.
module Delivery {
  import opened Wrappers
  import opened ChangeModel
  import opened DeliveryPlanning
  import opened ChangeStore
  import opened StoreInvariants
  import opened LockedStore
  import opened OperationEffects

  const OBSERVATION_NAME := "temote-read-only-delivery-observation-v1"

  // What the freshness check asks of a step by itself.
  predicate StepShape(step: DeliveryStep) {
    && step.headRef == HeadRef(step.changeId)
    && (match step.baseChange
        case None => step.baseRef == "main" && step.baseRevision.None?
        case Some(parent) => step.baseRef == HeadRef(parent))
    && step.how == (if step.baseChange.Some? then StackedPr else SinglePr)
  }

  // What it asks of the Change: no writer, the planned revision, and a passing
  // verification of that revision at the recorded task revision.
  predicate ChangeFresh(c: ChangeRecord, step: DeliveryStep) {
    && c.writer.None?
    && c.materialized == Some(step.revision)
    && VerifiedNow(c, step.revision)
  }

  predicate ParentFresh(parent: ChangeRecord, c: ChangeRecord, step: DeliveryStep) {
    parent.scope == c.scope && parent.materialized == step.baseRevision
  }

  predicate StepFresh(m: Records, step: DeliveryStep) {
    && step.changeId in m
    && StepShape(step)
    && ChangeFresh(m[step.changeId], step)
    && (step.baseChange.Some? ==>
          step.baseChange.value in m && ParentFresh(m[step.baseChange.value], m[step.changeId], step))
  }

  predicate PlanFresh(m: Records, plan: DeliveryPlan) {
    && plan.fingerprint == Digest(plan.steps)
    && forall k :: 0 <= k < |plan.steps| ==> StepFresh(m, plan.steps[k])
  }

  // The same in the fields of records and steps.
  lemma FreshInFields(m: Records, plan: DeliveryPlan)
    ensures PlanFresh(m, plan) <==>
              && plan.fingerprint == Digest(plan.steps)
              && forall k :: 0 <= k < |plan.steps| ==>
                   var step := plan.steps[k];
                   && step.changeId in m && step.headRef == "temote/" + step.changeId
                   && var c := m[step.changeId];
                   && c.writer == None && c.materialized == Some(step.revision)
                   && c.taskRevision > 0 && c.verification.Some?
                   && c.verification.value
                      == Verification(step.revision, c.verification.value.recordRevision, c.taskRevision, true)
                   && (match step.baseChange
                       case None => step.baseRef == "main" && step.baseRevision == None && step.how == SinglePr
                       case Some(parent) =>
                         && step.baseRef == "temote/" + parent && step.how == StackedPr
                         && parent in m && m[parent].scope == c.scope && m[parent].materialized == step.baseRevision)
  {
  }

  predicate ParentDelivered(m: Records, step: DeliveryStep) {
    step.baseChange.Some? ==>
      && step.baseChange.value in m
      && m[step.baseChange.value].delivery.Some?
      && m[step.baseChange.value].delivery.value.state == Completed
  }

  function RecordedPr(m: Records, id: string): Option<PullRequest> {
    if id in m && m[id].delivery.Some? then m[id].delivery.value.pullRequest else None
  }

  function ParentNumber(m: Records, parent: Option<string>): Option<U64> {
    if parent.Some? && RecordedPr(m, parent.value).Some? then Some(RecordedPr(m, parent.value).value.number) else None
  }

  // Identities in a valid store satisfy the label rule, so reading one succeeds
  // exactly when it is present.
  method ValidatePlanFresh(store: Store, plan: DeliveryPlan) returns (problem: Option<Error>)
    requires store.Valid()
    ensures problem.None? <==> PlanFresh(store.records, plan)
    ensures problem == Some(FingerprintMismatch) <==> plan.fingerprint != Digest(plan.steps)
  {
    if Digest(plan.steps) != plan.fingerprint {
      return Some(FingerprintMismatch);
    }
    for k := 0 to |plan.steps|
      invariant forall j :: 0 <= j < k ==> StepFresh(store.records, plan.steps[j])
    {
      var step := plan.steps[k];
      var change := store.Get(step.changeId);
      if change.Err? {
        return Some(change.error);
      }
      if change.value.writer.Some? {
        return Some(ActiveWriter);
      }
      if change.value.materialized != Some(step.revision) {
        return Some(PlanStale);
      }
      if !VerifiedNow(change.value, step.revision) {
        return Some(VerificationStale);
      }
      if step.baseChange.Some? {
        var base := store.Get(step.baseChange.value);
        if base.Err? {
          return Some(base.error);
        }
        if base.value.scope != change.value.scope || base.value.materialized != step.baseRevision {
          return Some(PlanStale);
        }
        if step.baseRef != HeadRef(step.baseChange.value) {
          return Some(PlanMismatch);
        }
      } else if step.baseRef != "main" || step.baseRevision.Some? {
        return Some(PlanMismatch);
      }
      if step.headRef != HeadRef(step.changeId) {
        return Some(PlanMismatch);
      }
      if step.how != (if step.baseChange.Some? then StackedPr else SinglePr) {
        return Some(PlanMismatch);
      }
    }
    problem := None;
  }

  // When an acceptance gets past its checks.
  predicate Admissible(m: Records, id: string, rev: U64, plan: DeliveryPlan, operation: Uuid) {
    && PlanFresh(m, plan)
    && StepOf(plan.steps, id).Some?
    && ParentDelivered(m, StepOf(plan.steps, id).value)
    && id in m
    && (match m[id].delivery
        case None => m[id].revision == rev
        case Some(d) => d.operation == operation && d.fingerprint == plan.fingerprint)
  }

  // Exactly when an acceptance succeeds.
  predicate Acceptable(m: Records, id: string, rev: U64, plan: DeliveryPlan, operation: Uuid) {
    Admissible(m, id, rev, plan, operation) && (m[id].delivery.None? ==> rev < U64_MAX)
  }

  // The durable claim: the receipt and the revision change, nothing else.
  predicate Claimed(m: Records, n: Records, id: string, rev: U64, receipt: DeliveryReceipt) {
    && id in m && m[id].delivery.None? && m[id].revision == rev && rev < U64_MAX
    && n == m[id := m[id].(delivery := Some(receipt), revision := rev + 1)]
  }

  lemma ClaimExecutes(scope: Scope, m: Records, id: string, rev: U64, operation: Uuid, fingerprint: Fingerprint)
    requires Label(id) && id in m && m[id].delivery.None? && m[id].revision == rev
    ensures var e := Execute(scope, m, ChangeStore.Update(id, rev, Claim(operation, fingerprint)));
            && (e.result.Ok? <==> rev < U64_MAX)
            && (e.result.Ok? ==> Claimed(m, e.records, id, rev, NewReceipt(operation, fingerprint)))
            && (e.result.Err? ==> e.records == m)
  {
  }

  method ClaimLocked(store: Store, id: string, rev: U64, operation: Uuid, fingerprint: Fingerprint) returns (ok: bool)
    requires store.Valid() && id in store.records && store.records[id].delivery.None?
    requires store.records[id].revision == rev
    modifies store
    ensures store.Valid() && StoreAdvances(old(store.records), store.records)
    ensures ok <==> rev < U64_MAX
    ensures ok ==> Claimed(old(store.records), store.records, id, rev, NewReceipt(operation, fingerprint))
    ensures !ok ==> store.records == old(store.records)
  {
    ClaimExecutes(store.scope, store.records, id, rev, operation, fingerprint);
    var res := store.UpdateRecord(id, rev, Claim(operation, fingerprint));
    ok := res.Ok?;
  }

  // The checks before the claim: the retained receipt of an earlier claim, if any.
  method AdmitAcceptance(store: Store, id: string, rev: U64, plan: DeliveryPlan, operation: Uuid)
    returns (res: Result<Option<DeliveryReceipt>, Error>)
    requires store.Valid()
    ensures res.Ok? <==> Admissible(store.records, id, rev, plan, operation)
    ensures res.Ok? ==> res.value == store.records[id].delivery
  {
    var problem := ValidatePlanFresh(store, plan);
    if problem.Some? {
      return Err(problem.value);
    }
    var step := StepOf(plan.steps, id);
    if step.None? {
      return Err(AbsentFromPlan);
    }
    assert StepFresh(store.records, step.value);
    if step.value.baseChange.Some? {
      var parent := store.Get(step.value.baseChange.value);
      if parent.Err? {
        return Err(NotFound);
      }
      if parent.value.delivery.None? || parent.value.delivery.value.state != Completed {
        return Err(ParentIncomplete);
      }
    }
    var current := store.Get(id);
    if current.Err? {
      return Err(NotFound);
    }
    if current.value.materialized != Some(step.value.revision) {
      return Err(PlanStale);
    }
    if current.value.delivery.Some? {
      var receipt := current.value.delivery.value;
      if receipt.operation != operation || receipt.fingerprint != plan.fingerprint {
        return Err(DeliveryConflict);
      }
    } else if current.value.revision != rev {
      return Err(RevisionConflict);
    }
    res := Ok(current.value.delivery);
  }

  // Only the caller whose call claimed the intent may start the delegated task.
  method AcceptOnce(store: Store, id: string, rev: U64, plan: DeliveryPlan, operation: Uuid)
    returns (res: Result<(DeliveryReceipt, bool), Error>)
    requires store.Valid()
    modifies store
    ensures store.Valid() && StoreAdvances(old(store.records), store.records)
    ensures res.Ok? <==> Acceptable(old(store.records), id, rev, plan, operation)
    ensures res.Ok? && res.value.1 ==>
              && res.value.0 == NewReceipt(operation, plan.fingerprint)
              && Claimed(old(store.records), store.records, id, rev, res.value.0)
    ensures res.Ok? && !res.value.1 ==>
              Some(res.value.0) == old(store.records)[id].delivery && store.records == old(store.records)
    ensures res.Err? ==> store.records == old(store.records)
  {
    var retained :- AdmitAcceptance(store, id, rev, plan, operation);
    if retained.Some? {
      return Ok((retained.value, false));
    }
    var ok := ClaimLocked(store, id, rev, operation, plan.fingerprint);
    if !ok {
      return Err(RevisionOverflow);
    }
    res := Ok((NewReceipt(operation, plan.fingerprint), true));
  }

  method RecordDelegated(store: Store, id: string, rev: U64, operation: Uuid, task: string) returns (res: Outcome)
    requires store.Valid()
    modifies store
    ensures store.Valid() && StoreAdvances(old(store.records), store.records)
    ensures Executed(store.records, res)
            == Execute(store.scope, old(store.records), ChangeStore.Update(id, rev, Delegate(operation, task)))
  {
    if !Label(task) {
      StoreAdvancesIsReflexive(store.records);
      return Err(InvalidLabel);
    }
    res := store.UpdateRecord(id, rev, Delegate(operation, task));
  }

  // Exactly when an observation can be prepared: this delivery was accepted, and
  // the request is the one on record or there is none and a revision is left.
  predicate Preparable(m: Records, id: string, rev: U64, operation: Uuid, observation: Uuid) {
    && id in m && m[id].delivery.Some?
    && var d := m[id].delivery.value;
    && d.operation == operation
    && (if d.observationOperation.Some? then d.observationOperation == Some(observation)
        else m[id].revision == rev && rev < U64_MAX)
  }

  // Persist the read-only observation request once; a replay keeps its identity.
  method PrepareObserving(store: Store, id: string, rev: U64, operation: Uuid, observation: Uuid)
    returns (res: Result<Option<DeliveryReceipt>, Error>)
    requires store.Valid()
    modifies store
    ensures store.Valid() && StoreAdvances(old(store.records), store.records)
    ensures res.Ok? <==> Preparable(old(store.records), id, rev, operation, observation)
    ensures res.Ok? ==> ObservedBy(store.records, id, operation, observation)
                        && res.value == store.records[id].delivery
    ensures Observing(old(store.records), id) ==> store.records == old(store.records)
    ensures res.Err? ==> store.records == old(store.records)
    ensures res.Ok? && !Observing(old(store.records), id) ==>
              store.records == Execute(store.scope, old(store.records),
                ChangeStore.Update(id, rev, PrepareObserver(operation, observation))).records
  {
    var current := store.Get(id);
    if current.Err? {
      return Err(current.error);
    }
    if current.value.delivery.None? {
      return Err(DeliveryNotAccepted);
    }
    var existing := current.value.delivery.value;
    if existing.operation != operation {
      return Err(DeliveryConflict);
    }
    if existing.observationOperation.Some? {
      if existing.observationOperation != Some(observation) {
        return Err(ObservationConflict);
      }
      return Ok(Some(existing));
    }
    PrepareExecutes(store.scope, store.records, id, rev, operation, observation);
    ObservationIsPrepared(store.scope, store.records, id, rev, operation, observation);
    UpdateErrorsLeaveStore(store.scope, store.records, id, rev, PrepareObserver(operation, observation));
    var updated := store.UpdateRecord(id, rev, PrepareObserver(operation, observation));
    if updated.Err? {
      return Err(updated.error);
    }
    res := Ok(updated.value.delivery);
  }

  predicate ObservedBy(m: Records, id: string, operation: Uuid, observation: Uuid) {
    && id in m && m[id].delivery.Some?
    && m[id].delivery.value.operation == operation
    && m[id].delivery.value.observationOperation == Some(observation)
  }

  lemma PrepareExecutes(scope: Scope, m: Records, id: string, rev: U64, operation: Uuid, observation: Uuid)
    ensures var e := Execute(scope, m, ChangeStore.Update(id, rev, PrepareObserver(operation, observation)));
            e.result.Ok? ==>
              && ObservedBy(e.records, id, operation, observation)
              && e.records[id].delivery == e.result.value.delivery
  {
  }

  predicate Observing(m: Records, id: string) {
    id in m && m[id].delivery.Some? && m[id].delivery.value.observationOperation.Some?
  }

  // The parent's recorded number that a stacked pull request must name.
  method ParentPrNumber(store: Store, step: DeliveryStep) returns (res: Result<Option<U64>, Error>)
    requires store.Valid()
    ensures res.Ok? ==> res.value == ParentNumber(store.records, step.baseChange)
    ensures res.Ok? <==> (step.baseChange.Some? ==> ParentNumber(store.records, step.baseChange).Some?)
  {
    if step.baseChange.None? {
      return Ok(None);
    }
    var base := store.Get(step.baseChange.value);
    if base.Err? {
      return Err(base.error);
    }
    if base.value.delivery.None? || base.value.delivery.value.pullRequest.None? {
      return Err(ParentPrMissing);
    }
    res := Ok(Some(base.value.delivery.value.pullRequest.value.number));
  }

  method SettleLocked(store: Store, id: string, rev: U64, op: RecordOp) returns (res: Outcome)
    requires store.Valid() && op.Settle?
    modifies store
    ensures store.Valid() && StoreAdvances(old(store.records), store.records)
    ensures res.Err? ==> store.records == old(store.records)
    ensures Executed(store.records, res) == Execute(store.scope, old(store.records), ChangeStore.Update(id, rev, op))
  {
    UpdateErrorsLeaveStore(store.scope, store.records, id, rev, op);
    res := store.UpdateRecord(id, rev, op);
  }

  // Exactly when a reconciliation gets to its update: the plan is fresh, names
  // the Change, and the number a stacked pull request must name is recorded.
  predicate Settleable(m: Records, id: string, plan: DeliveryPlan) {
    && PlanFresh(m, plan)
    && var step := StepOf(plan.steps, id);
    step.Some? && (step.value.baseChange.Some? ==> ParentNumber(m, step.value.baseChange).Some?)
  }

  function NumberFor(m: Records, id: string, plan: DeliveryPlan): Option<U64> {
    var step := StepOf(plan.steps, id);
    if step.Some? then ParentNumber(m, step.value.baseChange) else None
  }

  method AdmitSettlement(store: Store, id: string, plan: DeliveryPlan) returns (res: Result<Option<U64>, Error>)
    requires store.Valid()
    ensures res.Ok? <==> Settleable(store.records, id, plan)
    ensures res.Ok? ==> res.value == NumberFor(store.records, id, plan)
  {
    var problem := ValidatePlanFresh(store, plan);
    if problem.Some? {
      return Err(problem.value);
    }
    var step := StepOf(plan.steps, id);
    if step.None? {
      return Err(AbsentFromPlan);
    }
    res := ParentPrNumber(store, step.value);
  }

  // What the reconciliation of a receipt makes of it, if it is accepted at all.
  function Settled(m: Records, id: string, plan: DeliveryPlan, seen: Observation): DeliveryReceipt
    requires id in m && m[id].delivery.Some? && StepOf(plan.steps, id).Some?
  {
    ReceiptAfter(m[id].delivery.value, StepOf(plan.steps, id).value, NumberFor(m, id, plan), seen)
  }

  // Exactly when a reconciliation succeeds.
  predicate Reconcilable(m: Records, id: string, rev: U64, plan: DeliveryPlan, operation: Uuid, seen: Observation) {
    && Settleable(m, id, plan)
    && id in m && m[id].revision == rev && m[id].delivery.Some?
    && var d := m[id].delivery.value;
    && d.operation == operation && d.fingerprint == plan.fingerprint
    && !OtherPullRequest(d, StepOf(plan.steps, id).value, NumberFor(m, id, plan), seen)
    && (Settled(m, id, plan, seen) == d || rev < U64_MAX)
  }

  lemma FreshStepOf(m: Records, plan: DeliveryPlan, id: string)
    requires PlanFresh(m, plan) && StepOf(plan.steps, id).Some?
    ensures id in m && m[id].materialized == Some(StepOf(plan.steps, id).value.revision)
  {
    assert StepFresh(m, StepOf(plan.steps, id).value);
  }

  lemma SettlementExecutes(scope: Scope, m: Records, id: string, rev: U64, plan: DeliveryPlan, operation: Uuid,
                           seen: Observation)
    requires StoreOk(scope, m) && Settleable(m, id, plan)
    ensures var e := Execute(scope, m, ChangeStore.Update(id, rev, Settle(plan, NumberFor(m, id, plan), operation, seen)));
            && (e.result.Ok? <==> Reconcilable(m, id, rev, plan, operation, seen))
            && (e.result.Ok? ==> e.result.value.delivery == Some(Settled(m, id, plan, seen)))
  {
    FreshStepOf(m, plan, id);
    var step, parent := StepOf(plan.steps, id).value, NumberFor(m, id, plan);
    if m[id].delivery.Some? {
      ReceiptIsSettled(m[id].delivery.value, step, parent, seen);
    }
    SettleBehaves(scope, m, id, rev, plan, parent, operation, seen, step);
  }

  // A reconciliation succeeds exactly at a fresh plan, for this delivery, unless
  // another pull request is on record. It compares a stacked pull request with
  // the number recorded for the parent, and leaves the receipt completed exactly
  // when what was seen is what the step asks for.
  method ReconcileOnce(store: Store, id: string, rev: U64, plan: DeliveryPlan, operation: Uuid, seen: Observation)
    returns (res: Outcome)
    requires store.Valid()
    modifies store
    ensures store.Valid() && StoreAdvances(old(store.records), store.records)
    ensures res.Err? ==> store.records == old(store.records)
    ensures Settleable(old(store.records), id, plan) ==>
              Executed(store.records, res) == Execute(store.scope, old(store.records),
                ChangeStore.Update(id, rev, Settle(plan, NumberFor(old(store.records), id, plan), operation, seen)))
    ensures res.Ok? <==> Reconcilable(old(store.records), id, rev, plan, operation, seen)
    ensures res.Ok? ==> res.value.delivery == Some(Settled(old(store.records), id, plan, seen))
    ensures res.Ok? ==>
              res.value.delivery.value.state
              == if SeenAsAsked(StepOf(plan.steps, id).value, NumberFor(old(store.records), id, plan), seen) then Completed
                 else ReconciliationRequired
  {
    var parent := AdmitSettlement(store, id, plan);
    if parent.Err? {
      return Err(parent.error);
    }
    SettlementExecutes(store.scope, store.records, id, rev, plan, operation, seen);
    res := SettleLocked(store, id, rev, Settle(plan, parent.value, operation, seen));
  }

  lemma UpdateErrorsLeaveStore(scope: Scope, m: Records, id: string, rev: U64, change: RecordOp)
    ensures Execute(scope, m, ChangeStore.Update(id, rev, change)).result.Err? ==>
              Execute(scope, m, ChangeStore.Update(id, rev, change)).records == m
  {
  }
}
