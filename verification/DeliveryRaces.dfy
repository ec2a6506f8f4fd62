// Claims and reconciliations over whole runs: when the whole plan is fresh at
// the write, and runs in which it is not.
module DeliveryRaces {
  import opened Wrappers
  import opened ChangeModel
  import opened DeliveryPlanning
  import opened DeliveryPlanTheorems
  import opened ChangeStore
  import opened StoreInvariants
  import opened Delivery
  import opened ChangeRuns
  import opened ChangeRunTheorems
  import opened PlanDisturbance

  // ----- fresh from the check to the write -----

  lemma StepOfRun(scope: Scope, h: History, ops: seq<StoreOp>, t: nat)
    requires Run(scope, h, ops) && t < |ops|
    ensures StateOk(scope, h[t]) && h[t + 1] == Execute(scope, h[t], ops[t]).records
  {
    RunStep(scope, h, ops, t);
  }

  ghost predicate Undisturbed(h: History, ops: seq<StoreOp>, from: nat, until: nat, plan: DeliveryPlan)
    requires until <= |ops| && until < |h|
  {
    forall t :: from <= t < until ==> !Disturbs(h[t], plan, ops[t])
  }

  ghost predicate FreshThroughout(h: History, from: nat, until: nat, plan: DeliveryPlan)
    requires until < |h|
  {
    forall t :: from <= t <= until ==> PlanFresh(h[t], plan)
  }

  // A plan that is fresh at one moment of a run stays fresh through a later one
  // if and only if no operation in between disturbs it.
  lemma {:induction false} FreshThroughoutExactlyWhen(scope: Scope, h: History, ops: seq<StoreOp>,
                                                      from: nat, until: nat, plan: DeliveryPlan)
    requires Run(scope, h, ops) && from <= until < |h| && PlanFresh(h[from], plan)
    ensures FreshThroughout(h, from, until, plan) <==> Undisturbed(h, ops, from, until, plan)
    decreases until
  {
    if from < until {
      FreshThroughoutExactlyWhen(scope, h, ops, from, until - 1, plan);
      if PlanFresh(h[until - 1], plan) {
        NextMoment(scope, h, ops, until - 1, plan);
      }
      OneMoreMoment(h, ops, from, until, plan);
    }
  }

  lemma NextMoment(scope: Scope, h: History, ops: seq<StoreOp>, t: nat, plan: DeliveryPlan)
    requires Run(scope, h, ops) && t < |ops| && PlanFresh(h[t], plan)
    ensures PlanFresh(h[t + 1], plan) <==> !Disturbs(h[t], plan, ops[t])
  {
    StepOfRun(scope, h, ops, t);
    PlanStaysFreshExactlyWhen(scope, h[t], ops[t], plan);
  }

  lemma OneMoreMoment(h: History, ops: seq<StoreOp>, from: nat, until: nat, plan: DeliveryPlan)
    requires from < until < |h| && until <= |ops|
    requires FreshThroughout(h, from, until - 1, plan) <==> Undisturbed(h, ops, from, until - 1, plan)
    requires PlanFresh(h[until - 1], plan) ==>
               (PlanFresh(h[until], plan) <==> !Disturbs(h[until - 1], plan, ops[until - 1]))
    ensures FreshThroughout(h, from, until, plan) <==> Undisturbed(h, ops, from, until, plan)
  {
    assert FreshThroughout(h, from, until, plan) <==> FreshThroughout(h, from, until - 1, plan) && PlanFresh(h[until], plan);
    assert FreshThroughout(h, from, until - 1, plan) ==> PlanFresh(h[until - 1], plan);
  }

  // ----- a check whose readings lie at different moments -----

  // The step as if its Change were not stacked.
  function Alone(step: DeliveryStep): DeliveryStep {
    DeliveryStep(step.changeId, step.revision, HeadRef(step.changeId), "main", None, None, SinglePr)
  }

  lemma {:induction false} ChangeStaysFresh(scope: Scope, h: History, ops: seq<StoreOp>, from: nat, until: nat, step: DeliveryStep)
    requires Run(scope, h, ops) && from <= until < |h|
    requires step.changeId in h[from] && ChangeFresh(h[from][step.changeId], step)
    requires forall t :: from <= t < until ==> !DisturbsStep(h[t], step, ops[t])
    ensures step.changeId in h[until] && ChangeFresh(h[until][step.changeId], step)
    decreases until
  {
    if from < until {
      ChangeStaysFresh(scope, h, ops, from, until - 1, step);
      StepOfRun(scope, h, ops, until - 1);
      assert StepFresh(h[until - 1], Alone(step));
      StepStaysFreshExactlyWhen(scope, h[until - 1], ops[until - 1], Alone(step));
    }
  }

  lemma {:induction false} BaseStaysFresh(scope: Scope, h: History, ops: seq<StoreOp>, from: nat, until: nat, step: DeliveryStep)
    requires Run(scope, h, ops) && from <= until < |h| && step.baseChange.Some?
    requires step.baseChange.value in h[from] && h[from][step.baseChange.value].materialized == step.baseRevision
    requires forall t :: from <= t < until ==> !DisturbsStep(h[t], step, ops[t])
    ensures step.baseChange.value in h[until] && h[until][step.baseChange.value].materialized == step.baseRevision
    decreases until
  {
    if from < until {
      BaseStaysFresh(scope, h, ops, from, until - 1, step);
      StepOfRun(scope, h, ops, until - 1);
      RevisionStaysExactlyWhen(scope, h[until - 1], ops[until - 1], step.baseChange.value);
    }
  }

  // A step read fresh in a check that began at `from`, the base perhaps at
  // another moment, is fresh when nothing disturbed it since.
  lemma ValidatedStepStaysFresh(scope: Scope, h: History, ops: seq<StoreOp>, from: nat, i: nat, step: DeliveryStep)
    requires Run(scope, h, ops) && from <= i < |h| && SawStepFresh(h[..i + 1], from, step)
    requires forall t :: from <= t < i ==> !DisturbsStep(h[t], step, ops[t])
    ensures StepFresh(h[i], step)
  {
    var past := h[..i + 1];
    var j: nat :| SawFreshAt(past, from, step, j);
    assert past[j] == h[j];
    ChangeStaysFresh(scope, h, ops, j, i, step);
    if step.baseChange.Some? {
      var b: nat :| from <= b < |past| && step.baseChange.value in past[b]
               && ParentFresh(past[b][step.baseChange.value], past[j][step.changeId], step);
      assert past[b] == h[b];
      BaseStaysFresh(scope, h, ops, b, i, step);
      RunPair(scope, h, ops, i, i, step.changeId);
      assert StateOk(scope, h[i]);
    }
  }

  // At a write whose call checked the plan from moment `from` on, the whole plan
  // is fresh unless an operation disturbed it in between.
  lemma WholePlanIsFreshOrDisturbed(scope: Scope, h: History, ops: seq<StoreOp>, from: nat, i: nat, plan: DeliveryPlan)
    requires Run(scope, h, ops) && from <= i < |h| && i <= |ops| && Validated(h[..i + 1], from, plan)
    ensures Undisturbed(h, ops, from, i, plan) ==> PlanFresh(h[i], plan)
  {
    if Undisturbed(h, ops, from, i, plan) {
      forall k | 0 <= k < |plan.steps| ensures StepFresh(h[i], plan.steps[k]) {
        assert forall t :: from <= t < i ==> !Disturbs(h[t], plan, ops[t]);
        ValidatedStepStaysFresh(scope, h, ops, from, i, plan.steps[k]);
      }
    }
  }

  lemma {:induction false} StepStaysFresh(scope: Scope, h: History, ops: seq<StoreOp>, from: nat, until: nat, step: DeliveryStep)
    requires Run(scope, h, ops) && from <= until < |h| && StepFresh(h[from], step)
    requires forall t :: from <= t < until ==> !DisturbsStep(h[t], step, ops[t])
    ensures StepFresh(h[until], step)
    decreases until
  {
    if from < until {
      StepStaysFresh(scope, h, ops, from, until - 1, step);
      StepOfRun(scope, h, ops, until - 1);
      StepStaysFreshExactlyWhen(scope, h[until - 1], ops[until - 1], step);
    }
  }

  // An operation disturbed the step after the check began, and it has not been
  // fresh again since.
  ghost predicate LeftStale(h: History, ops: seq<StoreOp>, from: nat, i: nat, step: DeliveryStep)
    requires i < |h| && i <= |ops|
  {
    exists t :: from <= t < i && DisturbsStep(h[t], step, ops[t]) && NeverFresh(h, t + 1, i, step)
  }

  predicate NeverFresh(h: History, from: nat, i: nat, step: DeliveryStep)
    requires i < |h|
  {
    forall j :: from <= j <= i ==> !StepFresh(h[j], step)
  }

  // Whoever finds a validated step stale finds the operation to blame.
  lemma StaleStepHasCulprit(scope: Scope, h: History, ops: seq<StoreOp>, from: nat, i: nat, step: DeliveryStep)
    requires Run(scope, h, ops) && from <= i < |h| && SawStepFresh(h[..i + 1], from, step)
    requires !StepFresh(h[i], step)
    ensures LeftStale(h, ops, from, i, step)
  {
    var t := i;
    while t > from && !DisturbsStep(h[t - 1], step, ops[t - 1])
      invariant from <= t <= i
      invariant forall s :: t <= s < i ==> !DisturbsStep(h[s], step, ops[s])
    {
      t := t - 1;
    }
    if t == from {
      ValidatedStepStaysFresh(scope, h, ops, from, i, step);
    } else {
      forall j | t <= j <= i ensures !StepFresh(h[j], step) {
        if StepFresh(h[j], step) {
          StepStaysFresh(scope, h, ops, j, i, step);
        }
      }
      assert NeverFresh(h, t - 1 + 1, i, step);
    }
  }

  // Exactly when the whole plan is fresh at a write: no step was disturbed since
  // the check began without becoming fresh again.
  lemma WholePlanIsFreshExactlyWhen(scope: Scope, h: History, ops: seq<StoreOp>, from: nat, i: nat, plan: DeliveryPlan)
    requires Run(scope, h, ops) && from <= i < |h| && Validated(h[..i + 1], from, plan)
    ensures PlanFresh(h[i], plan) <==>
            forall k :: 0 <= k < |plan.steps| ==> !LeftStale(h, ops, from, i, plan.steps[k])
  {
    forall k | 0 <= k < |plan.steps|
      ensures StepFresh(h[i], plan.steps[k]) <==> !LeftStale(h, ops, from, i, plan.steps[k])
    {
      if !StepFresh(h[i], plan.steps[k]) {
        StaleStepHasCulprit(scope, h, ops, from, i, plan.steps[k]);
      }
    }
  }

  // Every claim of a run has behind it a plan, checked from some moment on, that
  // names the claimed Change; and at the claim every step of it is fresh, unless
  // an operation of another caller disturbed the plan since the check began.
  lemma EveryClaimIsFreshOrRaced(scope: Scope, h: History, ops: seq<StoreOp>, i: nat, id: string)
    returns (from: nat, plan: DeliveryPlan)
    requires Run(scope, h, ops) && ClaimsAt(h, ops, i, id)
    ensures from <= i && plan.fingerprint == ops[i].change.fingerprint && StepOf(plan.steps, id).Some?
    ensures Validated(h[..i + 1], from, plan)
    ensures Undisturbed(h, ops, from, i, plan) ==> PlanFresh(h[i], plan)
    ensures PlanFresh(h[i], plan) <==>
            forall k :: 0 <= k < |plan.steps| ==> !LeftStale(h, ops, from, i, plan.steps[k])
  {
    assert StepAt(scope, h, ops, i);
    var past := h[..i + 1];
    from, plan :| plan.fingerprint == ops[i].change.fingerprint && ClaimReached(past, from, id, ops[i].rev, plan);
    ReachedBegan(past, from, id, ops[i].rev, plan);
    WholePlanIsFreshOrDisturbed(scope, h, ops, from, i, plan);
    WholePlanIsFreshExactlyWhen(scope, h, ops, from, i, plan);
  }

  lemma ReachedBegan(past: History, from: nat, id: string, rev: U64, plan: DeliveryPlan)
    requires ClaimReached(past, from, id, rev, plan)
    ensures from < |past|
  {
  }

  // The same for every reconciliation.
  lemma EveryReconciliationIsFreshOrRaced(scope: Scope, h: History, ops: seq<StoreOp>, i: nat)
    returns (from: nat)
    requires Run(scope, h, ops) && i < |ops| && ops[i].Update? && ops[i].change.Settle?
    ensures from <= i && Validated(h[..i + 1], from, ops[i].change.plan)
    ensures Undisturbed(h, ops, from, i, ops[i].change.plan) ==> PlanFresh(h[i], ops[i].change.plan)
    ensures PlanFresh(h[i], ops[i].change.plan) <==>
            forall k :: 0 <= k < |ops[i].change.plan.steps| ==>
                          !LeftStale(h, ops, from, i, ops[i].change.plan.steps[k])
  {
    assert StepAt(scope, h, ops, i);
    var past := h[..i + 1];
    var op := ops[i].change;
    from :| SettleReached(past, from, ops[i].id, op.plan, op.parent);
    SettleBegan(past, from, op.plan, ops[i].id);
    WholePlanIsFreshOrDisturbed(scope, h, ops, from, i, op.plan);
    WholePlanIsFreshExactlyWhen(scope, h, ops, from, i, op.plan);
  }

  lemma SettleBegan(past: History, from: nat, plan: DeliveryPlan, id: string)
    requires Validated(past, from, plan) && StepOf(plan.steps, id).Some?
    ensures from < |past|
  {
    var k :| 0 <= k < |plan.steps| && plan.steps[k].changeId == id;
    assert SawStepFresh(past, from, plan.steps[k]);
  }
}
