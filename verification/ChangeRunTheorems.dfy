// Theorems about whole runs of the Change store.
module ChangeRunTheorems {
  import opened Wrappers
  import opened ChangeModel
  import opened Forest
  import opened DeliveryPlanning
  import opened DeliveryPlanTheorems
  import opened ChangeStore
  import opened StoreInvariants
  import opened Delivery
  import opened ChangeRuns

  // ----- unfolding a run -----

  lemma RunStep(scope: Scope, h: History, ops: seq<StoreOp>, i: nat)
    requires Run(scope, h, ops) && i < |ops|
    ensures Allowed(h[..i + 1], ops[i])
    ensures h[i + 1] == Execute(scope, h[i], ops[i]).records
    ensures RunOk(scope, h[..i + 1]) && Last(h[..i + 1]) == h[i]
  {
    PrefixIsOk(scope, h, ops, i);
    assert StepAt(scope, h, ops, i);
  }

  lemma RunPair(scope: Scope, h: History, ops: seq<StoreOp>, i: nat, j: nat, id: string)
    requires Run(scope, h, ops) && i <= j < |h| && id in h[i]
    ensures id in h[j] && Advances(h[i][id], h[j][id])
    ensures ReceiptAdvances(h[i][id].delivery, h[j][id].delivery)
    ensures StateOk(scope, h[i]) && StateOk(scope, h[j])
  {
    EveryRunIsOk(scope, h, ops);
    assert Later(h[i], h[j]);
  }

  // ----- the base relation -----

  // The plan of any base-closed selection, read at any moments of a run, fails
  // only because a Change repeats or is not ready: never for its bases.
  lemma ClosedSelectionPlans(scope: Scope, h: History, ops: seq<StoreOp>, changes: seq<ChangeRecord>)
    requires Run(scope, h, ops) && forall c :: c in changes ==> Saw(h, c)
    requires DistinctIds(changes)
    requires forall id :: id in ById(changes) && ById(changes)[id].base.OnChange? ==>
                          ById(changes)[id].base.id in ById(changes)
    ensures !HasCycle(Bases(ById(changes)))
    ensures (forall c :: c in changes ==> ReadyToDeliver(c)) ==> PlanOf(changes).Ok?
    ensures PlanOf(changes).Err? ==> exists c :: c in changes && Readiness(c) == Some(PlanOf(changes).error)
  {
    EveryRunIsOk(scope, h, ops);
    var m := ById(changes);
    forall id | id in m ensures SeenInRun(scope, h, m[id]) {
      assert m[id] in changes;
      SawMeansSeen(scope, h, m[id]);
    }
    SubgraphHasNoCycle(Bases(m), Bases(Last(h)));
    assert forall id :: id in m ==> ParentKnown(m, id);
    PlanSucceedsExactlyWhenDeliverable(changes);
    if PlanOf(changes).Err? {
      PlanRefusalIsJustified(changes);
      var e := PlanOf(changes).error;
      assert Justified(m, e);
      assert SomeUnready(m, e);
      var id :| id in m && Readiness(m[id]) == Some(e);
      assert m[id] in changes;
    }
  }

  // The Change is in the last state, with the same base and scope.
  predicate SeenInRun(scope: Scope, h: History, c: ChangeRecord) {
    && |h| > 0 && c.changeId in Last(h) && Last(h)[c.changeId].base == c.base
    && c.scope == scope && Last(h)[c.changeId].scope == scope
  }

  lemma SawMeansSeen(scope: Scope, h: History, c: ChangeRecord)
    requires RunOk(scope, h) && Saw(h, c)
    ensures SeenInRun(scope, h, c)
  {
    var j :| 0 <= j < |h| && c.changeId in h[j] && h[j][c.changeId] == c;
    assert Later(h[j], Last(h));
    assert Advances(c, Last(h)[c.changeId]);
    assert StateOk(scope, h[j]);
  }

  // ----- ownership -----

  // In every reachable state no two Changes share a task or a workspace, a
  // bound workspace has no allocation pending, and it stays bound for good.
  lemma OwnershipIsExclusiveAndPermanent(scope: Scope, h: History, ops: seq<StoreOp>, i: nat, j: nat, a: string, b: string)
    requires Run(scope, h, ops) && i <= j < |h| && a in h[i] && b in h[j] && a != b
    ensures a in h[j] && h[j][a].taskId == h[i][a].taskId != h[j][b].taskId
    ensures h[i][a].workspace.Some? ==>
              h[j][a].workspace == h[i][a].workspace != h[j][b].workspace && !h[j][a].allocationPending
  {
    RunPair(scope, h, ops, i, j, a);
    assert RecordOk(h[j][a]);
  }

  // ----- verification freshness -----

  // A verification present in a reachable state names the current materialized
  // revision and task revision and was stamped no later than now.
  lemma VerificationIsNeverStale(scope: Scope, h: History, ops: seq<StoreOp>, i: nat, id: string)
    requires Run(scope, h, ops) && i < |h| && id in h[i] && h[i][id].verification.Some?
    ensures var v := h[i][id].verification.value;
            && h[i][id].materialized == Some(v.revision)
            && v.taskRevision == h[i][id].taskRevision > 0
            && v.recordRevision <= h[i][id].revision
  {
    RunPair(scope, h, ops, i, i, id);
    assert VerificationOk(h[i][id]);
  }

  // So a changed snapshot or an advanced task revision has removed it.
  lemma StampDoesNotOutliveItsTarget(scope: Scope, h: History, ops: seq<StoreOp>, i: nat, j: nat, id: string)
    requires Run(scope, h, ops) && i <= j < |h| && id in h[i] && h[i][id].verification.Some?
    requires id in h[j]
    requires h[j][id].materialized != h[i][id].materialized || h[j][id].taskRevision != h[i][id].taskRevision
    ensures h[j][id].verification != h[i][id].verification
  {
    VerificationIsNeverStale(scope, h, ops, i, id);
    if h[j][id].verification.Some? {
      VerificationIsNeverStale(scope, h, ops, j, id);
    }
  }

  predicate VerificationNamesRevision(r: ChangeRecord) {
    r.verification.Some? ==> r.materialized == Some(r.verification.value.revision)
  }

  // Importing the initial snapshot replaces the revision without clearing the
  // verification, so outside the callers' guard it keeps verifications fresh
  // exactly when there is none or the imported revision is the one on record.
  lemma ImportKeepsVerificationExactlyWhen(r: ChangeRecord, snapshot: Uuid, logical: string,
                                           materialized: string, vcs: string)
    requires VerificationNamesRevision(r)
    requires VerifyInitialSnapshot(r, snapshot, logical, materialized, vcs).Ok?
    ensures VerificationNamesRevision(VerifyInitialSnapshot(r, snapshot, logical, materialized, vcs).value)
            <==> r.verification.None? || r.materialized == Some(materialized)
  {
  }

  // ----- writer fencing -----

  // A lease given up is never held again.
  lemma LeaseNeverReturns(scope: Scope, h: History, ops: seq<StoreOp>, i: nat, j: nat, k: nat, id: string, lease: Lease)
    requires Run(scope, h, ops) && i <= j <= k < |h|
    requires id in h[i] && h[i][id].writer == Some(lease)
    requires id in h[j] && h[j][id].writer != Some(lease)
    ensures id in h[k] && h[k][id].writer != Some(lease)
  {
    RunPair(scope, h, ops, i, j, id);
    RunPair(scope, h, ops, j, k, id);
    assert RecordOk(h[i][id]);
  }

  // Once given up it cannot release whatever lease came after it.
  lemma StaleLeaseCannotRelease(scope: Scope, h: History, ops: seq<StoreOp>, i: nat, j: nat, k: nat,
                                id: string, rev: U64, lease: Lease)
    requires Run(scope, h, ops) && i <= j <= k < |h|
    requires id in h[i] && h[i][id].writer == Some(lease)
    requires id in h[j] && h[j][id].writer != Some(lease)
    ensures Execute(scope, h[k], Update(id, rev, Release(lease))).result.Err?
    ensures Execute(scope, h[k], Update(id, rev, Release(lease))).records == h[k]
  {
    LeaseNeverReturns(scope, h, ops, i, j, k, id, lease);
  }

  // Generations are granted strictly increasing.
  lemma LaterLeaseHasLargerGeneration(scope: Scope, h: History, ops: seq<StoreOp>, i: nat, j: nat, id: string)
    requires Run(scope, h, ops) && i <= j < |h| && id in h[i] && id in h[j]
    requires h[i][id].writer.Some? && h[j][id].writer.Some? && h[i][id].writer != h[j][id].writer
    ensures h[i][id].writer.value.generation < h[j][id].writer.value.generation
  {
    RunPair(scope, h, ops, i, j, id);
    assert RecordOk(h[i][id]);
  }

  // The holder is in the execution history, which only grows, has distinct
  // identities and strictly increasing generations, and is bounded.
  lemma HolderIsInTheHistory(scope: Scope, h: History, ops: seq<StoreOp>, i: nat, j: nat, id: string)
    requires Run(scope, h, ops) && i <= j < |h| && id in h[i]
    ensures id in h[j] && h[i][id].executions <= h[j][id].executions
    ensures HistoryOk(h[j][id].executions) && HolderKnown(h[j][id])
  {
    RunPair(scope, h, ops, i, j, id);
    assert RecordOk(h[j][id]);
  }

  // There is no direct transfer: naming a previous holder always fails.
  lemma DirectHandoffAlwaysFails(scope: Scope, m: Records, id: string, rev: U64, previous: Lease, executionId: string)
    ensures Execute(scope, m, Update(id, rev, Handoff(Some(previous), executionId))).result.Err?
    ensures Execute(scope, m, Update(id, rev, Handoff(Some(previous), executionId))).records == m
  {
  }

  // ----- delivery claims -----

  // The i-th operation claimed the delivery of this Change.
  predicate ClaimsAt(h: History, ops: seq<StoreOp>, i: nat, id: string) {
    && i < |ops| && i + 1 < |h| && ops[i].Update? && ops[i].id == id && ops[i].change.Claim?
    && h[i + 1] != h[i]
  }

  lemma ClaimFacts(scope: Scope, h: History, ops: seq<StoreOp>, i: nat, id: string)
    requires Run(scope, h, ops) && ClaimsAt(h, ops, i, id)
    ensures id in h[i] && h[i][id].delivery.None? && h[i][id].revision == ops[i].rev
    ensures id in h[i + 1] && h[i + 1][id].delivery.Some?
  {
    RunStep(scope, h, ops, i);
    assert Last(h[..i + 1]) == h[i];
    assert StateOk(scope, h[i]);
    var change := ops[i].change;
    ClaimGivesReceiptOk(scope, h[..i + 1], id, change.operation, change.fingerprint);
    ClaimExecutes(scope, h[i], id, ops[i].rev, change.operation, change.fingerprint);
  }

  // Over a whole run a delivery is claimed at most once per Change.
  lemma DeliveryIsClaimedAtMostOnce(scope: Scope, h: History, ops: seq<StoreOp>, i: nat, j: nat, id: string)
    requires Run(scope, h, ops)
    requires ClaimsAt(h, ops, i, id) && ClaimsAt(h, ops, j, id)
    ensures i == j
  {
    ClaimFacts(scope, h, ops, i, id);
    ClaimFacts(scope, h, ops, j, id);
    if i < j {
      RunPair(scope, h, ops, i + 1, j, id);
    } else if j < i {
      RunPair(scope, h, ops, j + 1, i, id);
    }
  }

  // What a receipt says about its delivery never changes.
  lemma ReceiptIsPermanent(scope: Scope, h: History, ops: seq<StoreOp>, i: nat, j: nat, id: string)
    requires Run(scope, h, ops) && i <= j < |h| && id in h[i] && h[i][id].delivery.Some?
    ensures id in h[j] && h[j][id].delivery.Some?
    ensures var d, d' := h[i][id].delivery.value, h[j][id].delivery.value;
            && d'.operation == d.operation && d'.fingerprint == d.fingerprint
            && (d.pullRequest.Some? ==> d'.pullRequest == d.pullRequest)
            && (d.delegatedTask.Some? ==> d'.delegatedTask == d.delegatedTask)
            && (d.branchRevision.Some? ==> d'.branchRevision == d.branchRevision)
            && (d.observationOperation.Some? ==> d'.observationOperation == d.observationOperation)
            && (d.observationTask.Some? ==> d'.observationTask == d.observationTask)
  {
    RunPair(scope, h, ops, i, j, id);
    assert ReceiptOk(h[i], h[i][id].delivery.value, h[i][id]);
    assert ReceiptOk(h[j], h[j][id].delivery.value, h[j][id]);
  }

  // ----- freshness at the claim -----

  // Between two moments with the same revision the record never moved.
  lemma SameRevisionSameRecord(scope: Scope, h: History, i: nat, j: nat, id: string)
    requires RunOk(scope, h) && i <= j < |h| && id in h[i] && id in Last(h)
    requires Last(h)[id].revision <= h[i][id].revision
    ensures id in h[j] && h[j][id] == Last(h)[id]
  {
    assert Later(h[i], h[j]) && Later(h[j], Last(h));
    assert Advances(h[i][id], h[j][id]);
    assert Advances(h[j][id], Last(h)[id]);
  }

  // A step read fresh in a call that began at `from` is still fresh when the
  // record's revision has not moved since.
  lemma UnmovedStepIsStillFresh(scope: Scope, h: History, from: nat, plan: DeliveryPlan, k: nat)
    requires RunOk(scope, h) && Validated(h, from, plan) && k < |plan.steps|
    requires Reached(h, from, plan.steps[k].changeId)
    ensures ChangeFresh(Last(h)[plan.steps[k].changeId], plan.steps[k])
  {
    var step := plan.steps[k];
    assert SawStepFresh(h, from, step);
    var j :| SawFreshAt(h, from, step, j);
    SameRevisionSameRecord(scope, h, from, j, step.changeId);
  }

  // The record already had its last revision at moment `from`.
  predicate Reached(h: History, from: nat, id: string) {
    && from < |h| && id in h[from] && id in Last(h)
    && Last(h)[id].revision <= h[from][id].revision
  }

  // Every claim, under any interleaving, happens while the claimed Change has
  // no writer, is at the planned revision and has a passing verification for it
  // and for the current task revision, provided the expected revision the
  // caller passed was already reached when its call began.
  lemma ClaimedChangeIsFresh(scope: Scope, h: History, ops: seq<StoreOp>, i: nat, id: string,
                             from: nat, plan: DeliveryPlan, k: nat)
    requires Run(scope, h, ops) && ClaimsAt(h, ops, i, id)
    requires Validated(h[..i + 1], from, plan) && k < |plan.steps| && plan.steps[k].changeId == id
    requires from <= i && id in h[from] && h[from][id].revision >= ops[i].rev
    ensures id in h[i] && ChangeFresh(h[i][id], plan.steps[k])
  {
    RunStep(scope, h, ops, i);
    ClaimFacts(scope, h, ops, i, id);
    assert Last(h[..i + 1]) == h[i];
    UnmovedStepIsStillFresh(scope, h[..i + 1], from, plan, k);
  }

  // The same for every reconciliation that gets past the revision comparison.
  lemma SettledChangeIsFresh(scope: Scope, h: History, ops: seq<StoreOp>, i: nat, id: string, rev: U64,
                             from: nat, plan: DeliveryPlan, k: nat)
    requires Run(scope, h, ops) && i < |ops| && ops[i].Update? && ops[i].change.Settle? && ops[i].rev == rev
    requires ops[i].id == id && id in h[i] && h[i][id].revision == rev
    requires Validated(h[..i + 1], from, plan) && k < |plan.steps| && plan.steps[k].changeId == id
    requires from <= i && id in h[from] && h[from][id].revision >= rev
    ensures ChangeFresh(h[i][id], plan.steps[k])
  {
    RunStep(scope, h, ops, i);
    assert Last(h[..i + 1]) == h[i];
    UnmovedStepIsStillFresh(scope, h[..i + 1], from, plan, k);
  }

  // Freshness of any Change of a reachable state comes down to three fields.
  lemma FreshnessExactlyWhen(scope: Scope, h: History, ops: seq<StoreOp>, i: nat, id: string, step: DeliveryStep)
    requires Run(scope, h, ops) && i < |h| && id in h[i]
    ensures ChangeFresh(h[i][id], step) <==>
              && h[i][id].writer.None?
              && h[i][id].materialized == Some(step.revision)
              && h[i][id].verification.Some? && h[i][id].verification.value.passed
  {
    RunPair(scope, h, ops, i, i, id);
    assert VerificationOk(h[i][id]);
  }

  // ----- other Changes of the plan -----

  // A plan passes the freshness check on the records it was computed from.
  lemma PlanIsFreshWhereComputed(changes: seq<ChangeRecord>, plan: DeliveryPlan)
    requires PlanOf(changes) == Ok(plan)
    ensures DistinctIds(changes) && PlanFresh(ById(changes), plan)
    ensures forall c :: c in changes ==> StepOf(plan.steps, c.changeId).Some?
  {
    PlanPlacesEachChangeAfterItsBase(changes);
    var m := ById(changes);
    forall k | 0 <= k < |plan.steps| ensures StepFresh(m, plan.steps[k]) {
      assert StepGood(m, plan.steps, k);
    }
    forall c | c in changes ensures StepOf(plan.steps, c.changeId).Some? {
      assert Within(plan.steps, c.changeId, |plan.steps|);
    }
  }

  // A check made entirely at one moment counts as a check that began then.
  lemma FreshAtMomentIsValidated(h: History, from: nat, plan: DeliveryPlan)
    requires from < |h| && PlanFresh(h[from], plan)
    ensures Validated(h, from, plan)
  {
    forall k | 0 <= k < |plan.steps| ensures SawStepFresh(h, from, plan.steps[k]) {
      assert StepFresh(h[from], plan.steps[k]);
      assert SawFreshAt(h, from, plan.steps[k], from);
    }
  }

  // ----- retries -----

  // As far as this Change is concerned only its delivery moved.
  predicate MovedByDelivery(m: Records, n: Records, id: string) {
    (id in m <==> id in n) && (id in m ==> DeliveryProgress(m[id], n[id]))
  }

  // Delivery progress of a plan's Changes and their bases leaves the plan as
  // fresh or stale as it was, whatever happens to other Changes.
  lemma DeliveryProgressKeepsPlanFresh(m: Records, n: Records, plan: DeliveryPlan)
    requires forall k :: 0 <= k < |plan.steps| ==>
               && MovedByDelivery(m, n, plan.steps[k].changeId)
               && (plan.steps[k].baseChange.Some? ==> MovedByDelivery(m, n, plan.steps[k].baseChange.value))
    ensures PlanFresh(n, plan) <==> PlanFresh(m, plan)
  {
    forall k | 0 <= k < |plan.steps| ensures StepFresh(n, plan.steps[k]) <==> StepFresh(m, plan.steps[k]) {
      assert MovedByDelivery(m, n, plan.steps[k].changeId);
    }
  }

  // After a claim, a retry under the same operation and plan replays the
  // receipt, whatever revision it expects, exactly while the plan is fresh and
  // the stack parent is delivered.
  lemma RetryReplaysExactlyWhen(scope: Scope, h: History, ops: seq<StoreOp>, i: nat, j: nat, id: string,
                                rev: U64, plan: DeliveryPlan, operation: Uuid)
    requires Run(scope, h, ops) && i <= j < |h| && id in h[i] && h[i][id].delivery.Some?
    requires h[i][id].delivery.value.operation == operation
    requires h[i][id].delivery.value.fingerprint == plan.fingerprint
    requires StepOf(plan.steps, id).Some?
    ensures Acceptable(h[j], id, rev, plan, operation)
            <==> PlanFresh(h[j], plan) && ParentDelivered(h[j], StepOf(plan.steps, id).value)
  {
    ReceiptIsPermanent(scope, h, ops, i, j, id);
  }

  // ----- recorded pull requests -----

  // A Completed receipt has its pull request and the branch at its revision.
  lemma CompletedHasPullRequest(scope: Scope, h: History, ops: seq<StoreOp>, i: nat, id: string)
    requires Run(scope, h, ops) && i < |h| && id in h[i] && h[i][id].delivery.Some?
    requires h[i][id].delivery.value.state == Completed
    ensures RecordedPr(h[i], id).Some?
    ensures h[i][id].delivery.value.branchRevision == Some(RecordedPr(h[i], id).value.revision)
  {
    RunPair(scope, h, ops, i, i, id);
    assert ReceiptOk(h[i], h[i][id].delivery.value, h[i][id]);
  }

  lemma ReleaseWithoutLeaseFails(scope: Scope, m: Records, id: string, rev: U64, lease: Lease)
    requires id in m && m[id].writer.None?
    ensures Execute(scope, m, Update(id, rev, Release(lease))).result.Err?
  {
  }

  lemma BindWithoutIntentDoesNothing(m: Records, id: string, rev: U64, operation: Uuid, workspace: string)
    requires id in m && !m[id].allocationPending
    ensures BindManaged(m, id, rev, operation, workspace).records == m
  {
  }

  lemma CompletedIsNotDelegated(scope: Scope, m: Records, id: string, rev: U64, operation: Uuid, task: string)
    requires id in m && m[id].delivery.Some? && m[id].delivery.value.state == Completed
    ensures Execute(scope, m, Update(id, rev, Delegate(operation, task))).records == m
  {
  }

  // What a Change reported ready for release has behind it: no lease is left to
  // give back, no workspace left to bind, and a delivery, if there was one, has
  // its pull request recorded and takes no delegated task any more.
  lemma ReleasableHasNothingOpen(scope: Scope, h: History, ops: seq<StoreOp>, i: nat, id: string, rev: U64,
                                 lease: Lease, operation: Uuid, workspace: string, task: string)
    requires Run(scope, h, ops) && i < |h| && id in h[i] && Releasable(h[i][id])
    ensures Execute(scope, h[i], Update(id, rev, Release(lease))).result.Err?
    ensures Execute(scope, h[i], Bind(id, rev, operation, workspace)).records == h[i]
    ensures h[i][id].delivery.Some? ==>
              && RecordedPr(h[i], id).Some?
              && Execute(scope, h[i], Update(id, rev, Delegate(operation, task))).records == h[i]
  {
    ReleaseWithoutLeaseFails(scope, h[i], id, rev, lease);
    BindWithoutIntentDoesNothing(h[i], id, rev, operation, workspace);
    if h[i][id].delivery.Some? {
      CompletedHasPullRequest(scope, h, ops, i, id);
      CompletedIsNotDelegated(scope, h[i], id, rev, operation, task);
    }
  }

  // One link of a stack: refs follow the base, and a stacked pull request names
  // the number recorded for its base.
  predicate PrLink(m: Records, id: string) {
    && id in m && RecordedPr(m, id).Some?
    && var pr := RecordedPr(m, id).value;
    && pr.number > 0 && pr.headRef == HeadRef(id) && pr.baseRef == BaseRef(m[id].base)
    && (match m[id].base
        case OriginMain => pr.stackParent.None? && !pr.stackLinked
        case OnChange(base) => RecordedPr(m, base).Some? && pr.stackLinked
                               && pr.stackParent == Some(RecordedPr(m, base).value.number))
  }

  lemma RecordedPrIsLinked(scope: Scope, m: Records, id: string)
    requires StateOk(scope, m) && RecordedPr(m, id).Some?
    ensures PrLink(m, id)
  {
    assert ReceiptOk(m, m[id].delivery.value, m[id]);
  }

  lemma {:induction false} ChainIsLinked(scope: Scope, m: Records, chain: seq<string>, k: nat)
    requires StateOk(scope, m) && Chain(Bases(m), chain) && k < |chain| && RecordedPr(m, chain[0]).Some?
    ensures PrLink(m, chain[k])
  {
    if k > 0 {
      ChainIsLinked(scope, m, chain, k - 1);
      assert Bases(m)[chain[k - 1]] == chain[k];
    }
    RecordedPrIsLinked(scope, m, chain[k]);
  }

  // From a recorded pull request the stack of its bases reaches main, and every
  // Change on the way has a recorded pull request stacked on the next one.
  lemma PullRequestsStackDownToMain(scope: Scope, h: History, ops: seq<StoreOp>, i: nat, id: string)
    returns (chain: seq<string>)
    requires Run(scope, h, ops) && i < |h| && RecordedPr(h[i], id).Some?
    ensures |chain| > 0 && chain[0] == id
    ensures forall k :: 0 <= k < |chain| ==> PrLink(h[i], chain[k])
    ensures forall k :: 0 <= k < |chain| - 1 ==> chain[k] in h[i] && h[i][chain[k]].base == OnChange(chain[k + 1])
    ensures chain[|chain| - 1] in h[i] && h[i][chain[|chain| - 1]].base == OriginMain
  {
    EveryRunIsOk(scope, h, ops);
    var m := h[i];
    assert StateOk(scope, m);
    chain := ChainReachesRoot(Bases(m), [id]);
    forall k | 0 <= k < |chain| ensures PrLink(m, chain[k]) {
      ChainIsLinked(scope, m, chain, k);
    }
  }
}
