// Examples that start from the empty store: runs in which the whole plan is not
// fresh at a write, and an import that leaves a stale verification.
module ReachableExamples {
  import opened Wrappers
  import opened Forest
  import opened ChangeModel
  import opened DeliveryPlanning
  import opened DeliveryPlanTheorems
  import opened ChangeStore
  import opened StoreInvariants
  import opened OperationEffects
  import opened Delivery
  import opened ChangeRuns
  import opened ChangeRunTheorems

  // ----- bringing a Change to where it can be delivered -----

  const READY: nat := 7

  // An unstacked Change after so many operations of its own.
  function Stage(scope: Scope, id: string, k: nat): ChangeRecord
    requires 1 <= k <= READY
  {
    var r1 := NewRecord(scope, id, id, None, None, OriginMain);
    var r2 := r1.(allocation := Some(Minted(0)), allocationPending := true, revision := 2);
    var r3 := r2.(workspace := Some(id), provisioning := Some(Minted(0)), allocationPending := false, revision := 3);
    var r4 := r3.(executions := [Execution("e", "codex", "codex", 1)], revision := 4);
    var r5 := r4.(logical := Some("l"), materialized := Some("r"), latestSnapshot := Some(Minted(1)), revision := 5);
    var r6 := r5.(taskRevision := 1, revision := 6);
    var r7 := r6.(verification := Some(Verification("r", 7, 1, true)), revision := 7);
    if k == 1 then r1 else if k == 2 then r2 else if k == 3 then r3 else if k == 4 then r4
    else if k == 5 then r5 else if k == 6 then r6 else r7
  }

  function StageOp(id: string, k: nat): StoreOp
    requires 1 <= k < READY
  {
    if k == 1 then Update(id, 1, Allocate(Minted(0)))
    else if k == 2 then Bind(id, 2, Minted(0), id)
    else if k == 3 then Update(id, 3, Append(Execution("e", "codex", "codex", 1)))
    else if k == 4 then Update(id, 4, Snapshot(Minted(1), "l", "r"))
    else if k == 5 then Update(id, 5, ObserveTask(1))
    else Update(id, 6, Stamp("r", true))
  }

  lemma StageStep(scope: Scope, m: Records, id: string, k: nat)
    requires 1 <= k < READY && Label(id) && id in m && m[id] == Stage(scope, id, k)
    requires k == 2 ==> !WorkspaceTaken(m, id, id)
    ensures Execute(scope, m, StageOp(id, k)).records == m[id := Stage(scope, id, k + 1)]
  {
    assert FindExecution([], "e").None?;
    if k == 2 {
      BindStep(m, id, Stage(scope, id, 2), Stage(scope, id, 3));
    } else {
      UpdateStep(m, id, k, StageOp(id, k).change, Stage(scope, id, k), Stage(scope, id, k + 1));
    }
  }

  lemma BindStep(m: Records, id: string, r: ChangeRecord, r': ChangeRecord)
    requires Label(id) && id in m && m[id] == r && !WorkspaceTaken(m, id, id) && r.revision == 2
    requires BindOf(Minted(0), id)(r).Ok? && BindOf(Minted(0), id)(r).value != r
    requires r' == BindOf(Minted(0), id)(r).value.(revision := 3)
    ensures BindManaged(m, id, 2, Minted(0), id).records == m[id := r']
  {
  }

  lemma UpdateStep(m: Records, id: string, rev: U64, change: RecordOp, r: ChangeRecord, r': ChangeRecord)
    requires Label(id) && id in m && m[id] == r && r.revision == rev < U64_MAX
    requires EffectOf(change)(r).Ok? && EffectOf(change)(r).value != r
    requires r' == EffectOf(change)(r).value.(revision := rev + 1)
    ensures UpdateWith(m, id, rev, EffectOf(change)).records == m[id := r']
  {
  }

  // ----- runs -----

  lemma ExtendRun(scope: Scope, h: History, ops: seq<StoreOp>, op: StoreOp)
    requires Run(scope, h, ops) && Allowed(h, op)
    ensures Run(scope, h + [Execute(scope, Last(h), op).records], ops + [op])
  {
    var n := Execute(scope, Last(h), op).records;
    var h', ops' := h + [n], ops + [op];
    forall i | 0 <= i < |ops'| ensures StepAt(scope, h', ops', i) {
      if i < |ops| {
        assert StepAt(scope, h, ops, i);
        assert h'[..i + 1] == h[..i + 1];
      } else {
        assert h'[..i + 1] == h;
      }
    }
  }

  lemma StageOpAllowed(scope: Scope, h: History, id: string, k: nat)
    requires |h| > 0 && 1 <= k < READY && id in Last(h) && Last(h)[id] == Stage(scope, id, k)
    ensures Allowed(h, StageOp(id, k))
  {
    if k >= 4 {
      assert Last(h)[id].executions != [];
      assert SawExecution(h, id);
    }
  }

  // From a Change just created, or anywhere on the way, to one that is ready.
  lemma {:induction false} RunToReady(scope: Scope, h: History, ops: seq<StoreOp>, id: string, k: nat)
    returns (h': History, ops': seq<StoreOp>)
    requires Run(scope, h, ops) && Label(id) && 1 <= k <= READY
    requires id in Last(h) && Last(h)[id] == Stage(scope, id, k) && !WorkspaceTaken(Last(h), id, id)
    ensures Run(scope, h', ops') && Last(h') == Last(h)[id := Stage(scope, id, READY)]
    decreases READY - k
  {
    if k == READY {
      h', ops' := h, ops;
    } else {
      var op := StageOp(id, k);
      var m := Last(h);
      StageStep(scope, m, id, k);
      StageOpAllowed(scope, h, id, k);
      ExtendRun(scope, h, ops, op);
      var n := m[id := Stage(scope, id, k + 1)];
      StillFree(m, id, Stage(scope, id, k + 1));
      h', ops' := RunToReady(scope, h + [n], ops + [op], id, k + 1);
      assert n[id := Stage(scope, id, READY)] == m[id := Stage(scope, id, READY)];
    }
  }

  lemma StillFree(m: Records, id: string, r: ChangeRecord)
    requires !WorkspaceTaken(m, id, id)
    ensures !WorkspaceTaken(m[id := r], id, id)
  {
    forall other | other in m && other != id ensures m[other].workspace != Some(id) {
    }
  }

  // A Change is created and brought to where it can be delivered.
  lemma RunWithReady(scope: Scope, h: History, ops: seq<StoreOp>, id: string)
    returns (h': History, ops': seq<StoreOp>)
    requires Run(scope, h, ops) && Label(id) && id !in Last(h)
    requires !TaskTaken(Last(h), id) && !WorkspaceTaken(Last(h), id, id)
    ensures Run(scope, h', ops') && Last(h') == Last(h)[id := Stage(scope, id, READY)]
  {
    var m := Last(h);
    var op := Create(id, id, None, None, OriginMain);
    ExtendRun(scope, h, ops, op);
    var n := m[id := Stage(scope, id, 1)];
    assert Execute(scope, m, op).records == n;
    StillFree(m, id, Stage(scope, id, 1));
    h', ops' := RunToReady(scope, h + [n], ops + [op], id, 1);
    assert n[id := Stage(scope, id, READY)] == m[id := Stage(scope, id, READY)];
  }

  // What is asked of a Change below: ready, unclaimed, nobody writing.
  predicate ReadyUnclaimed(r: ChangeRecord, id: string) {
    && r.changeId == id && r.base == OriginMain && Readiness(r).None?
    && r.revision == 7 && r.delivery.None? && r.materialized == Some("r")
    && IsLastExecution(r, "e") && r.writerGeneration == 0
  }

  lemma StageIsReady(scope: Scope, id: string)
    ensures ReadyUnclaimed(Stage(scope, id, READY), id)
  {
  }

  lemma RunWithBothReady(scope: Scope, x: string, y: string)
    returns (h: History, ops: seq<StoreOp>, a: ChangeRecord, b: ChangeRecord)
    requires Label(x) && Label(y) && x != y
    ensures Run(scope, h, ops) && Last(h) == map[x := a, y := b]
    ensures ReadyUnclaimed(a, x) && ReadyUnclaimed(b, y)
  {
    a, b := Stage(scope, x, READY), Stage(scope, y, READY);
    StageIsReady(scope, x);
    StageIsReady(scope, y);
    h, ops := [map[]], [];
    h, ops := RunWithReady(scope, h, ops, x);
    assert Last(h) == map[x := a];
    h, ops := RunWithReady(scope, h, ops, y);
  }

  // ----- the plan of both -----

  lemma PairById(a: ChangeRecord, b: ChangeRecord)
    requires a.changeId != b.changeId
    ensures DistinctIds([a, b]) && ById([a, b]) == map[a.changeId := a, b.changeId := b]
  {
    var m := ById([a, b]);
    assert a in [a, b] && b in [a, b];
    forall id | id in m ensures id == a.changeId || id == b.changeId {
      assert m[id] in [a, b];
    }
  }

  lemma UnstackedChangesPlan(changes: seq<ChangeRecord>)
    requires DistinctIds(changes)
    requires forall c :: c in changes ==> c.base == OriginMain && Readiness(c).None?
    ensures PlanOf(changes).Ok?
  {
    var m := ById(changes);
    var rank: map<string, nat> := map[];
    assert Bases(m) == map[];
    assert Ranks(Bases(m), rank);
    RankedHasNoCycle(Bases(m), rank);
    assert forall c :: c in changes ==> ReadyToDeliver(c);
    PlanSucceedsExactlyWhenDeliverable(changes);
  }

  function UnstackedStep(c: ChangeRecord): DeliveryStep
    requires c.materialized.Some?
  {
    DeliveryStep(c.changeId, c.materialized.value, HeadRef(c.changeId), "main", None, None, SinglePr)
  }

  lemma PlanOfUnstacked(changes: seq<ChangeRecord>) returns (plan: DeliveryPlan)
    requires DistinctIds(changes)
    requires forall c :: c in changes ==> c.base == OriginMain && Readiness(c).None?
    ensures PlanOf(changes) == Ok(plan) && PlanFresh(ById(changes), plan)
    ensures forall c :: c in changes ==> c.materialized.Some? && StepOf(plan.steps, c.changeId) == Some(UnstackedStep(c))
  {
    UnstackedChangesPlan(changes);
    plan := PlanOf(changes).value;
    PlanIsFreshWhereComputed(changes, plan);
    forall c | c in changes
      ensures c.materialized.Some? && StepOf(plan.steps, c.changeId) == Some(UnstackedStep(c))
    {
      PlannedStep(changes, plan, c.changeId);
    }
  }

  lemma PlanOfTwo(a: ChangeRecord, b: ChangeRecord, x: string, y: string) returns (plan: DeliveryPlan)
    requires ReadyUnclaimed(a, x) && ReadyUnclaimed(b, y) && x != y
    ensures PlanOf([a, b]) == Ok(plan) && DistinctIds([a, b]) && ById([a, b]) == map[x := a, y := b]
    ensures PlanFresh(map[x := a, y := b], plan)
    ensures StepOf(plan.steps, x) == Some(PlainStep(x)) && StepOf(plan.steps, y).Some?
  {
    PairById(a, b);
    plan := PlanOfUnstacked([a, b]);
    assert a in [a, b] && b in [a, b];
  }

  function PlainStep(x: string): DeliveryStep {
    DeliveryStep(x, "r", HeadRef(x), "main", None, None, SinglePr)
  }

  lemma PlannedStep(changes: seq<ChangeRecord>, plan: DeliveryPlan, id: string)
    requires PlanOf(changes) == Ok(plan) && StepOf(plan.steps, id).Some?
    ensures DistinctIds(changes) && id in ById(changes) && ById(changes)[id].materialized.Some?
    ensures ById(changes)[id].base == OriginMain ==>
              StepOf(plan.steps, id).value
              == DeliveryStep(id, ById(changes)[id].materialized.value, HeadRef(id), "main", None, None, SinglePr)
  {
    PlanPlacesEachChangeAfterItsBase(changes);
    var step := StepOf(plan.steps, id).value;
    var k :| 0 <= k < |plan.steps| && plan.steps[k] == step;
    GoodStepIs(ById(changes), plan.steps, k);
  }

  lemma GoodStepIs(m: Records, steps: seq<DeliveryStep>, k: nat)
    requires k < |steps| && StepGood(m, steps, k)
    ensures var id := steps[k].changeId;
            && id in m && m[id].materialized.Some?
            && (m[id].base == OriginMain ==>
                  steps[k] == DeliveryStep(id, m[id].materialized.value, HeadRef(id), "main", None, None, SinglePr))
  {
  }

  // A plan read at moment `at` lets its unstacked Changes be claimed at any later
  // revision that still has the planned snapshot.
  lemma UnstackedClaimIsAllowed(h: History, at: nat, changes: seq<ChangeRecord>, plan: DeliveryPlan, id: string,
                                operation: Uuid)
    requires at < |h| && PlanOf(changes) == Ok(plan) && DistinctIds(changes) && h[at] == ById(changes)
    requires StepOf(plan.steps, id).Some? && StepOf(plan.steps, id).value.baseChange.None?
    requires id in Last(h) && Last(h)[id].delivery.None?
    requires Last(h)[id].materialized == Some(StepOf(plan.steps, id).value.revision)
    ensures Allowed(h, Update(id, Last(h)[id].revision, Claim(operation, plan.fingerprint)))
  {
    PlanIsRead(h, at, changes, plan);
    assert SawUnclaimed(h, at, id, Last(h)[id].revision, StepOf(plan.steps, id).value);
    assert ClaimReached(h, at, id, Last(h)[id].revision, plan);
  }

  lemma UnstackedSettleIsAllowed(h: History, at: nat, changes: seq<ChangeRecord>, plan: DeliveryPlan, id: string,
                                 rev: U64, operation: Uuid, seen: Observation)
    requires at < |h| && PlanOf(changes) == Ok(plan) && DistinctIds(changes) && h[at] == ById(changes)
    requires StepOf(plan.steps, id).Some? && StepOf(plan.steps, id).value.baseChange.None?
    ensures Allowed(h, Update(id, rev, Settle(plan, None, operation, seen)))
  {
    PlanIsRead(h, at, changes, plan);
    assert SettleReached(h, at, id, plan, None);
  }

  lemma PlanIsRead(h: History, at: nat, changes: seq<ChangeRecord>, plan: DeliveryPlan)
    requires at < |h| && PlanOf(changes) == Ok(plan) && DistinctIds(changes) && h[at] == ById(changes)
    ensures Planned(h, plan) && Validated(h, at, plan)
  {
    PlanIsFreshWhereComputed(changes, plan);
    FreshAtMomentIsValidated(h, at, plan);
    forall x | x in changes ensures Saw(h, x) {
      assert h[at][x.changeId] == x;
    }
  }

  // ----- what goes wrong -----

  function Granted(r: ChangeRecord): ChangeRecord
    requires r.revision < U64_MAX
  {
    r.(writer := Some(Lease("e", 1)), writerGeneration := 1, revision := r.revision + 1)
  }

  function ClaimedUnder(r: ChangeRecord, fingerprint: Fingerprint): ChangeRecord
    requires r.revision < U64_MAX
  {
    r.(delivery := Some(NewReceipt(Minted(2), fingerprint)), revision := r.revision + 1)
  }

  lemma RunOneMore(scope: Scope, h: History, ops: seq<StoreOp>, op: StoreOp)
    returns (h': History, ops': seq<StoreOp>)
    requires Run(scope, h, ops) && Allowed(h, op)
    ensures Run(scope, h', ops') && ops' == ops + [op]
    ensures h' == h + [Execute(scope, Last(h), op).records]
  {
    ExtendRun(scope, h, ops, op);
    h', ops' := h + [Execute(scope, Last(h), op).records], ops + [op];
  }

  lemma StaleWithWriter(m: Records, plan: DeliveryPlan, id: string)
    requires id in m && m[id].writer.Some? && StepOf(plan.steps, id).Some?
    ensures !PlanFresh(m, plan)
  {
    var step := StepOf(plan.steps, id).value;
    var k :| 0 <= k < |plan.steps| && plan.steps[k] == step;
    assert !StepFresh(m, plan.steps[k]);
  }

  // A run that ends with two ready Changes, and their plan.
  lemma Prepared(scope: Scope, x: string, y: string)
    returns (h: History, ops: seq<StoreOp>, a: ChangeRecord, b: ChangeRecord, changes: seq<ChangeRecord>, plan: DeliveryPlan)
    requires Label(x) && Label(y) && x != y
    ensures Run(scope, h, ops) && Last(h) == map[x := a, y := b]
    ensures ReadyUnclaimed(a, x) && ReadyUnclaimed(b, y)
    ensures PlanOf(changes) == Ok(plan) && DistinctIds(changes) && ById(changes) == Last(h) && PlanFresh(Last(h), plan)
    ensures StepOf(plan.steps, x) == Some(PlainStep(x)) && StepOf(plan.steps, y).Some?
  {
    h, ops, a, b := RunWithBothReady(scope, x, y);
    changes := [a, b];
    plan := PlanOfTwo(a, b, x, y);
  }

  // A ready Change is granted a writer.
  lemma RunGrant(scope: Scope, h: History, ops: seq<StoreOp>, id: string, r: ChangeRecord)
    returns (h': History, ops': seq<StoreOp>)
    requires Run(scope, h, ops) && Label(id) && id in Last(h) && Last(h)[id] == r && ReadyUnclaimed(r, id)
    ensures Run(scope, h', ops') && ops' == ops + [Update(id, 7, Handoff(None, "e"))]
    ensures h' == h + [Last(h)[id := Granted(r)]]
  {
    UpdateStep(Last(h), id, 7, Handoff(None, "e"), r, Granted(r));
    h', ops' := RunOneMore(scope, h, ops, Update(id, 7, Handoff(None, "e")));
  }

  lemma ClaimOneMore(scope: Scope, h: History, ops: seq<StoreOp>, at: nat, changes: seq<ChangeRecord>, plan: DeliveryPlan, x: string)
    returns (h': History, ops': seq<StoreOp>)
    requires Run(scope, h, ops) && at < |h| && PlanOf(changes) == Ok(plan) && DistinctIds(changes) && Label(x)
    requires h[at] == ById(changes) && StepOf(plan.steps, x) == Some(PlainStep(x))
    requires x in Last(h) && Last(h)[x].delivery.None? && Last(h)[x].materialized == Some("r")
    ensures var op := Update(x, Last(h)[x].revision, Claim(Minted(2), plan.fingerprint));
            Run(scope, h', ops') && ops' == ops + [op] && h' == h + [Execute(scope, Last(h), op).records]
  {
    UnstackedClaimIsAllowed(h, at, changes, plan, x, Minted(2));
    h', ops' := RunOneMore(scope, h, ops, Update(x, Last(h)[x].revision, Claim(Minted(2), plan.fingerprint)));
  }

  // x is claimed under a plan that was read at moment `at`.
  lemma RunClaim(scope: Scope, h: History, ops: seq<StoreOp>, at: nat, changes: seq<ChangeRecord>, plan: DeliveryPlan,
                 x: string, r: ChangeRecord)
    returns (h': History, ops': seq<StoreOp>)
    requires Run(scope, h, ops) && at < |h| && PlanOf(changes) == Ok(plan) && DistinctIds(changes) && Label(x)
    requires h[at] == ById(changes) && StepOf(plan.steps, x) == Some(PlainStep(x))
    requires x in Last(h) && Last(h)[x] == r && r.delivery.None? && r.materialized == Some("r")
    requires r.revision < U64_MAX
    ensures Run(scope, h', ops') && ops' == ops + [Update(x, r.revision, Claim(Minted(2), plan.fingerprint))]
    ensures h' == h + [Last(h)[x := ClaimedUnder(r, plan.fingerprint)]]
    ensures Execute(scope, Last(h), Update(x, r.revision, Claim(Minted(2), plan.fingerprint))).result.Ok?
  {
    ClaimExecutes(scope, Last(h), x, r.revision, Minted(2), plan.fingerprint);
    h', ops' := ClaimOneMore(scope, h, ops, at, changes, plan, x);
  }

  // The freshness check and the claim are separate critical sections, and the
  // claim compares the revision of its own Change only. In this run the plan is
  // fresh, then y is granted a writer, and then the claim on x succeeds.
  lemma SiblingCanTakeWriterBeforeClaim(scope: Scope, x: string, y: string)
    returns (h: History, ops: seq<StoreOp>, plan: DeliveryPlan)
    requires Label(x) && Label(y) && x != y
    ensures Run(scope, h, ops) && |ops| >= 2
    ensures var i := |ops| - 1;
            && PlanFresh(h[i - 1], plan) && StepOf(plan.steps, y).Some?
            && ops[i - 1] == Update(y, 7, Handoff(None, "e"))
            && ops[i] == Update(x, 7, Claim(Minted(2), plan.fingerprint))
            && Execute(scope, h[i], ops[i]).result.Ok?
            && y in h[i] && h[i][y].writer.Some? && !PlanFresh(h[i], plan)
  {
    var a, b, changes;
    h, ops, a, b, changes, plan := Prepared(scope, x, y);
    var at := |h| - 1;
    h, ops := RunGrant(scope, h, ops, y, b);
    StaleWithWriter(Last(h), plan, y);
    h, ops := RunClaim(scope, h, ops, at, changes, plan, x, a);
  }

  // The claim compares the revision the caller expects, not the one that was
  // checked. In this run a caller expects revision 8 of x, which is only
  // reached after the check, by a grant, and the claim succeeds with the writer
  // held.
  lemma UnreachedRevisionCanBeClaimedWithWriter(scope: Scope, x: string, y: string)
    returns (h: History, ops: seq<StoreOp>, plan: DeliveryPlan)
    requires Label(x) && Label(y) && x != y
    ensures Run(scope, h, ops) && |ops| >= 2
    ensures var i := |ops| - 1;
            && PlanFresh(h[i - 1], plan) && x in h[i - 1] && h[i - 1][x].revision == 7
            && ops[i - 1] == Update(x, 7, Handoff(None, "e"))
            && ops[i] == Update(x, 8, Claim(Minted(2), plan.fingerprint))
            && Execute(scope, h[i], ops[i]).result.Ok?
            && x in h[i] && h[i][x].writer.Some? && !PlanFresh(h[i], plan)
  {
    var a, b, changes;
    h, ops, a, b, changes, plan := Prepared(scope, x, y);
    var at := |h| - 1;
    h, ops := RunGrant(scope, h, ops, x, a);
    StaleWithWriter(Last(h), plan, x);
    h, ops := RunClaim(scope, h, ops, at, changes, plan, x, Granted(a));
  }

  function SeenPr(x: string): Observation {
    Observation(Some("r"), Some(PullRequest(1, HeadRef(x), "main", "r", "https://", None, false)))
  }

  lemma SettleStep(scope: Scope, m: Records, plan: DeliveryPlan, x: string, a: ChangeRecord)
    requires Label(x) && plan.fingerprint == Digest(plan.steps)
    requires StepOf(plan.steps, x) == Some(PlainStep(x))
    requires ReadyUnclaimed(a, x) && x in m && m[x] == ClaimedUnder(a, plan.fingerprint)
    ensures CompletesAt(scope, m, Update(x, 8, Settle(plan, None, Minted(2), SeenPr(x))))
  {
    var op := Settle(plan, None, Minted(2), SeenPr(x));
    var r := m[x];
    var d := r.delivery.value;
    var settled := d.(branchRevision := Some("r"), pullRequest := SeenPr(x).pullRequest, state := Completed);
    SettledReceipt(d, StepOf(plan.steps, x).value, x);
    UpdateStep(m, x, 8, op, r, r.(delivery := Some(settled), revision := 9));
    assert Effect(op, r).value == r.(delivery := Some(settled));
    UpdateAnswer(m, x, 8, EffectOf(op));
  }

  lemma SettledReceipt(d: DeliveryReceipt, step: DeliveryStep, x: string)
    requires step == PlainStep(x) && d.pullRequest.None?
    ensures ReconcileReceipt(d, step, None, SeenPr(x))
            == Ok(d.(branchRevision := Some("r"), pullRequest := SeenPr(x).pullRequest, state := Completed))
  {
  }

  lemma UpdateAnswer(m: Records, id: string, rev: U64, f: ChangeRecord -> Outcome)
    requires Label(id) && id in m && m[id].revision == rev < U64_MAX && f(m[id]).Ok? && f(m[id]).value != m[id]
    ensures UpdateWith(m, id, rev, f).result == Ok(f(m[id]).value.(revision := rev + 1))
  {
  }

  // The same for a reconciliation: the plan is fresh when x is claimed, then
  // y is granted a writer, and then the delivery of x is completed.
  lemma SiblingCanTakeWriterBeforeReconciliation(scope: Scope, x: string, y: string)
    returns (h: History, ops: seq<StoreOp>, plan: DeliveryPlan)
    requires Label(x) && Label(y) && x != y
    ensures Run(scope, h, ops) && |ops| >= 2
    ensures var i := |ops| - 1;
            && PlanFresh(h[i - 1], plan) && StepOf(plan.steps, y).Some?
            && ops[i - 1] == Update(y, 7, Handoff(None, "e"))
            && ops[i] == Update(x, 8, Settle(plan, None, Minted(2), SeenPr(x)))
            && CompletesAt(scope, h[i], ops[i])
            && y in h[i] && h[i][y].writer.Some? && !PlanFresh(h[i], plan)
  {
    var a, b, changes;
    h, ops, a, b, changes, plan := Prepared(scope, x, y);
    var at, m := |h| - 1, Last(h);
    h, ops := RunClaim(scope, h, ops, at, changes, plan, x, a);
    ClaimKeepsPlanFresh(m, Last(h), plan, x);
    h, ops := RunGrant(scope, h, ops, y, b);
    StaleWithWriter(Last(h), plan, y);
    SettleStep(scope, Last(h), plan, x, a);
    h, ops := SettleOneMore(scope, h, ops, at, changes, plan, x, 8, SeenPr(x));
  }

  lemma SettleOneMore(scope: Scope, h: History, ops: seq<StoreOp>, at: nat, changes: seq<ChangeRecord>, plan: DeliveryPlan,
                      x: string, rev: U64, seen: Observation)
    returns (h': History, ops': seq<StoreOp>)
    requires Run(scope, h, ops) && at < |h| && PlanOf(changes) == Ok(plan) && DistinctIds(changes) && Label(x)
    requires h[at] == ById(changes) && StepOf(plan.steps, x) == Some(PlainStep(x))
    ensures var op := Update(x, rev, Settle(plan, None, Minted(2), seen));
            Run(scope, h', ops') && ops' == ops + [op] && h' == h + [Execute(scope, Last(h), op).records]
  {
    UnstackedSettleIsAllowed(h, at, changes, plan, x, rev, Minted(2), seen);
    h', ops' := RunOneMore(scope, h, ops, Update(x, rev, Settle(plan, None, Minted(2), seen)));
  }

  // The Change is claimed under this plan, and so far has this receipt.
  predicate UnderDelivery(r: ChangeRecord, x: string, fingerprint: Fingerprint, d: DeliveryReceipt) {
    && r.changeId == x && r.materialized == Some("r") && r.delivery == Some(d)
    && d.operation == Minted(2) && d.fingerprint == fingerprint
  }

  lemma SettleWrites(scope: Scope, m: Records, plan: DeliveryPlan, x: string, r: ChangeRecord, d: DeliveryReceipt,
                     seen: Observation)
    requires Label(x) && StepOf(plan.steps, x) == Some(PlainStep(x))
    requires x in m && m[x] == r && r.revision < U64_MAX && UnderDelivery(r, x, plan.fingerprint, d)
    requires !OtherPullRequest(d, PlainStep(x), None, seen) && ReceiptAfter(d, PlainStep(x), None, seen) != d
    ensures var w := r.(delivery := Some(ReceiptAfter(d, PlainStep(x), None, seen)), revision := r.revision + 1);
            Execute(scope, m, Update(x, r.revision, Settle(plan, None, Minted(2), seen))) == Executed(m[x := w], Ok(w))
  {
    ReceiptIsSettled(d, PlainStep(x), None, seen);
    SettleBehaves(scope, m, x, r.revision, plan, None, Minted(2), seen, PlainStep(x));
  }

  // x is settled by an observation that changes its receipt.
  lemma RunSettle(scope: Scope, h: History, ops: seq<StoreOp>, at: nat, changes: seq<ChangeRecord>, plan: DeliveryPlan,
                  x: string, r: ChangeRecord, d: DeliveryReceipt, seen: Observation)
    returns (h': History, ops': seq<StoreOp>)
    requires Run(scope, h, ops) && at < |h| && PlanOf(changes) == Ok(plan) && DistinctIds(changes) && Label(x)
    requires h[at] == ById(changes) && StepOf(plan.steps, x) == Some(PlainStep(x))
    requires x in Last(h) && Last(h)[x] == r && r.revision < U64_MAX && UnderDelivery(r, x, plan.fingerprint, d)
    requires !OtherPullRequest(d, PlainStep(x), None, seen) && ReceiptAfter(d, PlainStep(x), None, seen) != d
    ensures var w := r.(delivery := Some(ReceiptAfter(d, PlainStep(x), None, seen)), revision := r.revision + 1);
            && Run(scope, h', ops') && ops' == ops + [Update(x, r.revision, Settle(plan, None, Minted(2), seen))]
            && h' == h + [Last(h)[x := w]]
            && Execute(scope, Last(h), Update(x, r.revision, Settle(plan, None, Minted(2), seen))).result == Ok(w)
  {
    SettleWrites(scope, Last(h), plan, x, r, d, seen);
    h', ops' := SettleOneMore(scope, h, ops, at, changes, plan, x, r.revision, seen);
  }

  // The delivery of x was completed, and then its branch is seen elsewhere: the
  // receipt needs reconciliation again.
  lemma CompletedDeliveryCanNeedReconciliation(scope: Scope, x: string, y: string)
    returns (h: History, ops: seq<StoreOp>, plan: DeliveryPlan)
    requires Label(x) && Label(y) && x != y
    ensures Run(scope, h, ops) && |ops| >= 2
    ensures var i := |ops| - 1;
            && ops[i] == Update(x, 9, Settle(plan, None, Minted(2), Observation(Some("z"), None)))
            && x in h[i] && h[i][x].delivery.Some? && h[i][x].delivery.value.state == Completed
            && Execute(scope, h[i], ops[i]).result.Ok?
            && x in h[i + 1] && h[i + 1][x].delivery.Some?
            && h[i + 1][x].delivery.value.state == ReconciliationRequired
            && h[i + 1][x].delivery.value.pullRequest == h[i][x].delivery.value.pullRequest
  {
    var a, b, changes;
    h, ops, a, b, changes, plan := Prepared(scope, x, y);
    var at := |h| - 1;
    h, ops := RunClaim(scope, h, ops, at, changes, plan, x, a);
    var r := ClaimedUnder(a, plan.fingerprint);
    var d := CompletedFrom(r, x, plan.fingerprint);
    h, ops := RunSettle(scope, h, ops, at, changes, plan, x, r, r.delivery.value, SeenPr(x));
    MovedAway(d, x);
    h, ops := RunSettle(scope, h, ops, at, changes, plan, x, r.(delivery := Some(d), revision := 9), d,
                        Observation(Some("z"), None));
  }

  lemma CompletedFrom(r: ChangeRecord, x: string, fingerprint: Fingerprint) returns (d: DeliveryReceipt)
    requires r.delivery == Some(NewReceipt(Minted(2), fingerprint))
    ensures d == ReceiptAfter(r.delivery.value, PlainStep(x), None, SeenPr(x)) && d != r.delivery.value
    ensures !OtherPullRequest(r.delivery.value, PlainStep(x), None, SeenPr(x))
    ensures d.state == Completed && d.operation == Minted(2) && d.fingerprint == fingerprint
  {
    d := ReceiptAfter(r.delivery.value, PlainStep(x), None, SeenPr(x));
    assert SeenPr(x).pullRequest.value.url[..8] == "https://";
  }

  lemma MovedAway(d: DeliveryReceipt, x: string)
    requires d.state == Completed
    ensures var seen := Observation(Some("z"), None);
            && !OtherPullRequest(d, PlainStep(x), None, seen)
            && ReceiptAfter(d, PlainStep(x), None, seen) == d.(state := ReconciliationRequired)
  {
  }

  predicate CompletesAt(scope: Scope, m: Records, op: StoreOp) {
    var res := Execute(scope, m, op).result;
    res.Ok? && res.value.delivery.Some? && res.value.delivery.value.state == Completed
  }

  lemma ClaimKeepsPlanFresh(m: Records, n: Records, plan: DeliveryPlan, x: string)
    requires PlanFresh(m, plan) && x in m && x in n && m[x].revision < U64_MAX
    requires n == m[x := m[x].(delivery := n[x].delivery, revision := m[x].revision + 1)]
    ensures PlanFresh(n, plan)
  {
    DeliveryProgressKeepsPlanFresh(m, n, plan);
  }

  // ----- an import outside the callers' guards -----

  // The store after these operations, whoever asked for them.
  function After(scope: Scope, ops: seq<StoreOp>): Records {
    if ops == [] then map[]
    else Execute(scope, After(scope, ops[..|ops| - 1]), ops[|ops| - 1]).records
  }

  lemma AfterOneMore(scope: Scope, ops: seq<StoreOp>, op: StoreOp)
    ensures After(scope, ops + [op]) == Execute(scope, After(scope, ops), op).records
  {
    assert (ops + [op])[..|ops|] == ops;
  }

  function ReservedStart(): InitialStart {
    InitialStart(Minted(2), "f", Minted(3), "e", false, false, None)
  }

  // A Change whose first start is reserved and dispatched, and which, unlike any
  // Change the callers handle, is observed and verified before its import.
  function EarlyStage(scope: Scope, id: string, k: nat): ChangeRecord
    requires 3 <= k <= 8
  {
    var r3 := Stage(scope, id, 3);
    var r4 := r3.(initialStart := Some(ReservedStart()), revision := 4);
    var r5 := r4.(initialStart := Some(ReservedStart().(dispatched := true)), revision := 5);
    var r6 := r5.(logical := Some("l"), materialized := Some("old"), latestSnapshot := Some(Minted(1)), revision := 6);
    var r7 := r6.(taskRevision := 1, revision := 7);
    var r8 := r7.(verification := Some(Verification("old", 8, 1, true)), revision := 8);
    if k == 3 then r3 else if k == 4 then r4 else if k == 5 then r5 else if k == 6 then r6 else if k == 7 then r7 else r8
  }

  function EarlyOp(k: nat): RecordOp
    requires 3 <= k < 8
  {
    if k == 3 then Reserve(ReservedStart())
    else if k == 4 then MarkAttempt(Minted(3))
    else if k == 5 then Snapshot(Minted(1), "l", "old")
    else if k == 6 then ObserveTask(1)
    else Stamp("old", true)
  }

  lemma EarlyStep(scope: Scope, m: Records, id: string, k: nat)
    requires 3 <= k < 8 && Label(id) && id in m && m[id] == EarlyStage(scope, id, k)
    ensures Execute(scope, m, Update(id, k, EarlyOp(k))).records == m[id := EarlyStage(scope, id, k + 1)]
  {
    UpdateStep(m, id, k, EarlyOp(k), EarlyStage(scope, id, k), EarlyStage(scope, id, k + 1));
  }

  // The operations that make the store `map[id := r]` bring it on to stage 8.
  lemma {:induction false} ReachEarly(scope: Scope, ops: seq<StoreOp>, id: string, k: nat) returns (ops': seq<StoreOp>)
    requires 3 <= k <= 8 && Label(id) && After(scope, ops) == map[id := EarlyStage(scope, id, k)]
    ensures After(scope, ops') == map[id := EarlyStage(scope, id, 8)]
    decreases 8 - k
  {
    if k == 8 {
      ops' := ops;
    } else {
      var op := Update(id, k, EarlyOp(k));
      EarlyStep(scope, After(scope, ops), id, k);
      AfterOneMore(scope, ops, op);
      ops' := ReachEarly(scope, ops + [op], id, k + 1);
    }
  }

  lemma AfterCreation(scope: Scope, id: string) returns (ops: seq<StoreOp>)
    requires Label(id)
    ensures After(scope, ops) == map[id := Stage(scope, id, 1)]
  {
    var op := Create(id, id, None, None, OriginMain);
    AfterOneMore(scope, [], op);
    ops := [] + [op];
  }

  lemma {:induction false} ReachBound(scope: Scope, ops: seq<StoreOp>, id: string, k: nat) returns (ops': seq<StoreOp>)
    requires 1 <= k <= 3 && Label(id) && After(scope, ops) == map[id := Stage(scope, id, k)]
    ensures After(scope, ops') == map[id := Stage(scope, id, 3)]
    decreases 3 - k
  {
    if k == 3 {
      ops' := ops;
    } else {
      StageStep(scope, After(scope, ops), id, k);
      AfterOneMore(scope, ops, StageOp(id, k));
      ops' := ReachBound(scope, ops + [StageOp(id, k)], id, k + 1);
    }
  }

  // Operations of the store alone, without the callers' guards, reach a Change
  // whose verification names its revision and whose import then succeeds and
  // leaves a verification of the revision it replaced.
  lemma ImportCanLeaveStaleVerification(scope: Scope, id: string) returns (ops: seq<StoreOp>)
    requires Label(id)
    ensures var m := After(scope, ops);
            var e := Execute(scope, m, Update(id, 8, VerifyInitial(Minted(3), "l", "new", "v")));
            && id in m && VerificationNamesRevision(m[id]) && m[id].verification.Some?
            && e.result.Ok? && !VerificationNamesRevision(e.result.value)
            && id in e.records && e.records[id] == e.result.value
  {
    ops := AfterCreation(scope, id);
    ops := ReachBound(scope, ops, id, 1);
    ops := ReachEarly(scope, ops, id, 3);
    ImportStep(scope, After(scope, ops), id);
  }

  lemma ImportStep(scope: Scope, m: Records, id: string)
    requires Label(id) && id in m && m[id] == EarlyStage(scope, id, 8)
    ensures var e := Execute(scope, m, Update(id, 8, VerifyInitial(Minted(3), "l", "new", "v")));
            && VerificationNamesRevision(m[id]) && m[id].verification.Some?
            && e.result.Ok? && !VerificationNamesRevision(e.result.value)
            && id in e.records && e.records[id] == e.result.value
  {
    var op := VerifyInitial(Minted(3), "l", "new", "v");
    var r := m[id];
    var r' := r.(initialStart := Some(ReservedStart().(dispatched := true, verified := true, vcsOperation := Some("v"))),
                 materialized := Some("new"), latestSnapshot := Some(Minted(3)));
    assert Effect(op, r) == Ok(r');
    UpdateStep(m, id, 8, op, r, r'.(revision := 9));
    UpdateAnswer(m, id, 8, EffectOf(op));
  }
}
