// The life of a Change is a run: from the empty store through its first start,
// its verification and the delivery of its plan to the completed receipt.
module ChangeLife {
  import opened Wrappers
  import opened ChangeModel
  import opened DeliveryPlanning
  import opened DeliveryPlanTheorems
  import opened ChangeStore
  import opened StoreInvariants
  import opened OperationEffects
  import opened Delivery
  import opened ChangeRuns
  import opened ReachableExamples

  // The operation is accepted on this record and leaves that one.
  predicate Turns(op: RecordOp, r: ChangeRecord, w: ChangeRecord) {
    ArgumentError(op).None? && Effect(op, r).Ok? && Effect(op, r).value != r && r.revision < U64_MAX
    && w == Effect(op, r).value.(revision := r.revision + 1)
  }

  // What a caller may ask for this record without having read anything.
  predicate Free(op: RecordOp, r: ChangeRecord) {
    match op
    case Claim(_, _) => false
    case Settle(_, _, _, _) => false
    case Snapshot(_, _, _) => r.executions != []
    case Stamp(_, _) => r.executions != []
    case Reserve(start) => Unstarted(start)
    case PrepareObserver(operation, observation) => observation == Derived(operation, OBSERVATION_NAME)
    case _ => true
  }

  lemma FreeIsAllowed(h: History, id: string, rev: U64, op: RecordOp)
    requires |h| > 0 && id in Last(h) && Free(op, Last(h)[id])
    ensures Allowed(h, Update(id, rev, op))
  {
    if op.Snapshot? || op.Stamp? {
      assert Last(h)[id].executions != [];
      assert SawExecution(h, id);
    }
  }

  lemma TurnedUpdate(scope: Scope, m: Records, id: string, op: RecordOp, r: ChangeRecord, w: ChangeRecord)
    requires Label(id) && id in m && m[id] == r && Turns(op, r, w)
    ensures Execute(scope, m, Update(id, r.revision, op)) == Executed(m[id := w], Ok(w)) && w.revision == r.revision + 1
  {
  }

  lemma RunTurns(scope: Scope, h: History, ops: seq<StoreOp>, id: string, op: RecordOp, r: ChangeRecord, w: ChangeRecord)
    returns (h': History, ops': seq<StoreOp>)
    requires Run(scope, h, ops) && Label(id) && Last(h) == map[id := r] && Turns(op, r, w)
    requires Allowed(h, Update(id, r.revision, op))
    ensures Run(scope, h', ops') && ops' == ops + [Update(id, r.revision, op)] && h' == h + [map[id := w]]
    ensures w.revision == r.revision + 1
  {
    TurnedUpdate(scope, Last(h), id, op, r, w);
    assert map[id := r][id := w] == map[id := w];
    h', ops' := RunOneMore(scope, h, ops, Update(id, r.revision, op));
  }

  // A list of operations with the records they lead through.
  ghost predicate Script(changes: seq<RecordOp>, stages: seq<ChangeRecord>) {
    && |stages| == |changes| + 1
    && forall j :: 0 <= j < |changes| ==> Turns(changes[j], stages[j], stages[j + 1]) && Free(changes[j], stages[j])
  }

  // These updates of one Change, at whatever revisions.
  predicate UpdatesOf(made: seq<StoreOp>, id: string, changes: seq<RecordOp>) {
    |made| == |changes|
    && forall j :: 0 <= j < |made| ==> made[j].Update? && made[j].id == id && made[j].change == changes[j]
  }

  lemma {:induction false} RunScript(scope: Scope, h: History, ops: seq<StoreOp>, id: string, changes: seq<RecordOp>,
                                     stages: seq<ChangeRecord>, n: nat)
    returns (h': History, made: seq<StoreOp>)
    requires Run(scope, h, ops) && Label(id) && Script(changes, stages) && n <= |changes|
    requires Last(h) == map[id := stages[0]]
    ensures Run(scope, h', ops + made) && h <= h' && Last(h') == map[id := stages[n]]
    ensures UpdatesOf(made, id, changes[..n])
  {
    if n == 0 {
      h', made := h, [];
      assert ops + [] == ops;
    } else {
      h', made := RunScript(scope, h, ops, id, changes, stages, n - 1);
      FreeIsAllowed(h', id, stages[n - 1].revision, changes[n - 1]);
      var ops';
      h', ops' := RunTurns(scope, h', ops + made, id, changes[n - 1], stages[n - 1], stages[n]);
      var last := [Update(id, stages[n - 1].revision, changes[n - 1])];
      assert ops' == ops + (made + last) && changes[..n] == changes[..n - 1] + [changes[n - 1]];
      made := made + last;
    }
  }

  // Created, given an allocation and bound.
  lemma {:induction false} RunToBound(scope: Scope, id: string, k: nat) returns (h: History, ops: seq<StoreOp>)
    requires Label(id) && 1 <= k <= 3
    ensures Run(scope, h, ops) && Last(h) == map[id := Stage(scope, id, k)] && |ops| == k
    ensures ops[0] == Create(id, id, None, None, OriginMain)
    ensures forall j :: 1 <= j < k ==> ops[j] == StageOp(id, j)
  {
    if k == 1 {
      h, ops := RunOneMore(scope, [map[]], [], Create(id, id, None, None, OriginMain));
    } else {
      h, ops := RunToBound(scope, id, k - 1);
      StageStep(scope, Last(h), id, k - 1);
      StageOpAllowed(scope, h, id, k - 1);
      h, ops := RunOneMore(scope, h, ops, StageOp(id, k - 1));
    }
  }

  // ----- the first start and the verification -----

  // After so many operations: bound, reserved, dispatched, imported, appended,
  // granted, released, observed, verified.
  function LifeStage(scope: Scope, id: string, k: nat): ChangeRecord
    requires k <= 8
  {
    var start := ReservedStart();
    var r0 := Stage(scope, id, 3);
    var r1 := r0.(initialStart := Some(start), revision := 4);
    var r2 := r1.(initialStart := Some(start.(dispatched := true)), revision := 5);
    var r3 := r2.(initialStart := Some(start.(dispatched := true, verified := true, vcsOperation := Some("v"))),
                  logical := Some("l"), materialized := Some("r"), latestSnapshot := Some(Minted(3)), revision := 6);
    var r4 := r3.(executions := [Execution("e", "codex", "codex", 1)], revision := 7);
    var r5 := r4.(writer := Some(Lease("e", 1)), writerGeneration := 1, revision := 8);
    var r6 := r5.(writer := None, revision := 9);
    var r7 := r6.(taskRevision := 1, revision := 10);
    var r8 := r7.(verification := Some(Verification("r", 11, 1, true)), revision := 11);
    if k == 0 then r0 else if k == 1 then r1 else if k == 2 then r2 else if k == 3 then r3 else if k == 4 then r4
    else if k == 5 then r5 else if k == 6 then r6 else if k == 7 then r7 else r8
  }

  function LifeOp(k: nat): RecordOp
    requires k < 8
  {
    if k == 0 then Reserve(ReservedStart())
    else if k == 1 then MarkAttempt(Minted(3))
    else if k == 2 then VerifyInitial(Minted(3), "l", "r", "v")
    else if k == 3 then Append(Execution("e", "codex", "codex", 1))
    else if k == 4 then Handoff(None, "e")
    else if k == 5 then Release(Lease("e", 1))
    else if k == 6 then ObserveTask(1)
    else Stamp("r", true)
  }

  lemma LifeTurns(scope: Scope, id: string, k: nat)
    requires k < 8
    ensures Turns(LifeOp(k), LifeStage(scope, id, k), LifeStage(scope, id, k + 1))
    ensures Free(LifeOp(k), LifeStage(scope, id, k))
  {
    if k < 4 {
      EarlyTurns(scope, id, k);
    } else {
      LateTurns(scope, id, k);
    }
  }

  lemma EarlyTurns(scope: Scope, id: string, k: nat)
    requires k < 4
    ensures Turns(LifeOp(k), LifeStage(scope, id, k), LifeStage(scope, id, k + 1))
  {
    assert FindExecution([], "e").None?;
  }

  lemma LateTurns(scope: Scope, id: string, k: nat)
    requires 4 <= k < 8
    ensures Turns(LifeOp(k), LifeStage(scope, id, k), LifeStage(scope, id, k + 1))
  {
  }

  function StartChanges(): seq<RecordOp> {
    seq(8, k requires 0 <= k < 8 => LifeOp(k))
  }

  // What the deliverable record is like.
  predicate ReadyForDelivery(r: ChangeRecord, id: string) {
    && r.changeId == id && r.base == OriginMain && Readiness(r).None? && r.delivery.None?
    && r.materialized == Some("r") && r.revision == 11
  }

  lemma StartScript(scope: Scope, id: string) returns (stages: seq<ChangeRecord>)
    ensures Script(StartChanges(), stages)
    ensures stages[0] == Stage(scope, id, 3) && stages[8] == LifeStage(scope, id, 8)
  {
    stages := seq(9, k requires 0 <= k < 9 => LifeStage(scope, id, k));
    var changes := StartChanges();
    forall k | 0 <= k < 8 ensures Turns(changes[k], stages[k], stages[k + 1]) && Free(changes[k], stages[k]) {
      LifeTurns(scope, id, k);
    }
  }

  lemma LifeIsReady(scope: Scope, id: string)
    ensures ReadyForDelivery(LifeStage(scope, id, 8), id)
  {
  }

  // ----- the delivery -----

  function DeliveryChanges(): seq<RecordOp> {
    [Delegate(Minted(2), "t"), PrepareObserver(Minted(2), Derived(Minted(2), OBSERVATION_NAME)),
     RecordObserver(Minted(2), Derived(Minted(2), OBSERVATION_NAME), "u")]
  }

  lemma DeliveryScript(r: ChangeRecord, id: string, fingerprint: Fingerprint) returns (stages: seq<ChangeRecord>, d: DeliveryReceipt)
    requires r.changeId == id && r.materialized == Some("r") && r.revision == 12
    requires r.delivery == Some(NewReceipt(Minted(2), fingerprint))
    ensures Script(DeliveryChanges(), stages) && stages[0] == r && UnderDelivery(stages[3], id, fingerprint, d)
    ensures stages[3].revision == 15 && d.pullRequest.None? && d.state == Delegated
    ensures d.delegatedTask == Some("t") && d.observationTask == Some("u")
  {
    var d1 := r.delivery.value.(delegatedTask := Some("t"), state := Delegated);
    var d2 := d1.(observationOperation := Some(Derived(Minted(2), OBSERVATION_NAME)));
    d := d2.(observationTask := Some("u"));
    var r13, r14 := r.(delivery := Some(d1), revision := 13), r.(delivery := Some(d2), revision := 14);
    var r15 := r.(delivery := Some(d), revision := 15);
    stages := [r, r13, r14, r15];
    var changes := DeliveryChanges();
    assert Turns(changes[0], r, r13) && Turns(changes[1], r13, r14) && Turns(changes[2], r14, r15);
  }

  lemma OneById(c: ChangeRecord)
    ensures DistinctIds([c]) && ById([c]) == map[c.changeId := c]
  {
    assert c in [c];
    forall id | id in ById([c]) ensures id == c.changeId {
      assert ById([c])[id] in [c];
    }
  }

  lemma PlanOfOne(c: ChangeRecord, id: string) returns (plan: DeliveryPlan)
    requires ReadyForDelivery(c, id)
    ensures PlanOf([c]) == Ok(plan) && StepOf(plan.steps, id) == Some(PlainStep(id))
    ensures DistinctIds([c]) && ById([c]) == map[id := c]
  {
    OneById(c);
    plan := PlanOfUnstacked([c]);
    assert c in [c];
  }

  lemma RunToClaimed(scope: Scope, h: History, ops: seq<StoreOp>, c: ChangeRecord, plan: DeliveryPlan, id: string)
    returns (h': History, ops': seq<StoreOp>, r: ChangeRecord)
    requires Run(scope, h, ops) && Label(id) && Last(h) == map[id := c] && ReadyForDelivery(c, id)
    requires PlanOf([c]) == Ok(plan) && StepOf(plan.steps, id) == Some(PlainStep(id))
    requires DistinctIds([c]) && ById([c]) == map[id := c]
    ensures Run(scope, h', ops') && ops' == ops + [Update(id, 11, Claim(Minted(2), plan.fingerprint))]
    ensures h' == h + [map[id := r]] && r == c.(delivery := Some(NewReceipt(Minted(2), plan.fingerprint)), revision := 12)
  {
    h', ops' := RunClaim(scope, h, ops, |h| - 1, [c], plan, id, c);
    assert forall w :: map[id := c][id := w] == map[id := w];
    r := ClaimedUnder(c, plan.fingerprint);
  }

  // How a life ends: the delivery is completed, with everything recorded.
  predicate Delivered(m: Records, id: string) {
    && id in m && m[id].delivery.Some? && m[id].revision == 16
    && var d := m[id].delivery.value;
    && d.state == Completed && d.delegatedTask == Some("t") && d.observationTask == Some("u")
    && d.pullRequest == SeenPr(id).pullRequest && d.branchRevision == Some("r")
  }

  lemma RunCompletes(scope: Scope, h: History, ops: seq<StoreOp>, at: nat, c: ChangeRecord, plan: DeliveryPlan, id: string,
                     r: ChangeRecord, d: DeliveryReceipt)
    returns (h': History, ops': seq<StoreOp>)
    requires Run(scope, h, ops) && Label(id) && Last(h) == map[id := r] && UnderDelivery(r, id, plan.fingerprint, d)
    requires r.revision == 15 && d.pullRequest.None? && d.state == Delegated
    requires d.delegatedTask == Some("t") && d.observationTask == Some("u")
    requires at < |h| && PlanOf([c]) == Ok(plan) && StepOf(plan.steps, id) == Some(PlainStep(id))
    requires DistinctIds([c]) && h[at] == ById([c])
    ensures Run(scope, h', ops') && ops' == ops + [Update(id, 15, Settle(plan, None, Minted(2), SeenPr(id)))]
    ensures Delivered(Last(h'), id)
  {
    var after := CompletesReceipt(d, id);
    h', ops' := RunSettle(scope, h, ops, at, [c], plan, id, r, d, SeenPr(id));
  }

  // From nothing to a completed delivery: every operation is accepted in turn,
  // under the guards of its callers.
  lemma LifeOfAChangeIsARun(scope: Scope, id: string) returns (h: History, ops: seq<StoreOp>, plan: DeliveryPlan)
    requires Label(id)
    ensures Run(scope, h, ops) && |ops| == 16 && Delivered(Last(h), id)
    ensures ops[0] == Create(id, id, None, None, OriginMain) && ops[1] == StageOp(id, 1) && ops[2] == StageOp(id, 2)
    ensures UpdatesOf(ops[3..11], id, StartChanges())
    ensures ops[11] == Update(id, 11, Claim(Minted(2), plan.fingerprint))
    ensures UpdatesOf(ops[12..15], id, DeliveryChanges())
    ensures ops[15] == Update(id, 15, Settle(plan, None, Minted(2), SeenPr(id)))
  {
    var made;
    h, ops := RunToBound(scope, id, 3);
    h, made := RunStart(scope, h, ops, id);
    h, ops, plan := RunDelivery(scope, h, ops + made, LifeStage(scope, id, 8), id);
  }

  lemma RunStart(scope: Scope, h: History, ops: seq<StoreOp>, id: string) returns (h': History, made: seq<StoreOp>)
    requires Run(scope, h, ops) && Label(id) && Last(h) == map[id := Stage(scope, id, 3)]
    ensures Run(scope, h', ops + made) && Last(h') == map[id := LifeStage(scope, id, 8)]
    ensures UpdatesOf(made, id, StartChanges()) && ReadyForDelivery(LifeStage(scope, id, 8), id)
  {
    var stages := StartScript(scope, id);
    h', made := RunScript(scope, h, ops, id, StartChanges(), stages, 8);
    assert StartChanges()[..8] == StartChanges();
    LifeIsReady(scope, id);
  }

  // Claimed, delegated, its observation prepared and its task recorded.
  lemma RunToObserved(scope: Scope, h: History, ops: seq<StoreOp>, c: ChangeRecord, plan: DeliveryPlan, id: string)
    returns (h': History, made: seq<StoreOp>, r: ChangeRecord, d: DeliveryReceipt)
    requires Run(scope, h, ops) && Label(id) && Last(h) == map[id := c] && ReadyForDelivery(c, id)
    requires PlanOf([c]) == Ok(plan) && StepOf(plan.steps, id) == Some(PlainStep(id))
    requires DistinctIds([c]) && ById([c]) == map[id := c]
    ensures Run(scope, h', ops + [Update(id, 11, Claim(Minted(2), plan.fingerprint))] + made) && h <= h'
    ensures UpdatesOf(made, id, DeliveryChanges())
    ensures Last(h') == map[id := r] && UnderDelivery(r, id, plan.fingerprint, d) && r.revision == 15
    ensures d.pullRequest.None? && d.state == Delegated && d.delegatedTask == Some("t") && d.observationTask == Some("u")
  {
    var ops', stages;
    h', ops', r := RunToClaimed(scope, h, ops, c, plan, id);
    stages, d := DeliveryScript(r, id, plan.fingerprint);
    h', made := RunScript(scope, h', ops', id, DeliveryChanges(), stages, 3);
    assert DeliveryChanges()[..3] == DeliveryChanges();
    r := stages[3];
  }

  lemma RunDelivery(scope: Scope, h: History, ops: seq<StoreOp>, c: ChangeRecord, id: string)
    returns (h': History, ops': seq<StoreOp>, plan: DeliveryPlan)
    requires Run(scope, h, ops) && Label(id) && Last(h) == map[id := c] && ReadyForDelivery(c, id)
    ensures Run(scope, h', ops') && ops <= ops' && |ops'| == |ops| + 5 && Delivered(Last(h'), id)
    ensures ops'[|ops|] == Update(id, 11, Claim(Minted(2), plan.fingerprint))
    ensures UpdatesOf(ops'[|ops| + 1..|ops| + 4], id, DeliveryChanges())
    ensures ops'[|ops| + 4] == Update(id, 15, Settle(plan, None, Minted(2), SeenPr(id)))
  {
    plan := PlanOfOne(c, id);
    var made, r, d;
    h', made, r, d := RunToObserved(scope, h, ops, c, plan, id);
    var claim := Update(id, 11, Claim(Minted(2), plan.fingerprint));
    h', ops' := RunCompletes(scope, h', ops + [claim] + made, |h| - 1, c, plan, id, r, d);
    Pieces(ops, claim, made, ops'[|ops| + 4]);
  }

  lemma Pieces(ops: seq<StoreOp>, first: StoreOp, made: seq<StoreOp>, last: StoreOp)
    requires |made| == 3
    ensures var all := ops + [first] + made + [last];
            |all| == |ops| + 5 && ops <= all && all[|ops|] == first && all[|ops| + 1..|ops| + 4] == made
  {
  }

  lemma CompletesReceipt(d: DeliveryReceipt, id: string) returns (after: DeliveryReceipt)
    requires d.pullRequest.None? && d.state != Completed
    ensures after == ReceiptAfter(d, PlainStep(id), None, SeenPr(id)) && after != d
    ensures after == d.(branchRevision := Some("r"), pullRequest := SeenPr(id).pullRequest, state := Completed)
    ensures !OtherPullRequest(d, PlainStep(id), None, SeenPr(id))
  {
    after := ReceiptAfter(d, PlainStep(id), None, SeenPr(id));
    assert SeenPr(id).pullRequest.value.url[..8] == "https://";
  }
}
