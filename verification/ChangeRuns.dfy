// Whole runs of the store under any interleaving. A history lists the store
// after every critical section. A caller's multi-step operation reads several
// earlier states and then writes once, so the guard of a write says what its
// caller must have read somewhere earlier in the history. Crashes and retries
// are runs too: a call that stops halfway simply never writes.
module ChangeRuns {
  import opened Wrappers
  import opened ChangeModel
  import opened DeliveryPlanning
  import opened DeliveryPlanTheorems
  import opened ChangeStore
  import opened StoreInvariants
  import opened Delivery

  type History = seq<Records>

  // ----- what a caller can have read -----

  ghost predicate Saw(h: History, c: ChangeRecord) {
    exists j :: 0 <= j < |h| && c.changeId in h[j] && h[j][c.changeId] == c
  }

  // The plan was computed from records read at any earlier moments.
  ghost predicate Planned(h: History, plan: DeliveryPlan) {
    exists changes :: PlanOf(changes) == Ok(plan) && forall c :: c in changes ==> Saw(h, c)
  }

  ghost predicate SawParentFresh(h: History, from: nat, c: ChangeRecord, step: DeliveryStep) {
    step.baseChange.Some? ==>
      exists j :: from <= j < |h| && step.baseChange.value in h[j]
                  && ParentFresh(h[j][step.baseChange.value], c, step)
  }

  // The Change was read fresh at moment j, and its parent at some moment.
  ghost predicate SawFreshAt(h: History, from: nat, step: DeliveryStep, j: nat) {
    && from <= j < |h| && step.changeId in h[j]
    && ChangeFresh(h[j][step.changeId], step)
    && SawParentFresh(h, from, h[j][step.changeId], step)
  }

  ghost predicate SawStepFresh(h: History, from: nat, step: DeliveryStep) {
    StepShape(step) && exists j :: SawFreshAt(h, from, step, j)
  }

  // A freshness check that began at moment `from` passed.
  ghost predicate Validated(h: History, from: nat, plan: DeliveryPlan) {
    && plan.fingerprint == Digest(plan.steps)
    && forall k :: 0 <= k < |plan.steps| ==> SawStepFresh(h, from, plan.steps[k])
  }

  ghost predicate SawParentDelivered(h: History, from: nat, step: DeliveryStep) {
    step.baseChange.Some? ==> exists j :: from <= j < |h| && step.baseChange.value in h[j] && ParentDelivered(h[j], step)
  }

  ghost predicate SawUnclaimed(h: History, from: nat, id: string, rev: U64, step: DeliveryStep) {
    exists j :: from <= j < |h| && id in h[j] && h[j][id].delivery.None? && h[j][id].revision == rev
                && h[j][id].materialized == Some(step.revision)
  }

  ghost predicate SawParentNumber(h: History, from: nat, step: DeliveryStep, parent: Option<U64>) {
    if step.baseChange.Some? then
      parent.Some? && exists j :: from <= j < |h| && ParentNumber(h[j], step.baseChange) == parent
    else parent.None?
  }

  ghost predicate SawExecution(h: History, id: string) {
    exists j :: 0 <= j < |h| && id in h[j] && h[j][id].executions != []
  }

  // An acceptance that began at moment `from` reached its claim.
  ghost predicate ClaimReached(h: History, from: nat, id: string, rev: U64, plan: DeliveryPlan) {
    && Planned(h, plan) && Validated(h, from, plan)
    && StepOf(plan.steps, id).Some?
    && SawParentDelivered(h, from, StepOf(plan.steps, id).value)
    && SawUnclaimed(h, from, id, rev, StepOf(plan.steps, id).value)
  }

  ghost predicate SettleReached(h: History, from: nat, id: string, plan: DeliveryPlan, parent: Option<U64>) {
    && Planned(h, plan) && Validated(h, from, plan)
    && StepOf(plan.steps, id).Some?
    && SawParentNumber(h, from, StepOf(plan.steps, id).value, parent)
  }

  predicate Unstarted(start: InitialStart) {
    !start.dispatched && !start.verified && start.vcsOperation.None?
  }

  // What the callers of each operation have established before they call it.
  ghost predicate Allowed(h: History, op: StoreOp) {
    match op
    case Update(id, rev, Claim(_, fingerprint)) =>
      exists from: nat, plan: DeliveryPlan :: plan.fingerprint == fingerprint && ClaimReached(h, from, id, rev, plan)
    case Update(id, _, Settle(plan, parent, _, _)) => exists from: nat :: SettleReached(h, from, id, plan, parent)
    case Update(_, _, PrepareObserver(operation, observation)) => observation == Derived(operation, OBSERVATION_NAME)
    case Update(_, _, Reserve(start)) => Unstarted(start)
    case Update(id, _, Snapshot(_, _, _)) => SawExecution(h, id)
    case Update(id, _, Stamp(_, _)) => SawExecution(h, id)
    case _ => true
  }

  function Last(h: History): Records
    requires |h| > 0
  {
    h[|h| - 1]
  }

  ghost predicate StepAt(scope: Scope, h: History, ops: seq<StoreOp>, i: nat)
    requires i < |ops| && i + 1 < |h|
  {
    Allowed(h[..i + 1], ops[i]) && h[i + 1] == Execute(scope, h[i], ops[i]).records
  }

  ghost predicate Run(scope: Scope, h: History, ops: seq<StoreOp>) {
    && |h| == |ops| + 1 && h[0] == map[]
    && forall i :: 0 <= i < |ops| ==> StepAt(scope, h, ops, i)
  }

  // ----- what every reachable state satisfies -----

  predicate StartOk(r: ChangeRecord) {
    r.initialStart.Some? && r.initialStart.value.verified ==>
      r.initialStart.value.dispatched && r.initialStart.value.vcsOperation.Some?
  }

  // A verification on record is never stale.
  predicate VerificationOk(r: ChangeRecord) {
    r.verification.Some? ==>
      && r.materialized == Some(r.verification.value.revision)
      && r.verification.value.taskRevision == r.taskRevision
      && r.taskRevision > 0
      && r.verification.value.recordRevision <= r.revision
      && r.executions != []
  }

  // The step describes this Change: its refs and its base.
  predicate StepDescribes(step: DeliveryStep, c: ChangeRecord) {
    && step.changeId == c.changeId
    && step.headRef == HeadRef(c.changeId)
    && step.baseRef == BaseRef(c.base)
    && step.baseChange == BaseChange(c.base)
    && step.how == MethodFor(c.base)
  }

  predicate PrOk(m: Records, d: DeliveryReceipt, step: DeliveryStep) {
    d.pullRequest.Some? ==>
      && d.branchRevision == Some(step.revision)
      && (step.baseChange.Some? ==> ParentNumber(m, step.baseChange).Some?)
      && PullRequestMatches(step, d.pullRequest.value, ParentNumber(m, step.baseChange))
  }

  predicate ReceiptOk(m: Records, d: DeliveryReceipt, c: ChangeRecord) {
    var step := StepOf(d.fingerprint.steps, c.changeId);
    && step.Some? && StepDescribes(step.value, c)
    && (d.branchRevision.Some? ==> d.branchRevision == Some(step.value.revision))
    && PrOk(m, d, step.value)
    && (d.state == Completed ==> d.pullRequest.Some?)
    && (d.observationOperation.Some? ==> d.observationOperation == Some(Derived(d.operation, OBSERVATION_NAME)))
  }

  predicate DeliveryOk(m: Records) {
    forall id :: id in m && m[id].delivery.Some? ==> ReceiptOk(m, m[id].delivery.value, m[id])
  }

  predicate RecordsFresh(m: Records) {
    forall id :: id in m ==> StartOk(m[id]) && VerificationOk(m[id])
  }

  predicate ReceiptsAdvance(m: Records, n: Records) {
    forall id :: id in m && id in n ==> ReceiptAdvances(m[id].delivery, n[id].delivery)
  }

  ghost predicate StateOk(scope: Scope, m: Records) {
    StoreOk(scope, m) && RecordsFresh(m) && DeliveryOk(m)
  }

  predicate Later(m: Records, n: Records) {
    StoreAdvances(m, n) && ReceiptsAdvance(m, n)
  }

  ghost predicate RunOk(scope: Scope, h: History) {
    && |h| > 0
    && (forall i :: 0 <= i < |h| ==> StateOk(scope, h[i]))
    && (forall i, j :: 0 <= i <= j < |h| ==> Later(h[i], h[j]))
  }

  lemma LaterIsTransitive(m: Records, n: Records, o: Records)
    requires Later(m, n) && Later(n, o)
    ensures Later(m, o)
  {
    StoreAdvancesIsTransitive(m, n, o);
  }

  lemma LaterIsReflexive(m: Records)
    ensures Later(m, m)
  {
  }

  // ----- one record -----

  lemma EffectKeepsFresh(op: RecordOp, r: ChangeRecord)
    requires StartOk(r) && VerificationOk(r) && Effect(op, r).Ok?
    requires op.Reserve? ==> Unstarted(op.start)
    requires op.Snapshot? || op.Stamp? ==> r.executions != []
    requires r.revision < U64_MAX
    ensures var r' := Effect(op, r).value;
            StartOk(r') && VerificationOk(r'.(revision := r.revision + 1))
            && (r' == r ==> VerificationOk(r'))
  {
  }

  // ----- receipts -----

  lemma NumberIsPermanent(m: Records, n: Records, parent: Option<string>)
    requires Later(m, n) && ParentNumber(m, parent).Some?
    ensures ParentNumber(n, parent) == ParentNumber(m, parent)
  {
    assert ReceiptAdvances(m[parent.value].delivery, n[parent.value].delivery);
  }

  lemma ReceiptStaysOk(m: Records, n: Records, d: DeliveryReceipt, c: ChangeRecord, c': ChangeRecord)
    requires Later(m, n) && ReceiptOk(m, d, c) && SameIdentity(c, c')
    ensures ReceiptOk(n, d, c')
  {
    var step := StepOf(d.fingerprint.steps, c.changeId).value;
    if d.pullRequest.Some? && step.baseChange.Some? {
      NumberIsPermanent(m, n, step.baseChange);
    }
  }

  // A step of a plan that was computed from records seen in the run describes
  // the Change it names, then and ever after: bases never change.
  lemma PlannedStepDescribes(scope: Scope, h: History, plan: DeliveryPlan, id: string)
    requires RunOk(scope, h) && Planned(h, plan) && StepOf(plan.steps, id).Some? && id in Last(h)
    ensures plan.fingerprint == Digest(plan.steps)
    ensures StepDescribes(StepOf(plan.steps, id).value, Last(h)[id])
  {
    var changes :| PlanOf(changes) == Ok(plan) && forall c :: c in changes ==> Saw(h, c);
    PlanPlacesEachChangeAfterItsBase(changes);
    var m := ById(changes);
    var step := StepOf(plan.steps, id).value;
    var k :| 0 <= k < |plan.steps| && plan.steps[k] == step;
    assert StepGood(m, plan.steps, k);
    var c := m[id];
    assert Saw(h, c);
    var j :| 0 <= j < |h| && c.changeId in h[j] && h[j][c.changeId] == c;
    assert Later(h[j], Last(h));
    assert Advances(c, Last(h)[id]);
  }

  lemma UnclaimedAtClaim(scope: Scope, h: History, from: nat, id: string, rev: U64, step: DeliveryStep)
    requires RunOk(scope, h) && SawUnclaimed(h, from, id, rev, step)
    requires id in Last(h) && Last(h)[id].revision == rev
    ensures Last(h)[id].delivery.None?
  {
    var j :| from <= j < |h| && id in h[j] && h[j][id].delivery.None? && h[j][id].revision == rev
             && h[j][id].materialized == Some(step.revision);
    assert Later(h[j], Last(h));
    assert Advances(h[j][id], Last(h)[id]);
  }

  lemma SettledReceiptOk(m: Records, d: DeliveryReceipt, c: ChangeRecord, step: DeliveryStep,
                         parent: Option<U64>, seen: Observation)
    requires ReceiptOk(m, d, c) && StepOf(d.fingerprint.steps, c.changeId) == Some(step)
    requires step.baseChange.Some? ==> parent.Some? && ParentNumber(m, step.baseChange) == parent
    requires ReconcileReceipt(d, step, parent, seen).Ok?
    ensures ReceiptOk(m, ReconcileReceipt(d, step, parent, seen).value, c)
  {
  }

  // The number read earlier is still the parent's recorded number.
  lemma SettleParentIsCurrent(scope: Scope, h: History, from: nat, id: string, plan: DeliveryPlan, parent: Option<U64>)
    requires RunOk(scope, h) && SettleReached(h, from, id, plan, parent)
    ensures var step := StepOf(plan.steps, id).value;
            step.baseChange.Some? ==> parent.Some? && ParentNumber(Last(h), step.baseChange) == parent
  {
    var step := StepOf(plan.steps, id).value;
    if step.baseChange.Some? {
      var j :| from <= j < |h| && ParentNumber(h[j], step.baseChange) == parent;
      assert Later(h[j], Last(h));
      NumberIsPermanent(h[j], Last(h), step.baseChange);
    }
  }

  lemma SettleEffectOk(m: Records, r: ChangeRecord, plan: DeliveryPlan, parent: Option<U64>,
                       operation: Uuid, seen: Observation)
    requires r.delivery.Some? ==> ReceiptOk(m, r.delivery.value, r)
    requires plan.fingerprint == Digest(plan.steps) && StepOf(plan.steps, r.changeId).Some?
    requires var step := StepOf(plan.steps, r.changeId).value;
             step.baseChange.Some? ==> parent.Some? && ParentNumber(m, step.baseChange) == parent
    requires Reconcile(r, plan, parent, operation, seen).Ok?
    ensures var c := Reconcile(r, plan, parent, operation, seen).value;
            c.delivery.Some? && ReceiptOk(m, c.delivery.value, r)
  {
    SettledReceiptOk(m, r.delivery.value, r, StepOf(plan.steps, r.changeId).value, parent, seen);
  }

  lemma ClaimGivesReceiptOk(scope: Scope, h: History, id: string, operation: Uuid, fingerprint: Fingerprint)
    requires RunOk(scope, h) && id in Last(h)
    requires Allowed(h, Update(id, Last(h)[id].revision, Claim(operation, fingerprint)))
    ensures Last(h)[id].delivery.None?
    ensures ReceiptOk(Last(h), NewReceipt(operation, fingerprint), Last(h)[id])
  {
    var from: nat, plan: DeliveryPlan :|
      plan.fingerprint == fingerprint && ClaimReached(h, from, id, Last(h)[id].revision, plan);
    PlannedStepDescribes(scope, h, plan, id);
    assert Last(h)[id].changeId == id;
    UnclaimedAtClaim(scope, h, from, id, Last(h)[id].revision, StepOf(plan.steps, id).value);
  }

  // Operations outside delivery leave the receipt alone; the small delivery
  // updates keep it well formed.
  lemma OtherEffectKeepsReceiptOk(m: Records, op: RecordOp, r: ChangeRecord)
    requires !op.Claim? && !op.Settle? && Effect(op, r).Ok?
    requires op.PrepareObserver? ==> op.observation == Derived(op.operation, OBSERVATION_NAME)
    requires r.delivery.Some? ==> ReceiptOk(m, r.delivery.value, r)
    ensures Effect(op, r).value.delivery.Some? ==>
              r.delivery.Some? && ReceiptOk(m, Effect(op, r).value.delivery.value, r)
  {
  }

  // ----- one step of a run -----

  // What the written record must satisfy beyond the store's own invariant.
  predicate BodyOk(m: Records, id: string, body: ChangeRecord)
    requires id in m
  {
    && SameIdentity(m[id], body)
    && StartOk(body)
    && (m[id].revision < U64_MAX ==> VerificationOk(body.(revision := m[id].revision + 1)))
    && ReceiptAdvances(m[id].delivery, body.delivery)
    && (body.delivery.Some? ==> ReceiptOk(m, body.delivery.value, m[id]))
  }

  lemma ExecutionStillThere(scope: Scope, h: History, id: string)
    requires RunOk(scope, h) && SawExecution(h, id) && id in Last(h)
    ensures Last(h)[id].executions != []
  {
    var j :| 0 <= j < |h| && id in h[j] && h[j][id].executions != [];
    assert Later(h[j], Last(h));
    assert Advances(h[j][id], Last(h)[id]);
  }

  lemma EffectReceiptOk(scope: Scope, h: History, id: string, op: RecordOp)
    requires RunOk(scope, h) && id in Last(h) && Allowed(h, Update(id, Last(h)[id].revision, op))
    requires Effect(op, Last(h)[id]).Ok?
    ensures var d := Effect(op, Last(h)[id]).value.delivery;
            d.Some? ==> ReceiptOk(Last(h), d.value, Last(h)[id])
    ensures op.Claim? ==> Last(h)[id].delivery.None?
  {
    var m := Last(h);
    assert StateOk(scope, m);
    assert m[id].changeId == id;
    match op
    case Claim(operation, fingerprint) => ClaimGivesReceiptOk(scope, h, id, operation, fingerprint);
    case Settle(plan, parent, operation, seen) =>
      var from: nat :| SettleReached(h, from, id, plan, parent);
      PlannedStepDescribes(scope, h, plan, id);
      SettleParentIsCurrent(scope, h, from, id, plan, parent);
      SettleEffectOk(m, m[id], plan, parent, operation, seen);
    case _ => OtherEffectKeepsReceiptOk(m, op, m[id]);
  }

  lemma EffectFresh(scope: Scope, h: History, id: string, op: RecordOp)
    requires RunOk(scope, h) && id in Last(h) && Allowed(h, Update(id, Last(h)[id].revision, op))
    requires Effect(op, Last(h)[id]).Ok? && Last(h)[id].revision < U64_MAX
    ensures StartOk(Effect(op, Last(h)[id]).value)
    ensures VerificationOk(Effect(op, Last(h)[id]).value.(revision := Last(h)[id].revision + 1))
  {
    if op.Snapshot? || op.Stamp? {
      ExecutionStillThere(scope, h, id);
    }
    assert StateOk(scope, Last(h));
    EffectKeepsFresh(op, Last(h)[id]);
  }

  lemma EffectBodyOk(scope: Scope, h: History, id: string, op: RecordOp)
    requires RunOk(scope, h) && id in Last(h) && Allowed(h, Update(id, Last(h)[id].revision, op))
    requires EffectOf(op)(Last(h)[id]).Ok? && Last(h)[id].revision < U64_MAX
    ensures BodyOk(Last(h), id, EffectOf(op)(Last(h)[id]).value)
  {
    EffectFresh(scope, h, id, op);
    EffectReceiptOk(scope, h, id, op);
    EffectAdvancesReceipt(op, Last(h)[id]);
    EffectKeepsIdentity(op, Last(h)[id]);
  }

  lemma WriteKeepsDeliveryOk(m: Records, n: Records, id: string, rev: U64, body: ChangeRecord)
    requires DeliveryOk(m) && WroteOne(m, n, id, rev, body) && BodyOk(m, id, body) && Later(m, n)
    ensures DeliveryOk(n)
  {
    forall x | x in n && n[x].delivery.Some? ensures ReceiptOk(n, n[x].delivery.value, n[x]) {
      ReceiptStaysOk(m, n, n[x].delivery.value, m[x], n[x]);
    }
  }

  lemma WriteIsLater(m: Records, n: Records, id: string, rev: U64, body: ChangeRecord)
    requires StoreAdvances(m, n) && WroteOne(m, n, id, rev, body) && BodyOk(m, id, body)
    ensures Later(m, n)
  {
  }

  lemma WriteKeepsStateOk(scope: Scope, m: Records, n: Records, id: string, rev: U64, body: ChangeRecord)
    requires StateOk(scope, m) && StoreOk(scope, n) && StoreAdvances(m, n)
    requires WroteOne(m, n, id, rev, body) && BodyOk(m, id, body)
    ensures StateOk(scope, n) && Later(m, n)
  {
    WriteIsLater(m, n, id, rev, body);
    WriteKeepsDeliveryOk(m, n, id, rev, body);
    assert RecordsFresh(n);
  }

  lemma UpdateKeepsStateOk(scope: Scope, h: History, id: string, rev: U64, op: RecordOp)
    requires RunOk(scope, h) && Allowed(h, Update(id, rev, op)) && ArgumentError(op).None?
    ensures var n := UpdateWith(Last(h), id, rev, EffectOf(op)).records;
            StoreOk(scope, n) && StoreAdvances(Last(h), n) ==> StateOk(scope, n) && Later(Last(h), n)
  {
    var m := Last(h);
    var n := UpdateWith(m, id, rev, EffectOf(op)).records;
    UpdateWritesAtMostOne(m, id, rev, EffectOf(op));
    assert StateOk(scope, m);
    if n == m {
      LaterIsReflexive(m);
    } else if StoreOk(scope, n) && StoreAdvances(m, n) {
      EffectBodyOk(scope, h, id, op);
      WriteKeepsStateOk(scope, m, n, id, rev, EffectOf(op)(m[id]).value);
    }
  }

  lemma BindKeepsStateOk(scope: Scope, m: Records, id: string, rev: U64, operation: Uuid, workspace: string)
    requires StateOk(scope, m)
    ensures var n := BindManaged(m, id, rev, operation, workspace).records;
            StoreOk(scope, n) && StoreAdvances(m, n) ==> StateOk(scope, n) && Later(m, n)
  {
    var f := BindOf(operation, workspace);
    var n := BindManaged(m, id, rev, operation, workspace).records;
    if n == m {
      LaterIsReflexive(m);
    } else if StoreOk(scope, n) && StoreAdvances(m, n) {
      UpdateWritesAtMostOne(m, id, rev, f);
      WriteKeepsStateOk(scope, m, n, id, rev, f(m[id]).value);
    }
  }

  lemma CreationKeepsDeliveryOk(m: Records, n: Records, r: ChangeRecord)
    requires DeliveryOk(m) && r.changeId !in m && r.delivery.None? && n == m[r.changeId := r]
    requires Later(m, n)
    ensures DeliveryOk(n)
  {
    forall x | x in n && n[x].delivery.Some? ensures ReceiptOk(n, n[x].delivery.value, n[x]) {
      ReceiptStaysOk(m, n, n[x].delivery.value, m[x], n[x]);
    }
  }

  lemma CreationKeepsStateOk(scope: Scope, m: Records, n: Records, r: ChangeRecord)
    requires StateOk(scope, m) && StoreOk(scope, n) && StoreAdvances(m, n)
    requires r.changeId !in m && n == m[r.changeId := r]
    requires r.delivery.None? && r.initialStart.None? && r.verification.None?
    ensures StateOk(scope, n) && Later(m, n)
  {
    assert ReceiptsAdvance(m, n);
    CreationKeepsDeliveryOk(m, n, r);
    assert RecordsFresh(n);
  }

  lemma CreateKeepsStateOk(scope: Scope, m: Records, op: StoreOp)
    requires StateOk(scope, m) && op.Create?
    ensures var n := CreateNamed(scope, m, op).records;
            StoreOk(scope, n) && StoreAdvances(m, n) ==> StateOk(scope, n) && Later(m, n)
  {
    var n := CreateNamed(scope, m, op).records;
    CreateWritesAtMostOne(scope, m, op);
    if n == m {
      LaterIsReflexive(m);
    } else if StoreOk(scope, n) && StoreAdvances(m, n) {
      CreationKeepsStateOk(scope, m, n, NewRecord(scope, op.id, op.taskId, op.parentTask, op.parentChange, op.base));
    }
  }

  lemma StepKeepsStateOk(scope: Scope, h: History, op: StoreOp)
    requires RunOk(scope, h) && Allowed(h, op)
    ensures StateOk(scope, Execute(scope, Last(h), op).records)
    ensures Later(Last(h), Execute(scope, Last(h), op).records)
  {
    var m := Last(h);
    assert StateOk(scope, m);
    ExecuteKeepsStoreOk(scope, m, op);
    match op
    case Create(_, _, _, _, _) => CreateKeepsStateOk(scope, m, op);
    case Bind(id, rev, operation, workspace) => BindKeepsStateOk(scope, m, id, rev, operation, workspace);
    case Update(id, rev, change) =>
      if ArgumentError(change).None? {
        UpdateKeepsStateOk(scope, h, id, rev, change);
      }
  }

  lemma ExtendRunOk(scope: Scope, h: History, n: Records)
    requires RunOk(scope, h) && StateOk(scope, n) && Later(Last(h), n)
    ensures RunOk(scope, h + [n])
  {
    var h' := h + [n];
    forall i, j | 0 <= i <= j < |h'| ensures Later(h'[i], h'[j]) {
      if i == |h| {
        LaterIsReflexive(n);
      } else if j == |h| {
        assert Later(h[i], Last(h));
        LaterIsTransitive(h[i], Last(h), n);
      }
    }
  }

  // Main invariant theorem: every state of every run is well formed, and of any
  // two states of a run the later one only extends the earlier one.
  lemma EveryRunIsOk(scope: Scope, h: History, ops: seq<StoreOp>)
    requires Run(scope, h, ops)
    ensures RunOk(scope, h)
  {
    PrefixIsOk(scope, h, ops, |ops|);
    assert h[..|ops| + 1] == h;
  }

  lemma {:induction false} PrefixIsOk(scope: Scope, h: History, ops: seq<StoreOp>, n: nat)
    requires Run(scope, h, ops) && n <= |ops|
    ensures RunOk(scope, h[..n + 1])
  {
    if n == 0 {
      EmptyStoreOk(scope);
      assert h[..1] == [map[]];
    } else {
      var before := h[..n];
      PrefixIsOk(scope, h, ops, n - 1);
      assert StepAt(scope, h, ops, n - 1);
      assert Last(before) == h[n - 1];
      StepKeepsStateOk(scope, before, ops[n - 1]);
      ExtendRunOk(scope, before, h[n]);
      assert h[..n + 1] == before + [h[n]];
    }
  }
}
