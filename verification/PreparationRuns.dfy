// Concurrent, repeated and crashing calls of `start` and `status` for any
// number of operations: each critical section, each call of the backend and
// each observation is one step.
module PreparationRuns {
  import opened Wrappers
  import opened Preparation

  // Where a call is, with the values it holds.
  datatype Call =
    | Opening(plan: Plan, model: string, effort: string, owner: Owner)
    | Launching(plan: Plan, owner: Owner)
    | Launched(plan: Plan, owner: Owner, task: string)
    | Status(operation: string, owner: Owner)
    | Recovering(receipt: Receipt, owner: Owner)
    | Recovered(receipt: Receipt, owner: Owner, recovered: Option<string>)
    | Asking(receipt: Receipt, owner: Owner)
    | Observed(receipt: Receipt, execution: Execution, inspected: bool, next: Receipt, owner: Owner)

  // A passed inspection of the workspace after its task was seen completed.
  datatype Inspection = Inspection(operation: string, task: string)

  datatype State = State(
    stored: Stored,
    owners: map<string, Owner>,
    attempts: seq<string>,
    tasks: map<string, string>,
    inspections: set<Inspection>,
    calls: map<nat, Call>)

  datatype Step =
    | EnterStart(call: nat, session: string, operation: string, adapter: Adapter, inputs: string, model: string, effort: string)
    | EnterStatus(call: nat, session: string, operation: string)
    | Leave(call: nat)
    | OwnerChanges(session: string, owner: Option<Owner>)
    | Open(call: nat)
    | Launch(call: nat, crossed: Option<string>, answered: bool)
    | RecordLaunched(call: nat)
    | Read(call: nat)
    | AskRetained(call: nat, retained: bool)
    | SaveAnswer(call: nat)
    | Observe(call: nat, execution: Execution, inspected: bool)
    | SaveObservation(call: nat)

  const EMPTY := State(map[], map[], [], map[], {}, map[])

  function Gone(s: State, c: nat): State {
    s.(calls := s.calls - {c})
  }

  function Goes(s: State, c: nat, k: Call): State {
    s.(calls := s.calls[c := k])
  }

  // The owner a critical section sees, if the session still has one.
  function CurrentOwner(s: State, owner: Owner): Option<Owner> {
    if owner.binding.session in s.owners then Some(s.owners[owner.binding.session]) else None
  }

  function DoOpen(s: State, c: nat, k: Call): State
    requires k.Opening?
  {
    var (stored, res) := OpenOf(s.stored, k.plan, k.model, k.effort);
    var s' := s.(stored := stored);
    match res
    case Err(_) => Gone(s', c)
    case Ok(Created) => Goes(s', c, Launching(k.plan, k.owner))
    case Ok(Existing) => Goes(s', c, Status(k.plan.operation, k.owner))
  }

  // The delegated start. It may cross to the backend without an answer.
  function DoLaunch(s: State, c: nat, k: Call, crossed: Option<string>, answered: bool): State
    requires k.Launching?
  {
    var op := k.plan.operation;
    var s' := s.(attempts := s.attempts + [op],
                 tasks := if crossed.Some? then s.tasks[op := crossed.value] else s.tasks);
    if crossed.Some? && answered then Goes(s', c, Launched(k.plan, k.owner, crossed.value)) else Gone(s', c)
  }

  function DoRecordLaunched(s: State, c: nat, k: Call): State
    requires k.Launched?
  {
    var current := CurrentOwner(s, k.owner);
    if current.None? then Gone(s, c)
    else Gone(s.(stored := RecordStartedOf(s.stored, k.plan, k.owner, current.value, k.task).0), c)
  }

  function DoRead(s: State, c: nat, k: Call): State
    requires k.Status?
  {
    if k.operation !in s.stored || !OwnedBy(s.stored[k.operation].plan, k.owner) then Gone(s, c)
    else
      var r := s.stored[k.operation];
      Goes(s, c, if r.taskId.None? then Recovering(r, k.owner) else Asking(r, k.owner))
  }

  function DoAskRetained(s: State, c: nat, k: Call, retained: bool): State
    requires k.Recovering?
  {
    var op := k.receipt.plan.operation;
    Goes(s, c, Recovered(k.receipt, k.owner, if retained && op in s.tasks then Some(s.tasks[op]) else None))
  }

  function DoSaveAnswer(s: State, c: nat, k: Call): State
    requires k.Recovered?
  {
    var current := CurrentOwner(s, k.owner);
    if current.None? then Gone(s, c)
    else
      var (stored, res) := SaveRecoveredOf(s.stored, k.receipt, k.owner, current.value, k.recovered);
      var s' := s.(stored := stored);
      if res.Ok? && k.recovered.Some? then Goes(s', c, Asking(res.value, k.owner)) else Gone(s', c)
  }

  function DoObserve(s: State, c: nat, k: Call, execution: Execution, inspected: bool): State
    requires k.Asking?
  {
    var next := Reconciled(k.receipt, execution, inspected);
    if next.Err? || k.receipt.taskId.None? then Gone(s, c)
    else
      var seen := Inspection(k.receipt.plan.operation, k.receipt.taskId.value);
      Goes(s.(inspections := if execution == IsCompleted && inspected then s.inspections + {seen} else s.inspections),
           c, Observed(k.receipt, execution, inspected, next.value, k.owner))
  }

  function DoSaveObservation(s: State, c: nat, k: Call): State
    requires k.Observed?
  {
    var current := CurrentOwner(s, k.owner);
    if current.None? then Gone(s, c)
    else Gone(s.(stored := SaveReconciledOf(s.stored, k.receipt, k.next, k.owner, current.value).0), c)
  }

  // A step of a call that is not there, or is elsewhere, does nothing.
  function Do(s: State, step: Step): State {
    match step
    case EnterStart(c, session, op, adapter, inputs, model, effort) =>
      if c in s.calls || session !in s.owners then s
      else
        var owner := s.owners[session];
        var plan := Plan(op, owner.binding, owner.workspaceId, owner.repository, adapter, inputs);
        Goes(s, c, Opening(plan, model, effort, owner))
    case EnterStatus(c, session, op) =>
      if c in s.calls || session !in s.owners then s else Goes(s, c, Status(op, s.owners[session]))
    case Leave(c) => Gone(s, c)
    case OwnerChanges(session, owner) =>
      s.(owners := if owner.Some? then s.owners[session := owner.value] else s.owners - {session})
    case Open(c) => if c in s.calls && s.calls[c].Opening? then DoOpen(s, c, s.calls[c]) else s
    case Launch(c, crossed, answered) =>
      if c in s.calls && s.calls[c].Launching? then DoLaunch(s, c, s.calls[c], crossed, answered) else s
    case RecordLaunched(c) => if c in s.calls && s.calls[c].Launched? then DoRecordLaunched(s, c, s.calls[c]) else s
    case Read(c) => if c in s.calls && s.calls[c].Status? then DoRead(s, c, s.calls[c]) else s
    case AskRetained(c, retained) =>
      if c in s.calls && s.calls[c].Recovering? then DoAskRetained(s, c, s.calls[c], retained) else s
    case SaveAnswer(c) => if c in s.calls && s.calls[c].Recovered? then DoSaveAnswer(s, c, s.calls[c]) else s
    case Observe(c, execution, inspected) =>
      if c in s.calls && s.calls[c].Asking? then DoObserve(s, c, s.calls[c], execution, inspected) else s
    case SaveObservation(c) =>
      if c in s.calls && s.calls[c].Observed? then DoSaveObservation(s, c, s.calls[c]) else s
  }

  function RunFrom(s: State, steps: seq<Step>): State
    decreases |steps|
  {
    if steps == [] then s else RunFrom(Do(s, steps[0]), steps[1..])
  }

  function Run(steps: seq<Step>): State {
    RunFrom(EMPTY, steps)
  }

  // ----- what every reachable state satisfies -----

  // A receipt as it may be stored, or held by a call that read it.
  predicate ReceiptOk(s: State, r: Receipt) {
    && r.startAttempted && r.phase != Pending
    && r.plan.operation in s.stored && s.stored[r.plan.operation].plan == r.plan
    && (r.taskId.None? ==> r.phase == InFlight || r.phase == Uncertain)
    && (r.taskId.Some? ==> r.plan.operation in s.tasks && s.tasks[r.plan.operation] == r.taskId.value)
    && (r.phase == Ready ==> r.taskId.Some? && Inspection(r.plan.operation, r.taskId.value) in s.inspections)
  }

  ghost predicate StoredOk(s: State) {
    forall op :: op in s.stored ==> s.stored[op].plan.operation == op && ReceiptOk(s, s.stored[op])
  }

  predicate CallOk(s: State, k: Call) {
    match k
    case Opening(_, _, _, _) => true
    case Launching(plan, owner) =>
      && plan.operation in s.stored && s.stored[plan.operation].plan == plan
      && plan.operation !in s.tasks && plan.operation !in s.attempts
    case Launched(plan, owner, task) =>
      && plan.operation in s.stored && s.stored[plan.operation].plan == plan
      && plan.operation in s.tasks && s.tasks[plan.operation] == task
    case Status(_, _) => true
    case Recovering(r, _) => ReceiptOk(s, r)
    case Recovered(r, _, recovered) =>
      ReceiptOk(s, r)
      && (recovered.Some? ==> r.plan.operation in s.tasks && s.tasks[r.plan.operation] == recovered.value)
    case Asking(r, _) => ReceiptOk(s, r)
    case Observed(r, execution, inspected, next, _) =>
      ReceiptOk(s, r) && ReceiptOk(s, next) && Reconciled(r, execution, inspected) == Ok(next)
  }

  ghost predicate CallsOk(s: State) {
    forall c :: c in s.calls ==> CallOk(s, s.calls[c])
  }

  // No two calls are about to start the same operation.
  ghost predicate OneLauncher(s: State) {
    forall c, d :: c in s.calls && d in s.calls && c != d && s.calls[c].Launching? && s.calls[d].Launching? ==>
                     s.calls[c].plan.operation != s.calls[d].plan.operation
  }

  ghost predicate AttemptedOnce(s: State) {
    && (forall i, j :: 0 <= i < j < |s.attempts| ==> s.attempts[i] != s.attempts[j])
    && (forall i :: 0 <= i < |s.attempts| ==> s.attempts[i] in s.stored)
    && (forall op :: op in s.tasks ==> op in s.attempts)
  }

  ghost predicate StateOk(s: State) {
    StoredOk(s) && CallsOk(s) && OneLauncher(s) && AttemptedOnce(s)
  }

  predicate Keeps(r: Receipt, r': Receipt) {
    r'.plan == r.plan && (r.taskId.Some? ==> r'.taskId == r.taskId)
  }

  ghost predicate Good(s: State, s': State) {
    StateOk(s') && Grows(s, s')
  }

  // Nothing durable is taken back.
  ghost predicate Grows(s: State, s': State) {
    && (forall op :: op in s.stored ==> op in s'.stored && Keeps(s.stored[op], s'.stored[op]))
    && (forall op :: op in s.tasks ==> op in s'.tasks && s'.tasks[op] == s.tasks[op])
    && s.inspections <= s'.inspections && s.attempts <= s'.attempts
  }

  lemma ReceiptOkGrows(s: State, s': State, r: Receipt)
    requires ReceiptOk(s, r) && Grows(s, s')
    ensures ReceiptOk(s', r)
  {
  }

  // Only this call moved, and it is not about to start an operation that
  // another one is about to start.
  ghost predicate OnlyCall(s: State, s': State, c: nat) {
    && (forall d :: d in s'.calls && d != c ==> d in s.calls && s'.calls[d] == s.calls[d])
    && (c in s'.calls ==> CallOk(s', s'.calls[c]))
    && (c in s'.calls && s'.calls[c].Launching? ==> s'.calls[c].plan.operation !in s.stored)
    && forall d :: d in s.calls && d != c && s.calls[d].Launching? ==>
                     s.calls[d].plan.operation !in s'.tasks && s.calls[d].plan.operation !in s'.attempts
  }

  lemma CallOkGrows(s: State, s': State, k: Call)
    requires CallOk(s, k) && Grows(s, s')
    requires k.Launching? ==> k.plan.operation !in s'.tasks && k.plan.operation !in s'.attempts
    ensures CallOk(s', k)
  {
  }

  lemma MoveKeepsOk(s: State, s': State, c: nat)
    requires StateOk(s) && Grows(s, s') && OnlyCall(s, s', c)
    requires StoredOk(s') && AttemptedOnce(s')
    ensures StateOk(s')
  {
    forall d | d in s'.calls ensures CallOk(s', s'.calls[d]) {
      if d != c {
        CallOkGrows(s, s', s.calls[d]);
      }
    }
    forall d, e | d in s'.calls && e in s'.calls && d != e && s'.calls[d].Launching? && s'.calls[e].Launching?
      ensures s'.calls[d].plan.operation != s'.calls[e].plan.operation
    {
      assert d != c ==> CallOk(s, s.calls[d]);
      assert e != c ==> CallOk(s, s.calls[e]);
    }
  }

  // A receipt was written that is as good as the one it replaced.
  lemma StoreKeepsOk(s: State, s': State, r: Receipt)
    requires StateOk(s) && s'.stored == s.stored[r.plan.operation := r] && Grows(s, s')
    requires ReceiptOk(s', r)
    ensures StoredOk(s')
  {
    forall op | op in s'.stored ensures s'.stored[op].plan.operation == op && ReceiptOk(s', s'.stored[op]) {
      if op != r.plan.operation {
        ReceiptOkGrows(s, s', s.stored[op]);
      }
    }
  }

  lemma SameStoreKeepsOk(s: State, s': State)
    requires StateOk(s) && s'.stored == s.stored && Grows(s, s')
    ensures StoredOk(s')
  {
    forall op | op in s'.stored ensures s'.stored[op].plan.operation == op && ReceiptOk(s', s'.stored[op]) {
      ReceiptOkGrows(s, s', s.stored[op]);
    }
  }

  // Owners may change and inspections pass without any call moving.
  lemma SameCallsOk(s: State, s': State)
    requires StateOk(s) && s' == s.(owners := s'.owners, inspections := s'.inspections) && s.inspections <= s'.inspections
    ensures Good(s, s')
  {
    SameStoreKeepsOk(s, s');
    forall c | c in s'.calls ensures CallOk(s', s'.calls[c]) {
      assert CallOk(s, s.calls[c]);
      CallOkGrows(s, s', s.calls[c]);
    }
  }

  lemma GoneKeepsOk(s: State, c: nat)
    requires StateOk(s)
    ensures Good(s, Gone(s, c))
  {
    SameStoreKeepsOk(s, Gone(s, c));
    NoNewLauncher(s, Gone(s, c), c);
    MoveKeepsOk(s, Gone(s, c), c);
  }

  // A step without a delegated start leaves other calls' starts possible.
  lemma NoNewLauncher(s: State, s': State, c: nat)
    requires StateOk(s) && s'.attempts == s.attempts && s'.tasks == s.tasks
    ensures forall d :: d in s.calls && d != c && s.calls[d].Launching? ==>
                          s.calls[d].plan.operation !in s'.tasks && s.calls[d].plan.operation !in s'.attempts
  {
    forall d | d in s.calls && d != c && s.calls[d].Launching?
      ensures s.calls[d].plan.operation !in s'.tasks && s.calls[d].plan.operation !in s'.attempts
    {
      assert CallOk(s, s.calls[d]);
    }
  }

  lemma CreateKeepsOk(s: State, c: nat, k: Call)
    requires StateOk(s) && c in s.calls && s.calls[c] == k && k.Opening? && k.plan.operation !in s.stored
    ensures Good(s, DoOpen(s, c, k))
  {
    var s' := DoOpen(s, c, k);
    StoreKeepsOk(s, s', Begun(k.plan, k.model, k.effort));
    assert k.plan.operation !in s.attempts;
    NoNewLauncher(s, s', c);
    MoveKeepsOk(s, s', c);
  }

  lemma OpenKeepsOk(s: State, c: nat)
    requires StateOk(s) && c in s.calls && s.calls[c].Opening?
    ensures Good(s, DoOpen(s, c, s.calls[c]))
  {
    var k := s.calls[c];
    var s' := DoOpen(s, c, k);
    if k.plan.operation !in s.stored {
      CreateKeepsOk(s, c, k);
    } else if c in s'.calls {
      MovedKeepsOk(s, s', c, s'.calls[c]);
    } else {
      GoneKeepsOk(s, c);
    }
  }

  lemma LaunchKeepsOk(s: State, c: nat, crossed: Option<string>, answered: bool)
    requires StateOk(s) && c in s.calls && s.calls[c].Launching?
    ensures Good(s, DoLaunch(s, c, s.calls[c], crossed, answered))
  {
    var k := s.calls[c];
    var s' := DoLaunch(s, c, k, crossed, answered);
    assert CallOk(s, k);
    SameStoreKeepsOk(s, s');
    forall d | d in s.calls && d != c && s.calls[d].Launching?
      ensures s.calls[d].plan.operation !in s'.tasks && s.calls[d].plan.operation !in s'.attempts
    {
      assert CallOk(s, s.calls[d]);
    }
    MoveKeepsOk(s, s', c);
  }

  lemma WithTaskIsOk(s: State, r: Receipt, task: string)
    requires ReceiptOk(s, r) && r.plan.operation in s.tasks && s.tasks[r.plan.operation] == task
    requires WithTask(r, task).Ok?
    ensures ReceiptOk(s, WithTask(r, task).value)
  {
  }

  lemma SavedKeepsOk(s: State, s': State, c: nat, r: Receipt)
    requires StateOk(s) && c in s.calls && ReceiptOk(s, r)
    requires Keeps(s.stored[r.plan.operation], r)
    requires s' == s.(stored := s.stored[r.plan.operation := r], calls := s'.calls)
    requires s'.calls == s.calls - {c} || s'.calls == s.calls[c := Asking(r, s.calls[c].owner)]
    ensures Good(s, s')
  {
    ReceiptOkGrows(s, s', r);
    StoreKeepsOk(s, s', r);
    NoNewLauncher(s, s', c);
    MoveKeepsOk(s, s', c);
  }

  lemma RecordLaunchedKeepsOk(s: State, c: nat)
    requires StateOk(s) && c in s.calls && s.calls[c].Launched?
    ensures Good(s, DoRecordLaunched(s, c, s.calls[c]))
  {
    var k := s.calls[c];
    var s' := DoRecordLaunched(s, c, k);
    assert CallOk(s, k);
    if s'.stored == s.stored {
      GoneKeepsOk(s, c);
    } else {
      var r := s.stored[k.plan.operation];
      WithTaskIsOk(s, r, k.task);
      SavedKeepsOk(s, s', c, WithTask(r, k.task).value);
    }
  }

  lemma SaveAnswerKeepsOk(s: State, c: nat)
    requires StateOk(s) && c in s.calls && s.calls[c].Recovered?
    ensures Good(s, DoSaveAnswer(s, c, s.calls[c]))
  {
    var k := s.calls[c];
    var s' := DoSaveAnswer(s, c, k);
    assert CallOk(s, k);
    var next := if k.recovered.Some? then WithTask(k.receipt, k.recovered.value) else Reconciled(k.receipt, IsUnknown, false);
    var current := CurrentOwner(s, k.owner);
    if current.None? || SaveRecoveredOf(s.stored, k.receipt, k.owner, current.value, k.recovered).1.Err? {
      GoneKeepsOk(s, c);
    } else {
      if k.recovered.Some? {
        WithTaskIsOk(s, k.receipt, k.recovered.value);
      }
      SavedKeepsOk(s, s', c, next.value);
    }
  }

  lemma ObserveKeepsOk(s: State, c: nat, execution: Execution, inspected: bool)
    requires StateOk(s) && c in s.calls && s.calls[c].Asking?
    ensures Good(s, DoObserve(s, c, s.calls[c], execution, inspected))
  {
    var k := s.calls[c];
    var s' := DoObserve(s, c, k, execution, inspected);
    assert CallOk(s, k);
    var seen := s.(inspections := s'.inspections);
    SameCallsOk(s, seen);
    ReceiptOkGrows(s, seen, k.receipt);
    if c in s'.calls && s'.calls[c].Observed? {
      MovedKeepsOk(seen, s', c, s'.calls[c]);
    } else {
      GoneKeepsOk(s, c);
    }
  }

  lemma SaveObservationKeepsOk(s: State, c: nat)
    requires StateOk(s) && c in s.calls && s.calls[c].Observed?
    ensures Good(s, DoSaveObservation(s, c, s.calls[c]))
  {
    var k := s.calls[c];
    var s' := DoSaveObservation(s, c, k);
    assert CallOk(s, k);
    if s'.stored == s.stored {
      GoneKeepsOk(s, c);
    } else {
      SavedKeepsOk(s, s', c, k.next);
    }
  }

  // A call that only read something goes on with what it read.
  lemma MovedKeepsOk(s: State, s': State, c: nat, k: Call)
    requires StateOk(s) && s' == Goes(s, c, k) && CallOk(s, k) && !k.Launching?
    ensures Good(s, s')
  {
    CallOkGrows(s, s', k);
    SameStoreKeepsOk(s, s');
    NoNewLauncher(s, s', c);
    MoveKeepsOk(s, s', c);
  }

  lemma ReadKeepsOk(s: State, c: nat)
    requires StateOk(s) && c in s.calls && s.calls[c].Status?
    ensures Good(s, DoRead(s, c, s.calls[c]))
  {
    var s' := DoRead(s, c, s.calls[c]);
    if c in s'.calls {
      MovedKeepsOk(s, s', c, s'.calls[c]);
    } else {
      GoneKeepsOk(s, c);
    }
  }

  lemma AskRetainedKeepsOk(s: State, c: nat, retained: bool)
    requires StateOk(s) && c in s.calls && s.calls[c].Recovering?
    ensures Good(s, DoAskRetained(s, c, s.calls[c], retained))
  {
    var s' := DoAskRetained(s, c, s.calls[c], retained);
    assert CallOk(s, s.calls[c]);
    MovedKeepsOk(s, s', c, s'.calls[c]);
  }

  lemma StepKeepsOk(s: State, step: Step)
    requires StateOk(s)
    ensures Good(s, Do(s, step))
  {
    match step
    case EnterStart(c, session, op, adapter, inputs, model, effort) =>
      if c !in s.calls && session in s.owners {
        MovedKeepsOk(s, Do(s, step), c, Do(s, step).calls[c]);
      }
    case EnterStatus(c, session, op) =>
      if c !in s.calls && session in s.owners {
        MovedKeepsOk(s, Do(s, step), c, Do(s, step).calls[c]);
      }
    case Leave(c) => GoneKeepsOk(s, c);
    case OwnerChanges(session, owner) =>
      SameStoreKeepsOk(s, Do(s, step));
      SameCallsOk(s, Do(s, step));
    case Open(c) => if c in s.calls && s.calls[c].Opening? { OpenKeepsOk(s, c); }
    case Launch(c, crossed, answered) => if c in s.calls && s.calls[c].Launching? { LaunchKeepsOk(s, c, crossed, answered); }
    case RecordLaunched(c) => if c in s.calls && s.calls[c].Launched? { RecordLaunchedKeepsOk(s, c); }
    case Read(c) => if c in s.calls && s.calls[c].Status? { ReadKeepsOk(s, c); }
    case AskRetained(c, retained) => if c in s.calls && s.calls[c].Recovering? { AskRetainedKeepsOk(s, c, retained); }
    case SaveAnswer(c) => if c in s.calls && s.calls[c].Recovered? { SaveAnswerKeepsOk(s, c); }
    case Observe(c, execution, inspected) =>
      if c in s.calls && s.calls[c].Asking? { ObserveKeepsOk(s, c, execution, inspected); }
    case SaveObservation(c) => if c in s.calls && s.calls[c].Observed? { SaveObservationKeepsOk(s, c); }
  }

  lemma {:induction false} RunKeepsOk(s: State, steps: seq<Step>)
    requires StateOk(s)
    ensures StateOk(RunFrom(s, steps)) && Grows(s, RunFrom(s, steps))
    decreases |steps|
  {
    if steps != [] {
      StepKeepsOk(s, steps[0]);
      RunKeepsOk(Do(s, steps[0]), steps[1..]);
    }
  }

  lemma {:induction false} RunInTwo(s: State, steps: seq<Step>, more: seq<Step>)
    ensures RunFrom(s, steps + more) == RunFrom(RunFrom(s, steps), more)
    decreases |steps|
  {
    if steps == [] {
      assert steps + more == more;
    } else {
      assert (steps + more)[1..] == steps[1..] + more;
      RunInTwo(Do(s, steps[0]), steps[1..], more);
    }
  }

  // ----- the properties of every run -----

  // Whatever is retried, run at the same time or cut off, the delegated start
  // of an operation is tried at most once, and only with its receipt stored.
  lemma StartIsAttemptedAtMostOnce(steps: seq<Step>)
    ensures var s := Run(steps);
            && (forall i, j :: 0 <= i < j < |s.attempts| ==> s.attempts[i] != s.attempts[j])
            && (forall i :: 0 <= i < |s.attempts| ==> s.attempts[i] in s.stored && s.stored[s.attempts[i]].startAttempted)
  {
    RunKeepsOk(EMPTY, steps);
    var s := Run(steps);
    forall i | 0 <= i < |s.attempts| ensures s.attempts[i] in s.stored && s.stored[s.attempts[i]].startAttempted {
      assert ReceiptOk(s, s.stored[s.attempts[i]]);
    }
  }

  // A stored receipt stays, with its plan, and with its task once it has one,
  // which is the task the backend started for it.
  lemma TaskIsPermanent(steps: seq<Step>, more: seq<Step>, op: string)
    requires op in Run(steps).stored
    ensures var s, s' := Run(steps), Run(steps + more);
            && op in s'.stored && s'.stored[op].plan == s.stored[op].plan
            && (s.stored[op].taskId.Some? ==> op in s.tasks && s.stored[op].taskId == Some(s.tasks[op]))
            && (s.stored[op].taskId.Some? ==> s'.stored[op].taskId == s.stored[op].taskId)
  {
    RunKeepsOk(EMPTY, steps);
    RunInTwo(EMPTY, steps, more);
    RunKeepsOk(Run(steps), more);
    assert ReceiptOk(Run(steps), Run(steps).stored[op]);
    assert ReceiptOk(Run(steps + more), Run(steps + more).stored[op]);
  }

  // ----- no update is lost -----

  ghost predicate BoundIsCurrent(s: State, plan: Plan) {
    exists session :: session in s.owners && s.owners[session].binding == plan.binding
  }

  // What a step that rewrites a stored receipt `r` puts in its place. The two
  // saves of `status` first compare the stored receipt with the very one the
  // call computed from; the save after a start reads it in the same critical
  // section. No other step rewrites one.
  ghost predicate WriteFrom(s: State, step: Step, r: Receipt, r': Receipt) {
    match step
    case RecordLaunched(c) =>
      c in s.calls && s.calls[c].Launched? && WithTask(r, s.calls[c].task) == Ok(r')
    case SaveAnswer(c) =>
      && c in s.calls && s.calls[c].Recovered? && s.calls[c].receipt == r
      && (match s.calls[c].recovered
          case Some(task) => WithTask(r, task) == Ok(r')
          case None => Reconciled(r, IsUnknown, false) == Ok(r'))
    case SaveObservation(c) =>
      && c in s.calls && s.calls[c].Observed? && s.calls[c].receipt == r
      && Reconciled(r, s.calls[c].execution, s.calls[c].inspected) == Ok(r')
    case _ => false
  }

  lemma LaunchedWrites(s: State, c: nat, op: string)
    requires StateOk(s) && c in s.calls && s.calls[c].Launched?
    requires op in s.stored && op in DoRecordLaunched(s, c, s.calls[c]).stored
    requires DoRecordLaunched(s, c, s.calls[c]).stored[op] != s.stored[op]
    ensures WriteFrom(s, RecordLaunched(c), s.stored[op], DoRecordLaunched(s, c, s.calls[c]).stored[op])
    ensures BoundIsCurrent(s, s.stored[op].plan)
  {
    assert CallOk(s, s.calls[c]);
  }

  lemma AnswerWrites(s: State, c: nat, op: string)
    requires StateOk(s) && c in s.calls && s.calls[c].Recovered?
    requires op in s.stored && op in DoSaveAnswer(s, c, s.calls[c]).stored
    requires DoSaveAnswer(s, c, s.calls[c]).stored[op] != s.stored[op]
    ensures WriteFrom(s, SaveAnswer(c), s.stored[op], DoSaveAnswer(s, c, s.calls[c]).stored[op])
    ensures BoundIsCurrent(s, s.stored[op].plan)
  {
    assert CallOk(s, s.calls[c]);
  }

  lemma ObservationWrites(s: State, c: nat, op: string)
    requires StateOk(s) && c in s.calls && s.calls[c].Observed?
    requires op in s.stored && op in DoSaveObservation(s, c, s.calls[c]).stored
    requires DoSaveObservation(s, c, s.calls[c]).stored[op] != s.stored[op]
    ensures WriteFrom(s, SaveObservation(c), s.stored[op], DoSaveObservation(s, c, s.calls[c]).stored[op])
    ensures BoundIsCurrent(s, s.stored[op].plan)
  {
    assert CallOk(s, s.calls[c]);
  }

  // Every other step leaves the receipts that are stored as they are.
  lemma OtherStepsKeepReceipts(s: State, step: Step, op: string)
    requires op in s.stored && !step.RecordLaunched? && !step.SaveAnswer? && !step.SaveObservation?
    ensures op in Do(s, step).stored && Do(s, step).stored[op] == s.stored[op]
  {
  }

  // No update is lost: whatever a step writes over a stored receipt is computed
  // from the receipt it replaces, so that one's own update is in it, and is
  // written while the session instance the receipt is bound to is current.
  lemma NoUpdateIsLost(steps: seq<Step>, step: Step, op: string)
    requires op in Run(steps).stored
    ensures var s, s' := Run(steps), Run(steps + [step]);
            && op in s'.stored
            && (s'.stored[op] != s.stored[op] ==>
                  WriteFrom(s, step, s.stored[op], s'.stored[op]) && BoundIsCurrent(s, s.stored[op].plan))
  {
    RunKeepsOk(EMPTY, steps);
    RunInTwo(EMPTY, steps, [step]);
    var s := Run(steps);
    assert RunFrom(s, [step]) == Do(s, step);
    StepKeepsOk(s, step);
    if step.RecordLaunched? && step.call in s.calls && s.calls[step.call].Launched? {
      if Do(s, step).stored[op] != s.stored[op] { LaunchedWrites(s, step.call, op); }
    } else if step.SaveAnswer? && step.call in s.calls && s.calls[step.call].Recovered? {
      if Do(s, step).stored[op] != s.stored[op] { AnswerWrites(s, step.call, op); }
    } else if step.SaveObservation? && step.call in s.calls && s.calls[step.call].Observed? {
      if Do(s, step).stored[op] != s.stored[op] { ObservationWrites(s, step.call, op); }
    } else if !step.RecordLaunched? && !step.SaveAnswer? && !step.SaveObservation? {
      OtherStepsKeepReceipts(s, step, op);
    }
  }

  // Ready is only stored for a task that was seen completed and whose
  // workspace passed inspection.
  lemma ReadyMeansInspected(steps: seq<Step>, op: string)
    requires op in Run(steps).stored && Run(steps).stored[op].phase == Ready
    ensures var s := Run(steps);
            s.stored[op].taskId.Some? && Inspection(op, s.stored[op].taskId.value) in s.inspections
  {
    RunKeepsOk(EMPTY, steps);
    assert ReceiptOk(Run(steps), Run(steps).stored[op]);
  }
}
