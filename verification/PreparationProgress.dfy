// What undisturbed calls of `start` and `status` get done, in the fields of the
// stored receipt.
module PreparationProgress {
  import opened Wrappers
  import opened Preparation
  import opened PreparationRuns

  lemma RunOfTwo(s: State, a: Step, b: Step)
    ensures RunFrom(s, [a, b]) == Do(Do(s, a), b)
  {
    assert [a, b][1..] == [b] && [b][1..] == [];
    assert RunFrom(Do(s, a), [b]) == RunFrom(Do(Do(s, a), b), []);
  }

  lemma RunOfFour(s: State, a: Step, b: Step, c: Step, d: Step)
    ensures RunFrom(s, [a, b, c, d]) == RunFrom(RunFrom(s, [a, b]), [c, d])
  {
    RunInTwo(s, [a, b], [c, d]);
    assert [a, b] + [c, d] == [a, b, c, d];
  }

  lemma Overwritten(calls: map<nat, Call>, c: nat, k: Call, l: Call)
    ensures calls[c := k][c := l] == calls[c := l] && calls[c := k] - {c} == calls - {c}
    ensures c !in calls ==> calls[c := k] - {c} == calls
  {
  }

  // The session has an owner, who is bound to it.
  predicate Present(s: State, session: string) {
    session in s.owners && s.owners[session].binding.session == session
  }

  function PlanFor(owner: Owner, operation: string, adapter: Adapter, inputs: string): Plan {
    Plan(operation, owner.binding, owner.workspaceId, owner.repository, adapter, inputs)
  }

  // ----- start -----

  function BegunAt(s: State, plan: Plan, model: string, effort: string): State {
    s.(stored := s.stored[plan.operation := Receipt(plan, InFlight, None, true, model, effort)])
  }

  lemma StartOpens(s: State, c: nat, session: string, operation: string, adapter: Adapter, inputs: string,
                   model: string, effort: string)
    requires session in s.owners && c !in s.calls && operation !in s.stored
    ensures var plan := PlanFor(s.owners[session], operation, adapter, inputs);
            RunFrom(s, [EnterStart(c, session, operation, adapter, inputs, model, effort), Open(c)])
            == Goes(BegunAt(s, plan, model, effort), c, Launching(plan, s.owners[session]))
  {
    var enter := EnterStart(c, session, operation, adapter, inputs, model, effort);
    RunOfTwo(s, enter, Open(c));
    StartEnters(s, c, session, operation, adapter, inputs, model, effort);
    var owner := s.owners[session];
    var plan := PlanFor(owner, operation, adapter, inputs);
    OpenBegins(Goes(s, c, Opening(plan, model, effort, owner)), c, plan, model, effort, owner);
    Overwritten(s.calls, c, Opening(plan, model, effort, owner), Launching(plan, owner));
  }

  lemma StartEnters(s: State, c: nat, session: string, operation: string, adapter: Adapter, inputs: string,
                    model: string, effort: string)
    requires session in s.owners && c !in s.calls
    ensures var owner := s.owners[session];
            Do(s, EnterStart(c, session, operation, adapter, inputs, model, effort))
            == Goes(s, c, Opening(PlanFor(owner, operation, adapter, inputs), model, effort, owner))
  {
  }

  lemma OpenBegins(s: State, c: nat, plan: Plan, model: string, effort: string, owner: Owner)
    requires c in s.calls && s.calls[c] == Opening(plan, model, effort, owner) && plan.operation !in s.stored
    ensures Do(s, Open(c)) == Goes(BegunAt(s, plan, model, effort), c, Launching(plan, owner))
  {
  }

  lemma LaunchIsRecorded(s: State, c: nat, plan: Plan, owner: Owner, r: Receipt, task: string)
    requires c in s.calls && s.calls[c] == Launching(plan, owner) && owner.binding == plan.binding
    requires Present(s, owner.binding.session) && s.owners[owner.binding.session] == owner
    requires plan.operation in s.stored && s.stored[plan.operation] == r && r.plan == plan
    requires r.startAttempted && r.phase == InFlight && r.taskId == None
    ensures RunFrom(s, [Launch(c, Some(task), true), RecordLaunched(c)])
            == s.(stored := s.stored[plan.operation := r.(taskId := Some(task))],
                  attempts := s.attempts + [plan.operation], tasks := s.tasks[plan.operation := task],
                  calls := s.calls - {c})
  {
    RunOfTwo(s, Launch(c, Some(task), true), RecordLaunched(c));
    LaunchCrosses(s, c, plan, owner, task);
    LaunchedIsSaved(Crossed(s, c, plan, owner, task), c, plan, owner, r, task);
    Overwritten(s.calls, c, Launched(plan, owner, task), Launched(plan, owner, task));
  }

  function Crossed(s: State, c: nat, plan: Plan, owner: Owner, task: string): State {
    Goes(s.(attempts := s.attempts + [plan.operation], tasks := s.tasks[plan.operation := task]),
         c, Launched(plan, owner, task))
  }

  lemma LaunchCrosses(s: State, c: nat, plan: Plan, owner: Owner, task: string)
    requires c in s.calls && s.calls[c] == Launching(plan, owner)
    ensures Do(s, Launch(c, Some(task), true)) == Crossed(s, c, plan, owner, task)
  {
  }

  lemma LaunchedIsSaved(s: State, c: nat, plan: Plan, owner: Owner, r: Receipt, task: string)
    requires c in s.calls && s.calls[c] == Launched(plan, owner, task) && owner.binding == plan.binding
    requires Present(s, owner.binding.session) && s.owners[owner.binding.session] == owner
    requires plan.operation in s.stored && s.stored[plan.operation] == r && r.plan == plan
    requires r.startAttempted && r.phase == InFlight && r.taskId == None
    ensures Do(s, RecordLaunched(c))
            == Gone(s.(stored := s.stored[plan.operation := r.(taskId := Some(task))]), c)
  {
  }

  // A first `start` begins the receipt, starts the task once and records it.
  lemma FirstStartRecordsTask(s: State, c: nat, session: string, operation: string, adapter: Adapter, inputs: string,
                              model: string, effort: string, task: string)
    requires Present(s, session) && c !in s.calls && operation !in s.stored
    ensures var s' := RunFrom(s, [EnterStart(c, session, operation, adapter, inputs, model, effort), Open(c),
                                  Launch(c, Some(task), true), RecordLaunched(c)]);
            var plan := PlanFor(s.owners[session], operation, adapter, inputs);
            && s'.stored == s.stored[operation := Receipt(plan, InFlight, Some(task), true, model, effort)]
            && s'.attempts == s.attempts + [operation] && s'.tasks == s.tasks[operation := task]
            && s'.calls == s.calls && s'.owners == s.owners && s'.inspections == s.inspections
  {
    RunOfFour(s, EnterStart(c, session, operation, adapter, inputs, model, effort), Open(c),
              Launch(c, Some(task), true), RecordLaunched(c));
    var owner := s.owners[session];
    var plan := PlanFor(owner, operation, adapter, inputs);
    StartOpens(s, c, session, operation, adapter, inputs, model, effort);
    var s2 := Goes(BegunAt(s, plan, model, effort), c, Launching(plan, owner));
    LaunchIsRecorded(s2, c, plan, owner, Receipt(plan, InFlight, None, true, model, effort), task);
    assert s2.calls - {c} == s.calls;
  }

  // A `start` whose delegated start got no answer leaves the begun receipt, and
  // the attempt is spent.
  lemma UnansweredStartLeavesReceipt(s: State, c: nat, session: string, operation: string, adapter: Adapter,
                                     inputs: string, model: string, effort: string, crossed: Option<string>)
    requires session in s.owners && c !in s.calls && operation !in s.stored
    ensures var s' := Do(RunFrom(s, [EnterStart(c, session, operation, adapter, inputs, model, effort), Open(c)]),
                         Launch(c, crossed, false));
            var plan := PlanFor(s.owners[session], operation, adapter, inputs);
            && s'.stored == s.stored[operation := Receipt(plan, InFlight, None, true, model, effort)]
            && s'.attempts == s.attempts + [operation]
            && s'.tasks == (if crossed.Some? then s.tasks[operation := crossed.value] else s.tasks) && c !in s'.calls
  {
    StartOpens(s, c, session, operation, adapter, inputs, model, effort);
  }

  // A `start` over a stored receipt goes on as `status` for the same inputs and
  // model, and is refused for others.
  lemma RepeatedStartExactly(s: State, c: nat, session: string, operation: string, adapter: Adapter, inputs: string,
                             model: string, effort: string)
    requires session in s.owners && c !in s.calls && operation in s.stored
    ensures var s' := Do(Do(s, EnterStart(c, session, operation, adapter, inputs, model, effort)), Open(c));
            var r, owner := s.stored[operation], s.owners[session];
            && s'.stored == s.stored && s'.attempts == s.attempts && s'.tasks == s.tasks
            && (c in s'.calls <==>
                && r.plan == Plan(operation, owner.binding, owner.workspaceId, owner.repository, adapter, inputs)
                && r.model == model && r.effort == effort)
            && (c in s'.calls ==> s'.calls[c] == Status(operation, owner))
  {
  }

  // ----- status -----

  // Whose receipt this is: the same instance of the session, workspace and
  // repository.
  predicate Owns(owner: Owner, r: Receipt) {
    owner.binding == r.plan.binding && owner.workspaceId == r.plan.workspaceId && owner.repository == r.plan.repository
  }

  // A `status` goes on exactly with a stored receipt of its owner: to the backend
  // if the task is known, and to recover it if it is not.
  lemma StatusReadsExactly(s: State, c: nat, session: string, operation: string)
    requires session in s.owners && c !in s.calls
    ensures var s' := Do(Do(s, EnterStatus(c, session, operation)), Read(c));
            var owner := s.owners[session];
            && s'.stored == s.stored
            && (c in s'.calls <==> operation in s.stored && Owns(owner, s.stored[operation]))
            && (c in s'.calls ==>
                  s'.calls[c] == if s.stored[operation].taskId == None then Recovering(s.stored[operation], owner)
                                 else Asking(s.stored[operation], owner))
  {
  }

  function PhaseSeen(execution: Execution, inspected: bool): Phase {
    if execution == IsRunning then InFlight
    else if execution == IsUnknown then Uncertain
    else if execution == IsFailed then Failed
    else if inspected then Ready else Failed
  }

  // The inspection that an observation passed, if it did.
  function Passed(operation: string, task: string, execution: Execution, inspected: bool): set<Inspection> {
    if execution == IsCompleted && inspected then {Inspection(operation, task)} else {}
  }

  lemma StatusReads(s: State, c: nat, session: string, operation: string)
    requires session in s.owners && c !in s.calls && operation in s.stored
    requires Owns(s.owners[session], s.stored[operation])
    ensures RunFrom(s, [EnterStatus(c, session, operation), Read(c)])
            == Goes(s, c, if s.stored[operation].taskId == None then Recovering(s.stored[operation], s.owners[session])
                          else Asking(s.stored[operation], s.owners[session]))
  {
    RunOfTwo(s, EnterStatus(c, session, operation), Read(c));
    var r, owner := s.stored[operation], s.owners[session];
    Overwritten(s.calls, c, Status(operation, owner), if r.taskId == None then Recovering(r, owner) else Asking(r, owner));
  }

  // A call holds the stored receipt of a present session.
  predicate Holds(s: State, c: nat, r: Receipt, owner: Owner) {
    && Present(s, owner.binding.session) && s.owners[owner.binding.session] == owner && owner.binding == r.plan.binding
    && r.plan.operation in s.stored && s.stored[r.plan.operation] == r && r.startAttempted
  }

  lemma ObservationIsSaved(s: State, c: nat, r: Receipt, owner: Owner, execution: Execution, inspected: bool)
    requires c in s.calls && s.calls[c] == Asking(r, owner) && Holds(s, c, r, owner) && r.taskId.Some?
    ensures var s' := RunFrom(s, [Observe(c, execution, inspected), SaveObservation(c)]);
            && s'.stored == s.stored[r.plan.operation := r.(phase := PhaseSeen(execution, inspected))]
            && s'.attempts == s.attempts && s'.tasks == s.tasks && s'.calls == s.calls - {c}
            && s'.inspections == s.inspections + Passed(r.plan.operation, r.taskId.value, execution, inspected)
  {
    RunOfTwo(s, Observe(c, execution, inspected), SaveObservation(c));
    var k := Observed(r, execution, inspected, r.(phase := PhaseSeen(execution, inspected)), owner);
    Overwritten(s.calls, c, k, k);
  }

  // A `status` over a known task stores what it observes, whatever was stored
  // before: running is in flight, unknown is uncertain, failed is failed, and
  // completed is ready exactly if the workspace passes inspection.
  lemma StatusStoresWhatItSees(s: State, c: nat, session: string, operation: string, execution: Execution, inspected: bool)
    requires StateOk(s) && Present(s, session) && c !in s.calls && operation in s.stored
    requires Owns(s.owners[session], s.stored[operation]) && s.stored[operation].taskId.Some?
    ensures var s' := RunFrom(s, [EnterStatus(c, session, operation), Read(c), Observe(c, execution, inspected),
                                  SaveObservation(c)]);
            && s'.stored == s.stored[operation := s.stored[operation].(phase := PhaseSeen(execution, inspected))]
            && s'.attempts == s.attempts && s'.tasks == s.tasks && s'.calls == s.calls
            && s'.inspections
               == s.inspections + Passed(operation, s.stored[operation].taskId.value, execution, inspected)
  {
    var r, owner := s.stored[operation], s.owners[session];
    assert ReceiptOk(s, r) && r.plan.operation == operation;
    RunOfFour(s, EnterStatus(c, session, operation), Read(c), Observe(c, execution, inspected), SaveObservation(c));
    StatusReads(s, c, session, operation);
    ObservationIsSaved(Goes(s, c, Asking(r, owner)), c, r, owner, execution, inspected);
    assert s.calls[c := Asking(r, owner)] - {c} == s.calls;
  }

  lemma AnswerIsSaved(s: State, c: nat, r: Receipt, owner: Owner, retained: bool)
    requires c in s.calls && s.calls[c] == Recovering(r, owner) && Holds(s, c, r, owner)
    requires r.taskId == None && (r.phase == InFlight || r.phase == Uncertain)
    ensures var s' := RunFrom(s, [AskRetained(c, retained), SaveAnswer(c)]);
            var operation := r.plan.operation;
            var found := retained && operation in s.tasks;
            var r' := if found then r.(taskId := Some(s.tasks[operation]), phase := InFlight) else r.(phase := Uncertain);
            && s'.stored == s.stored[operation := r'] && s'.attempts == s.attempts && s'.tasks == s.tasks
            && s'.calls == (if found then s.calls[c := Asking(r', owner)] else s.calls - {c})
  {
    RunOfTwo(s, AskRetained(c, retained), SaveAnswer(c));
    var found := retained && r.plan.operation in s.tasks;
    if found {
      var task := s.tasks[r.plan.operation];
      Overwritten(s.calls, c, Recovered(r, owner, Some(task)), Asking(r.(taskId := Some(task), phase := InFlight), owner));
    } else {
      Overwritten(s.calls, c, Recovered(r, owner, None), Recovered(r, owner, None));
    }
  }

  // A `status` over a receipt without its task asks the backend for it. A task
  // that was retained is recorded, and the call goes on with it; otherwise the
  // receipt becomes uncertain.
  lemma StatusRecoversTask(s: State, c: nat, session: string, operation: string, retained: bool)
    requires StateOk(s) && Present(s, session) && c !in s.calls && operation in s.stored
    requires Owns(s.owners[session], s.stored[operation]) && s.stored[operation].taskId == None
    ensures var s' := RunFrom(s, [EnterStatus(c, session, operation), Read(c), AskRetained(c, retained), SaveAnswer(c)]);
            var found := retained && operation in s.tasks;
            var r' := if found then s.stored[operation].(taskId := Some(s.tasks[operation]), phase := InFlight)
                      else s.stored[operation].(phase := Uncertain);
            && s'.stored == s.stored[operation := r'] && s'.attempts == s.attempts && s'.tasks == s.tasks
            && s'.calls == (if found then s.calls[c := Asking(r', s.owners[session])] else s.calls)
  {
    var r, owner := s.stored[operation], s.owners[session];
    assert ReceiptOk(s, r) && r.plan.operation == operation;
    RunOfFour(s, EnterStatus(c, session, operation), Read(c), AskRetained(c, retained), SaveAnswer(c));
    StatusReads(s, c, session, operation);
    AnswerIsSaved(Goes(s, c, Recovering(r, owner)), c, r, owner, retained);
    var r' := if operation in s.tasks then r.(taskId := Some(s.tasks[operation]), phase := InFlight) else r;
    Overwritten(s.calls, c, Recovering(r, owner), Asking(r', owner));
  }

  // A session that is no longer the instance a receipt is bound to, or is owned
  // by another operation, stores nothing: a save by a call that waited while the
  // owner changed is dropped.
  lemma StaleOwnerStoresNothing(s: State, c: nat, step: Step, bound: Binding)
    requires c in s.calls
    requires match s.calls[c]
             case Launched(plan, owner, _) => step == RecordLaunched(c) && bound == plan.binding
             case Recovered(r, owner, _) => step == SaveAnswer(c) && bound == r.plan.binding
             case Observed(r, _, _, _, owner) => step == SaveObservation(c) && bound == r.plan.binding
             case _ => false
    requires var session := s.calls[c].owner.binding.session;
             || session !in s.owners || s.owners[session].binding != bound
             || s.owners[session].operation != s.calls[c].owner.operation
    ensures Do(s, step).stored == s.stored && c !in Do(s, step).calls
  {
  }
}
