// Environment preparation: the receipt, and the file it is kept in, which is
// written only under the lock and only over the value it was computed from.
module Preparation {
  import opened Wrappers

  datatype Adapter = VpPnpm | CargoSccache

  // The instance of a session a plan is bound to.
  datatype Binding = Binding(session: string, startedAt: nat, processId: nat, policy: string)

  datatype Owner = Owner(binding: Binding, workspaceId: string, repository: string, operation: string)

  datatype Plan = Plan(operation: string, binding: Binding, workspaceId: string, repository: string,
                       adapter: Adapter, inputs: string)

  datatype Phase = Pending | InFlight | Ready | Failed | Uncertain

  datatype Execution = IsRunning | IsCompleted | IsFailed | IsUnknown

  datatype Receipt = Receipt(plan: Plan, phase: Phase, taskId: Option<string>, startAttempted: bool,
                             model: string, effort: string)

  datatype Problem = AlreadyAttempted | NotStarted | TaskChanged | Conflict | OwnerChanged | Missing | Concurrent

  function NewReceipt(plan: Plan, model: string, effort: string): Receipt {
    Receipt(plan, Pending, None, false, model, effort)
  }

  // What a start writes before it starts anything.
  function Begun(plan: Plan, model: string, effort: string): Receipt {
    Receipt(plan, InFlight, None, true, model, effort)
  }

  function WithTask(r: Receipt, task: string): Result<Receipt, Problem> {
    if !(r.startAttempted && (r.phase == InFlight || r.phase == Uncertain)) then Err(NotStarted)
    else if r.taskId.Some? && r.taskId.value != task then Err(TaskChanged)
    else Ok(r.(taskId := Some(task), phase := InFlight))
  }

  function PhaseAfter(execution: Execution, inspected: bool): Phase {
    match execution
    case IsRunning => InFlight
    case IsUnknown => Uncertain
    case IsFailed => Failed
    case IsCompleted => if inspected then Ready else Failed
  }

  function Reconciled(r: Receipt, execution: Execution, inspected: bool): Result<Receipt, Problem> {
    if !r.startAttempted then Err(NotStarted) else Ok(r.(phase := PhaseAfter(execution, inspected)))
  }

  // The receipt in memory, updated in place.
  class PreparationReceipt {
    const plan: Plan
    const model: string
    const effort: string
    var phase: Phase
    var taskId: Option<string>
    var startAttempted: bool

    function Value(): Receipt
      reads this
    {
      Receipt(plan, phase, taskId, startAttempted, model, effort)
    }

    constructor (plan: Plan, model: string, effort: string)
      ensures Value() == NewReceipt(plan, model, effort)
    {
      this.plan, this.model, this.effort := plan, model, effort;
      phase, taskId, startAttempted := Pending, None, false;
    }

    constructor From(r: Receipt)
      ensures Value() == r
    {
      plan, model, effort := r.plan, r.model, r.effort;
      phase, taskId, startAttempted := r.phase, r.taskId, r.startAttempted;
    }

    // Only a receipt that was never begun can begin.
    method Begin() returns (res: Result<(), Problem>)
      modifies this
      ensures res.Ok? <==> old(phase) == Pending && !old(startAttempted)
      ensures res.Ok? ==> startAttempted && phase == InFlight && taskId == old(taskId)
      ensures res.Err? ==> Value() == old(Value())
    {
      if phase != Pending || startAttempted {
        return Err(AlreadyAttempted);
      }
      startAttempted := true;
      phase := InFlight;
      res := Ok(());
    }

    method RecordTask(task: string) returns (res: Result<(), Problem>)
      modifies this
      ensures res.Ok? <==> WithTask(old(Value()), task).Ok?
      ensures res.Ok? <==>
                && old(startAttempted) && (old(phase) == InFlight || old(phase) == Uncertain)
                && (old(taskId) == None || old(taskId) == Some(task))
      ensures res.Ok? ==> taskId == Some(task) && phase == InFlight && startAttempted
      ensures Value() == if res.Ok? then WithTask(old(Value()), task).value else old(Value())
    {
      if !(startAttempted && (phase == InFlight || phase == Uncertain)) {
        return Err(NotStarted);
      }
      if taskId.Some? && taskId.value != task {
        return Err(TaskChanged);
      }
      taskId := Some(task);
      phase := InFlight;
      res := Ok(());
    }

    // A finished execution is ready only if the workspace passes inspection.
    method Reconcile(execution: Execution, inspected: bool) returns (res: Result<Phase, Problem>)
      modifies this
      ensures res.Ok? <==> old(startAttempted)
      ensures res.Ok? ==> taskId == old(taskId) && startAttempted
      ensures res.Ok? && execution == IsRunning ==> phase == InFlight
      ensures res.Ok? && execution == IsUnknown ==> phase == Uncertain
      ensures res.Ok? && execution == IsFailed ==> phase == Failed
      ensures res.Ok? && execution == IsCompleted ==> phase == if inspected then Ready else Failed
      ensures Value() == if res.Ok? then Reconciled(old(Value()), execution, inspected).value else old(Value())
      ensures res.Ok? ==> res.value == phase
    {
      if !startAttempted {
        return Err(NotStarted);
      }
      match execution {
        case IsRunning => phase := InFlight;
        case IsUnknown => phase := Uncertain;
        case IsFailed => phase := Failed;
        case IsCompleted =>
          if inspected {
            phase := Ready;
          } else {
            phase := Failed;
          }
      }
      res := Ok(phase);
    }
  }

  type Stored = map<string, Receipt>

  function StoredAt(m: Stored, operation: string): Option<Receipt> {
    if operation in m then Some(m[operation]) else None
  }

  predicate OwnedBy(plan: Plan, owner: Owner) {
    plan.binding == owner.binding && plan.workspaceId == owner.workspaceId && plan.repository == owner.repository
  }

  // ----- what each critical section does -----

  datatype Opening = Created | Existing

  function OpenOf(m: Stored, plan: Plan, model: string, effort: string): (Stored, Result<Opening, Problem>) {
    if plan.operation in m then
      var r := m[plan.operation];
      (m, if r.plan == plan && r.model == model && r.effort == effort then Ok(Existing) else Err(Conflict))
    else
      (m[plan.operation := Begun(plan, model, effort)], Ok(Created))
  }

  // A save that finds another value than the expected one writes nothing.
  function SaveOf(m: Stored, r: Receipt, expected: Option<Receipt>): (Stored, Result<(), Problem>) {
    if StoredAt(m, r.plan.operation) == expected then (m[r.plan.operation := r], Ok(())) else (m, Err(Concurrent))
  }

  function RecordStartedOf(m: Stored, plan: Plan, owner: Owner, current: Owner, task: string): (Stored, Result<(), Problem>) {
    if plan.binding != current.binding || owner.operation != current.operation then (m, Err(OwnerChanged))
    else if plan.operation !in m then (m, Err(Missing))
    else
      var next := WithTask(m[plan.operation], task);
      if next.Err? then (m, Err(next.error)) else SaveOf(m, next.value, Some(m[plan.operation]))
  }

  function SaveRecoveredOf(m: Stored, r: Receipt, owner: Owner, current: Owner, recovered: Option<string>):
      (Stored, Result<Receipt, Problem>) {
    if r.plan.binding != current.binding || owner.operation != current.operation then (m, Err(OwnerChanged))
    else if r.plan.operation !in m then (m, Err(Missing))
    else if m[r.plan.operation] != r then (m, Err(Concurrent))
    else
      var next := if recovered.Some? then WithTask(r, recovered.value) else Reconciled(r, IsUnknown, false);
      if next.Err? then (m, next)
      else
        var saved := SaveOf(m, next.value, Some(r));
        (saved.0, if saved.1.Ok? then next else Err(saved.1.error))
  }

  function SaveReconciledOf(m: Stored, previous: Receipt, next: Receipt, owner: Owner, current: Owner):
      (Stored, Result<(), Problem>) {
    if previous.plan.binding != current.binding || owner.operation != current.operation then (m, Err(OwnerChanged))
    else SaveOf(m, next, Some(previous))
  }

  class ReceiptStore {
    var receipts: Stored

    ghost predicate Valid()
      reads this
    {
      forall op :: op in receipts ==> receipts[op].plan.operation == op
    }

    constructor ()
      ensures Valid() && receipts == map[]
    {
      receipts := map[];
    }

    method ReadReceipt(operation: string) returns (r: Option<Receipt>)
      ensures r == StoredAt(receipts, operation)
    {
      r := StoredAt(receipts, operation);
    }

    method SaveReceipt(r: Receipt, expected: Option<Receipt>) returns (res: Result<(), Problem>)
      requires Valid()
      modifies this
      ensures Valid() && (receipts, res) == SaveOf(old(receipts), r, expected)
    {
      var stored := ReadReceipt(r.plan.operation);
      if stored != expected {
        return Err(Concurrent);
      }
      receipts := receipts[r.plan.operation := r];
      res := Ok(());
    }

    // The critical section in which a start finds its receipt or begins one.
    method OpenReceipt(plan: Plan, model: string, effort: string) returns (res: Result<Opening, Problem>)
      requires Valid()
      modifies this
      ensures Valid() && (receipts, res) == OpenOf(old(receipts), plan, model, effort)
    {
      var existing := ReadReceipt(plan.operation);
      if existing.Some? {
        var r := existing.value;
        if r.plan != plan || r.model != model || r.effort != effort {
          return Err(Conflict);
        }
        return Ok(Existing);
      }
      var receipt := new PreparationReceipt(plan, model, effort);
      var begun := receipt.Begin();
      var saved := SaveReceipt(receipt.Value(), None);
      res := Ok(Created);
    }

    // After the delegated start answered with a task.
    method RecordStarted(plan: Plan, owner: Owner, current: Owner, task: string) returns (res: Result<(), Problem>)
      requires Valid()
      modifies this
      ensures Valid() && (receipts, res) == RecordStartedOf(old(receipts), plan, owner, current, task)
    {
      if plan.binding != current.binding || owner.operation != current.operation {
        return Err(OwnerChanged);
      }
      var stored := ReadReceipt(plan.operation);
      if stored.None? {
        return Err(Missing);
      }
      var receipt := new PreparationReceipt.From(stored.value);
      var recorded := receipt.RecordTask(task);
      if recorded.Err? {
        return Err(WithTask(stored.value, task).error);
      }
      res := SaveReceipt(receipt.Value(), stored);
    }

    // After looking for a task the backend may have retained.
    method SaveRecovered(r: Receipt, owner: Owner, current: Owner, recovered: Option<string>)
      returns (res: Result<Receipt, Problem>)
      requires Valid()
      modifies this
      ensures Valid() && (receipts, res) == SaveRecoveredOf(old(receipts), r, owner, current, recovered)
    {
      if r.plan.binding != current.binding || owner.operation != current.operation {
        return Err(OwnerChanged);
      }
      var previous := ReadReceipt(r.plan.operation);
      if previous.None? {
        return Err(Missing);
      }
      if previous.value != r {
        return Err(Concurrent);
      }
      var receipt := new PreparationReceipt.From(r);
      if recovered.Some? {
        var recorded := receipt.RecordTask(recovered.value);
        if recorded.Err? {
          return Err(WithTask(r, recovered.value).error);
        }
      } else {
        var reconciled := receipt.Reconcile(IsUnknown, false);
        if reconciled.Err? {
          return Err(NotStarted);
        }
      }
      var saved := SaveReceipt(receipt.Value(), previous);
      res := Ok(receipt.Value());
    }

    // After asking the backend how the task is doing.
    method SaveReconciled(previous: Receipt, next: Receipt, owner: Owner, current: Owner) returns (res: Result<(), Problem>)
      requires Valid()
      modifies this
      ensures Valid() && (receipts, res) == SaveReconciledOf(old(receipts), previous, next, owner, current)
    {
      if previous.plan.binding != current.binding || owner.operation != current.operation {
        return Err(OwnerChanged);
      }
      res := SaveReceipt(next, Some(previous));
    }
  }
}
