// Starting a Change's first task: concurrent, retried and crashing calls of
// the start procedure, each critical section one step. The VCS reservation is
// an atomic test-and-set; starting a backend task is admitted by a check of
// the record made just before.
module InitialStart {
  import opened Wrappers
  import opened ChangeModel
  import opened DeliveryPlanning
  import opened ChangeStore
  import opened StoreInvariants
  import opened ChangeRuns

  datatype Pc = Entered | Reserving | AskingVcs | Marking | Launching | Fetching | Importing
              | Resolving | Appending | Handing | StartingMain

  // One call in progress, with the local variables of the procedure.
  datatype Call = Call(changeId: string, request: InitialStart, pc: Pc,
                       change: ChangeRecord, start: InitialStart, newly: bool)

  datatype Launch = Launch(changeId: string, snapshot: Uuid)

  datatype Machine = Machine(
    records: Records,
    reserved: set<Uuid>,
    imported: set<Uuid>,
    launched: seq<Launch>,
    started: seq<ChangeRecord>,
    calls: map<nat, Call>)

  datatype Action =
    | Enter(call: nat, changeId: string, request: InitialStart)
    | Leave(call: nat)
    | Other(op: StoreOp)
    | OtherReserves(snapshot: Uuid)
    | OtherImports(snapshot: Uuid)
    | Advance(call: nat)
    | Import(call: nat, logical: string, materialized: string, vcs: string)

  function NeedsDispatch(start: InitialStart): bool {
    !start.dispatched
  }

  // Checked between the reservation and the start of the snapshot helper.
  predicate SnapshotAdmitted(current: ChangeRecord, reserved: ChangeRecord, start: InitialStart) {
    && current.initialStart == Some(start)
    && start.dispatched && !start.verified
    && current.executions == [] && current.writer.None?
    && current.workspace == reserved.workspace
    && current.taskId == reserved.taskId
    && current.scope == reserved.scope
  }

  // Checked just before the main backend task starts.
  predicate MainAdmitted(latest: ChangeRecord, start: InitialStart) {
    && latest.initialStart == Some(start)
    && latest.writer.Some? && latest.writer.value.executionId == start.executionId
  }

  predicate CallAt(s: Machine, c: nat, pc: Pc) {
    c in s.calls && s.calls[c].pc == pc
  }

  // The store answered an update of this call with record `r`.
  predicate Updated(scope: Scope, s: Machine, s': Machine, c: nat, op: RecordOp, r: ChangeRecord)
    requires c in s.calls
  {
    Executed(s'.records, Ok(r)) == Execute(scope, s.records, Update(s.calls[c].changeId, s.calls[c].change.revision, op))
  }

  // Only the call and the store changed.
  predicate OnlyCall(s: Machine, s': Machine, c: nat, k: Call) {
    && s'.calls == s.calls[c := k]
    && s'.reserved == s.reserved && s'.imported == s.imported
    && s'.launched == s.launched && s'.started == s.started
  }

  // Where a call goes once its reservation is known.
  function AfterReserve(k: Call, r: ChangeRecord): Call
    requires r.initialStart.Some?
  {
    var start := r.initialStart.value;
    k.(change := r, start := start, newly := false,
       pc := if start.verified then Resolving else if NeedsDispatch(start) then AskingVcs else Fetching)
  }

  ghost predicate AdvanceStep(scope: Scope, s: Machine, s': Machine, c: nat)
    requires c in s.calls
  {
    var k := s.calls[c];
    match k.pc
    case Entered =>
      && Read(s.records, k.changeId).Ok? && s'.records == s.records
      && OnlyCall(s, s', c, k.(change := s.records[k.changeId], pc := Reserving))
    case Reserving =>
      exists r: ChangeRecord :: Updated(scope, s, s', c, Reserve(k.request), r)
                  && r.initialStart.Some? && OnlyCall(s, s', c, AfterReserve(k, r))
    case AskingVcs =>
      && s' == s.(reserved := s.reserved + {k.start.snapshotOperation},
                  calls := s.calls[c := k.(newly := k.start.snapshotOperation !in s.reserved, pc := Marking)])
    case Marking =>
      exists r: ChangeRecord :: Updated(scope, s, s', c, MarkAttempt(k.start.snapshotOperation), r)
                  && r.initialStart.Some?
                  && OnlyCall(s, s', c, k.(change := r, start := r.initialStart.value,
                                           pc := if k.newly then Launching else Fetching))
    case Launching =>
      && Read(s.records, k.changeId).Ok?
      && SnapshotAdmitted(s.records[k.changeId], k.change, k.start)
      && s' == s.(launched := s.launched + [Launch(k.changeId, k.start.snapshotOperation)], calls := s.calls - {c})
    case Fetching =>
      s' == s.(imported := s.imported + {k.start.snapshotOperation}, calls := s.calls[c := k.(pc := Importing)])
    case Importing => false
    case Resolving =>
      && k.change.initialStart.Some? && k.change.initialStart.value.snapshotOperation in s.imported
      && s'.records == s.records
      && OnlyCall(s, s', c, k.(start := k.change.initialStart.value, pc := Appending))
    case Appending =>
      exists r: ChangeRecord ::
        && (if k.change.executions == [] then
              Updated(scope, s, s', c, Append(Execution(k.start.executionId, "codex", "codex", 1)), r)
            else r == k.change && s'.records == s.records)
        && IsLastExecution(r, k.start.executionId) && r.executions[|r.executions| - 1].generation == 1
        && OnlyCall(s, s', c, k.(change := r, pc := Handing))
    case Handing =>
      exists r: ChangeRecord ::
        && (if k.change.writer.None? then Updated(scope, s, s', c, Handoff(None, k.start.executionId), r)
            else r == k.change && s'.records == s.records)
        && r.writer.Some? && r.writer.value.executionId == k.start.executionId
        && OnlyCall(s, s', c, k.(change := r, pc := StartingMain))
    case StartingMain =>
      && Read(s.records, k.changeId).Ok?
      && MainAdmitted(s.records[k.changeId], k.start)
      && s' == s.(started := s.started + [s.records[k.changeId]], calls := s.calls - {c})
  }

  ghost predicate Next(scope: Scope, s: Machine, a: Action, s': Machine) {
    match a
    case Enter(c, id, request) =>
      && c !in s.calls && Unstarted(request)
      && exists r: ChangeRecord :: s' == s.(calls := s.calls[c := Call(id, request, Entered, r, request, false)])
    // An error return and a crash look the same from outside.
    case Leave(c) => s' == s.(calls := s.calls - {c})
    // Any store operation by anyone else, including other kinds of callers.
    case Other(op) =>
      && (op.Update? && op.change.Reserve? ==> Unstarted(op.change.start))
      && s' == s.(records := Execute(scope, s.records, op).records)
    case OtherReserves(u) => s' == s.(reserved := s.reserved + {u})
    case OtherImports(u) => s' == s.(imported := s.imported + {u})
    case Advance(c) => c in s.calls && AdvanceStep(scope, s, s', c)
    case Import(c, logical, materialized, vcs) =>
      && CallAt(s, c, Importing)
      && exists r: ChangeRecord ::
           && Updated(scope, s, s', c, VerifyInitial(s.calls[c].start.snapshotOperation, logical, materialized, vcs), r)
           && OnlyCall(s, s', c, s.calls[c].(change := r, pc := Resolving))
  }

  ghost predicate MachineRun(scope: Scope, run: seq<Machine>, actions: seq<Action>) {
    && |run| == |actions| + 1
    && run[0] == Machine(map[], {}, {}, [], [], map[])
    && forall i :: 0 <= i < |actions| ==> Next(scope, run[i], actions[i], run[i + 1])
  }

  // ----- invariant -----

  // A call that won the VCS reservation and has not launched yet.
  predicate HoldsToken(k: Call) {
    (k.pc == Marking || k.pc == Launching) && k.newly
  }

  // The record carries the reservation this call works on.
  predicate Tracks(m: Records, id: string, start: InitialStart) {
    && id in m && m[id].initialStart.Some? && m[id].initialStart.value.SameRequest(start)
  }

  predicate CallOk(s: Machine, k: Call) {
    && (k.pc != Entered && k.pc != Reserving ==> Tracks(s.records, k.changeId, k.start))
    && Unstarted(k.request)
    && (k.pc == Launching ==> k.newly)
    && (HoldsToken(k) ==> k.start.snapshotOperation in s.reserved)
    && (k.pc == Resolving ==> k.change.initialStart.Some? && k.change.initialStart.value.verified
                              && k.change.initialStart.value.dispatched
                              && k.change.initialStart.value.SameRequest(k.start))
    && (k.pc in {Appending, Handing, StartingMain} ==>
          k.start.verified && k.start.dispatched && k.start.snapshotOperation in s.imported)
  }

  predicate StartsOk(m: Records) {
    forall id :: id in m ==> StartOk(m[id])
  }

  // A main start was admitted only with the snapshot dispatched, verified and
  // imported, and the writer lease held by the reserved execution.
  predicate ProperStart(s: Machine, r: ChangeRecord) {
    && r.initialStart.Some? && r.initialStart.value.dispatched && r.initialStart.value.verified
    && r.initialStart.value.snapshotOperation in s.imported
    && r.writer.Some? && r.writer.value.executionId == r.initialStart.value.executionId
  }

  predicate LaunchesOk(s: Machine) {
    && (forall i :: 0 <= i < |s.launched| ==>
          && s.launched[i].snapshot in s.reserved
          && s.launched[i].changeId in s.records
          && s.records[s.launched[i].changeId].initialStart.Some?
          && s.records[s.launched[i].changeId].initialStart.value.snapshotOperation == s.launched[i].snapshot)
    && (forall i, j :: 0 <= i < j < |s.launched| ==> s.launched[i].snapshot != s.launched[j].snapshot)
  }

  predicate TokensOk(s: Machine) {
    && (forall c, d :: c in s.calls && d in s.calls && c != d && HoldsToken(s.calls[c]) && HoldsToken(s.calls[d]) ==>
          s.calls[c].start.snapshotOperation != s.calls[d].start.snapshotOperation)
    && (forall c, i :: c in s.calls && HoldsToken(s.calls[c]) && 0 <= i < |s.launched| ==>
          s.calls[c].start.snapshotOperation != s.launched[i].snapshot)
  }

  ghost predicate MachineOk(scope: Scope, s: Machine) {
    && StoreOk(scope, s.records) && StartsOk(s.records)
    && (forall c :: c in s.calls ==> CallOk(s, s.calls[c]))
    && LaunchesOk(s) && TokensOk(s)
    && (forall i :: 0 <= i < |s.started| ==> ProperStart(s, s.started[i]))
  }

  // ----- what the store's answers say -----

  lemma EffectKeepsStartOk(op: RecordOp, r: ChangeRecord)
    requires StartOk(r) && Effect(op, r).Ok?
    requires op.Reserve? ==> Unstarted(op.start)
    ensures StartOk(Effect(op, r).value)
  {
  }

  lemma ExecuteKeepsStartsOk(scope: Scope, m: Records, op: StoreOp)
    requires StartsOk(m) && Keyed(m)
    requires op.Update? && op.change.Reserve? ==> Unstarted(op.change.start)
    ensures StartsOk(Execute(scope, m, op).records)
  {
    match op
    case Create(_, _, _, _, _) => CreateWritesAtMostOne(scope, m, op);
    case Bind(id, rev, operation, workspace) =>
      UpdateWritesAtMostOne(m, id, rev, BindOf(operation, workspace));
    case Update(id, rev, change) =>
      UpdateWritesAtMostOne(m, id, rev, EffectOf(change));
      if id in m && EffectOf(change)(m[id]).Ok? {
        EffectKeepsStartOk(change, m[id]);
      }
  }

  // An accepted update returns the record it left in the store.
  lemma UpdateReturnsStored(m: Records, id: string, rev: U64, f: ChangeRecord -> Outcome)
    requires UpdateWith(m, id, rev, f).result.Ok?
    ensures var e := UpdateWith(m, id, rev, f);
            id in m && id in e.records && e.records[id] == e.result.value
            && f(m[id]).Ok? && (e.result.value == m[id] == f(m[id]).value
                                || e.result.value == f(m[id]).value.(revision := e.result.value.revision))
  {
  }

  // What this call learns about the reservation from an accepted answer.
  predicate StartAnswer(op: RecordOp, r: ChangeRecord) {
    match op
    case Reserve(start) => r.initialStart.Some? && r.initialStart.value.SameRequest(start)
    case MarkAttempt(snapshot) =>
      r.initialStart.Some? && r.initialStart.value.snapshotOperation == snapshot && r.initialStart.value.dispatched
    case VerifyInitial(snapshot, _, _, _) =>
      r.initialStart.Some? && r.initialStart.value.verified && r.initialStart.value.dispatched
    case _ => true
  }

  lemma EffectStartAnswer(op: RecordOp, r: ChangeRecord)
    requires Effect(op, r).Ok?
    ensures StartAnswer(op, Effect(op, r).value)
  {
  }

  lemma UpdatedAnswer(scope: Scope, s: Machine, s': Machine, c: nat, op: RecordOp, r: ChangeRecord)
    requires MachineOk(scope, s) && c in s.calls && Updated(scope, s, s', c, op, r)
    requires op.Reserve? ==> Unstarted(op.start)
    ensures StoreOk(scope, s'.records) && StartsOk(s'.records) && StoreAdvances(s.records, s'.records)
    ensures s.calls[c].changeId in s'.records && s'.records[s.calls[c].changeId] == r
    ensures StartAnswer(op, r)
  {
    var k := s.calls[c];
    var full := Update(k.changeId, k.change.revision, op);
    ExecuteKeepsStoreOk(scope, s.records, full);
    ExecuteKeepsStartsOk(scope, s.records, full);
    UpdateReturnsStored(s.records, k.changeId, k.change.revision, EffectOf(op));
    EffectStartAnswer(op, s.records[k.changeId]);
  }

  // ----- everyone else's facts survive -----

  lemma TracksAdvances(m: Records, n: Records, id: string, start: InitialStart)
    requires Tracks(m, id, start) && StoreAdvances(m, n)
    ensures Tracks(n, id, start)
  {
    assert Advances(m[id], n[id]);
  }

  // Reservations, imports and the store only grow.
  predicate Grows(s: Machine, s': Machine) {
    StoreAdvances(s.records, s'.records) && s.reserved <= s'.reserved && s.imported <= s'.imported
  }

  lemma CallStaysOk(s: Machine, s': Machine, k: Call)
    requires CallOk(s, k) && Grows(s, s')
    ensures CallOk(s', k)
  {
    if k.pc != Entered && k.pc != Reserving {
      TracksAdvances(s.records, s'.records, k.changeId, k.start);
    }
  }

  lemma LaunchesStayOk(s: Machine, s': Machine)
    requires LaunchesOk(s) && Grows(s, s') && s'.launched == s.launched
    ensures LaunchesOk(s')
  {
    forall i | 0 <= i < |s.launched|
      ensures s.launched[i].changeId in s'.records
              && s'.records[s.launched[i].changeId].initialStart.Some?
              && s'.records[s.launched[i].changeId].initialStart.value.snapshotOperation == s.launched[i].snapshot
    {
      var id := s.launched[i].changeId;
      assert Advances(s.records[id], s'.records[id]);
    }
  }

  // The part of the invariant that no step of one call can disturb elsewhere.
  lemma StepOfOneCall(scope: Scope, s: Machine, s': Machine, c: nat, k: Call)
    requires MachineOk(scope, s) && c in s.calls && Grows(s, s')
    requires StoreOk(scope, s'.records) && StartsOk(s'.records)
    requires s'.calls == s.calls[c := k] && s'.launched == s.launched && s'.started == s.started
    requires CallOk(s', k)
    requires HoldsToken(k) ==>
               || (HoldsToken(s.calls[c]) && k.start.snapshotOperation == s.calls[c].start.snapshotOperation)
               || k.start.snapshotOperation !in s.reserved
    ensures MachineOk(scope, s')
  {
    OtherCallsStayOk(s, s', c, k);
    LaunchesStayOk(s, s');
    TokensStayOk(s, s', c, k);
    StartsStayProper(s, s');
  }

  lemma StartsStayProper(s: Machine, s': Machine)
    requires (forall i :: 0 <= i < |s.started| ==> ProperStart(s, s.started[i]))
    requires Grows(s, s') && s'.started == s.started
    ensures forall i :: 0 <= i < |s'.started| ==> ProperStart(s', s'.started[i])
  {
    assert forall i :: 0 <= i < |s'.started| ==> ProperStart(s, s'.started[i]);
  }

  lemma OtherCallsStayOk(s: Machine, s': Machine, c: nat, k: Call)
    requires (forall d :: d in s.calls ==> CallOk(s, s.calls[d])) && Grows(s, s')
    requires s'.calls == s.calls[c := k] && CallOk(s', k)
    ensures forall d :: d in s'.calls ==> CallOk(s', s'.calls[d])
  {
    forall d | d in s'.calls ensures CallOk(s', s'.calls[d]) {
      if d != c {
        CallStaysOk(s, s', s.calls[d]);
      }
    }
  }

  lemma TokensStayOk(s: Machine, s': Machine, c: nat, k: Call)
    requires (forall d :: d in s.calls ==> CallOk(s, s.calls[d])) && TokensOk(s) && LaunchesOk(s)
    requires c in s.calls && s'.calls == s.calls[c := k] && s'.launched == s.launched
    requires HoldsToken(k) ==>
               || (HoldsToken(s.calls[c]) && k.start.snapshotOperation == s.calls[c].start.snapshotOperation)
               || k.start.snapshotOperation !in s.reserved
    ensures TokensOk(s')
  {
    forall d | d in s.calls && HoldsToken(s.calls[d]) ensures s.calls[d].start.snapshotOperation in s.reserved {
      assert CallOk(s, s.calls[d]);
    }
  }

  lemma RemovedCallOk(scope: Scope, s: Machine, s': Machine, c: nat)
    requires MachineOk(scope, s) && s' == s.(calls := s.calls - {c})
    ensures MachineOk(scope, s')
  {
    forall d | d in s'.calls ensures CallOk(s', s'.calls[d]) {
      assert CallOk(s, s.calls[d]);
    }
  }

  // ----- one lemma per step of a call -----

  lemma ReservingStep(scope: Scope, s: Machine, s': Machine, c: nat)
    requires MachineOk(scope, s) && CallAt(s, c, Reserving) && AdvanceStep(scope, s, s', c)
    ensures MachineOk(scope, s')
  {
    var k := s.calls[c];
    assert CallOk(s, k);
    var r: ChangeRecord :| Updated(scope, s, s', c, Reserve(k.request), r) && r.initialStart.Some?
                           && OnlyCall(s, s', c, AfterReserve(k, r));
    UpdatedAnswer(scope, s, s', c, Reserve(k.request), r);
    assert StartOk(s'.records[k.changeId]);
    StepOfOneCall(scope, s, s', c, AfterReserve(k, r));
  }

  lemma AskingVcsStep(scope: Scope, s: Machine, s': Machine, c: nat)
    requires MachineOk(scope, s) && CallAt(s, c, AskingVcs) && AdvanceStep(scope, s, s', c)
    ensures MachineOk(scope, s')
  {
    var k := s.calls[c];
    assert CallOk(s, k);
    StoreAdvancesIsReflexive(s.records);
    StepOfOneCall(scope, s, s', c, k.(newly := k.start.snapshotOperation !in s.reserved, pc := Marking));
  }

  lemma MarkingStep(scope: Scope, s: Machine, s': Machine, c: nat)
    requires MachineOk(scope, s) && CallAt(s, c, Marking) && AdvanceStep(scope, s, s', c)
    ensures MachineOk(scope, s')
  {
    var k := s.calls[c];
    assert CallOk(s, k);
    var op := MarkAttempt(k.start.snapshotOperation);
    var r: ChangeRecord :| Updated(scope, s, s', c, op, r) && r.initialStart.Some?
                           && OnlyCall(s, s', c, k.(change := r, start := r.initialStart.value,
                                                    pc := if k.newly then Launching else Fetching));
    UpdatedAnswer(scope, s, s', c, op, r);
    StepOfOneCall(scope, s, s', c, s'.calls[c]);
  }

  // Launching with a token nobody else holds and nobody has used.
  lemma NewLaunchOk(scope: Scope, s: Machine, launch: Launch)
    requires MachineOk(scope, s) && launch.snapshot in s.reserved
    requires launch.changeId in s.records && s.records[launch.changeId].initialStart.Some?
    requires s.records[launch.changeId].initialStart.value.snapshotOperation == launch.snapshot
    requires forall i :: 0 <= i < |s.launched| ==> s.launched[i].snapshot != launch.snapshot
    requires forall d :: d in s.calls && HoldsToken(s.calls[d]) ==> s.calls[d].start.snapshotOperation != launch.snapshot
    ensures MachineOk(scope, s.(launched := s.launched + [launch]))
  {
    var s' := s.(launched := s.launched + [launch]);
    forall d | d in s'.calls ensures CallOk(s', s'.calls[d]) {
      assert CallOk(s, s.calls[d]);
    }
    assert LaunchesOk(s');
    assert TokensOk(s');
    assert forall i :: 0 <= i < |s'.started| ==> ProperStart(s, s'.started[i]);
  }

  lemma LaunchingStep(scope: Scope, s: Machine, s': Machine, c: nat)
    requires MachineOk(scope, s) && CallAt(s, c, Launching) && AdvanceStep(scope, s, s', c)
    ensures MachineOk(scope, s')
  {
    var k := s.calls[c];
    assert CallOk(s, k);
    assert HoldsToken(k);
    var s1 := s.(calls := s.calls - {c});
    RemovedCallOk(scope, s, s1, c);
    NewLaunchOk(scope, s1, Launch(k.changeId, k.start.snapshotOperation));
  }

  lemma FetchingStep(scope: Scope, s: Machine, s': Machine, c: nat)
    requires MachineOk(scope, s) && CallAt(s, c, Fetching) && AdvanceStep(scope, s, s', c)
    ensures MachineOk(scope, s')
  {
    var k := s.calls[c];
    assert CallOk(s, k);
    StoreAdvancesIsReflexive(s.records);
    StepOfOneCall(scope, s, s', c, k.(pc := Importing));
  }

  lemma ImportAnswer(scope: Scope, s: Machine, s': Machine, c: nat, op: RecordOp, r: ChangeRecord)
    requires MachineOk(scope, s) && c in s.calls && Updated(scope, s, s', c, op, r) && op.VerifyInitial?
    requires Tracks(s.records, s.calls[c].changeId, s.calls[c].start)
    ensures StoreOk(scope, s'.records) && StartsOk(s'.records) && StoreAdvances(s.records, s'.records)
    ensures Tracks(s'.records, s.calls[c].changeId, s.calls[c].start)
    ensures r.initialStart.Some? && r.initialStart.value.verified && r.initialStart.value.dispatched
    ensures r.initialStart.value.SameRequest(s.calls[c].start)
  {
    UpdatedAnswer(scope, s, s', c, op, r);
    TracksAdvances(s.records, s'.records, s.calls[c].changeId, s.calls[c].start);
  }

  lemma ImportingStep(scope: Scope, s: Machine, s': Machine, c: nat, logical: string, materialized: string, vcs: string)
    requires MachineOk(scope, s) && CallAt(s, c, Importing)
    requires Next(scope, s, Import(c, logical, materialized, vcs), s')
    ensures MachineOk(scope, s')
  {
    var k := s.calls[c];
    assert CallOk(s, k);
    var op := VerifyInitial(k.start.snapshotOperation, logical, materialized, vcs);
    var r: ChangeRecord :| Updated(scope, s, s', c, op, r)
                           && OnlyCall(s, s', c, k.(change := r, pc := Resolving));
    ImportAnswer(scope, s, s', c, op, r);
    StepOfOneCall(scope, s, s', c, k.(change := r, pc := Resolving));
  }

  lemma ResolvingStep(scope: Scope, s: Machine, s': Machine, c: nat)
    requires MachineOk(scope, s) && CallAt(s, c, Resolving) && AdvanceStep(scope, s, s', c)
    ensures MachineOk(scope, s')
  {
    var k := s.calls[c];
    assert CallOk(s, k);
    StoreAdvancesIsReflexive(s.records);
    StepOfOneCall(scope, s, s', c, k.(start := k.change.initialStart.value, pc := Appending));
  }

  // The two steps that may or may not have to write keep the call's own facts.
  lemma LateStep(scope: Scope, s: Machine, s': Machine, c: nat, k: Call, op: RecordOp, wrote: bool)
    requires MachineOk(scope, s) && c in s.calls && s.calls[c].pc in {Appending, Handing}
    requires !op.Reserve?
    requires if wrote then Updated(scope, s, s', c, op, k.change) else s'.records == s.records
    requires k == s.calls[c].(change := k.change, pc := k.pc) && k.pc in {Handing, StartingMain}
    requires OnlyCall(s, s', c, k)
    ensures MachineOk(scope, s')
  {
    assert CallOk(s, s.calls[c]);
    if wrote {
      UpdatedAnswer(scope, s, s', c, op, k.change);
    } else {
      StoreAdvancesIsReflexive(s.records);
    }
    TracksAdvances(s.records, s'.records, k.changeId, k.start);
    StepOfOneCall(scope, s, s', c, k);
  }

  lemma AppendingStep(scope: Scope, s: Machine, s': Machine, c: nat)
    requires MachineOk(scope, s) && CallAt(s, c, Appending) && AdvanceStep(scope, s, s', c)
    ensures MachineOk(scope, s')
  {
    var k := s'.calls[c];
    var op := Append(Execution(s.calls[c].start.executionId, "codex", "codex", 1));
    LateStep(scope, s, s', c, k, op, s.calls[c].change.executions == []);
  }

  lemma HandingStep(scope: Scope, s: Machine, s': Machine, c: nat)
    requires MachineOk(scope, s) && CallAt(s, c, Handing) && AdvanceStep(scope, s, s', c)
    ensures MachineOk(scope, s')
  {
    var k := s'.calls[c];
    var op := Handoff(None, s.calls[c].start.executionId);
    LateStep(scope, s, s', c, k, op, s.calls[c].change.writer.None?);
  }

  lemma StartingMainStep(scope: Scope, s: Machine, s': Machine, c: nat)
    requires MachineOk(scope, s) && CallAt(s, c, StartingMain) && AdvanceStep(scope, s, s', c)
    ensures MachineOk(scope, s')
  {
    var k := s.calls[c];
    assert CallOk(s, k);
    RemovedCallOk(scope, s, s.(calls := s.calls - {c}), c);
    var r := s.records[k.changeId];
    assert ProperStart(s, r);
    forall d | d in s'.calls ensures CallOk(s', s'.calls[d]) {
      assert CallOk(s, s.calls[d]);
    }
    forall i | 0 <= i < |s'.started| ensures ProperStart(s', s'.started[i]) {
      if i < |s.started| {
        assert ProperStart(s, s.started[i]);
      }
    }
    assert LaunchesOk(s') && TokensOk(s');
  }

  // ----- steps outside the calls -----

  lemma OtherStep(scope: Scope, s: Machine, s': Machine, op: StoreOp)
    requires MachineOk(scope, s) && Next(scope, s, Other(op), s')
    ensures MachineOk(scope, s')
  {
    ExecuteKeepsStoreOk(scope, s.records, op);
    ExecuteKeepsStartsOk(scope, s.records, op);
    GrownMachineOk(scope, s, s');
  }

  // A bigger store, more reservations and more imports change nothing else.
  lemma GrownMachineOk(scope: Scope, s: Machine, s': Machine)
    requires MachineOk(scope, s) && Grows(s, s') && StoreOk(scope, s'.records) && StartsOk(s'.records)
    requires s'.calls == s.calls && s'.launched == s.launched && s'.started == s.started
    ensures MachineOk(scope, s')
  {
    forall d | d in s'.calls ensures CallOk(s', s'.calls[d]) {
      CallStaysOk(s, s', s.calls[d]);
    }
    LaunchesStayOk(s, s');
    assert TokensOk(s');
    assert forall i :: 0 <= i < |s'.started| ==> ProperStart(s, s'.started[i]);
  }

  lemma EnteringStep(scope: Scope, s: Machine, s': Machine, c: nat, id: string, request: InitialStart)
    requires MachineOk(scope, s) && Next(scope, s, Enter(c, id, request), s')
    ensures MachineOk(scope, s')
  {
    forall d | d in s'.calls ensures CallOk(s', s'.calls[d]) {
      if d != c {
        assert CallOk(s, s.calls[d]);
      }
    }
    assert LaunchesOk(s') && TokensOk(s');
    assert forall i :: 0 <= i < |s'.started| ==> ProperStart(s, s'.started[i]);
  }

  lemma EnteredStep(scope: Scope, s: Machine, s': Machine, c: nat)
    requires MachineOk(scope, s) && CallAt(s, c, Entered) && AdvanceStep(scope, s, s', c)
    ensures MachineOk(scope, s')
  {
    assert CallOk(s, s.calls[c]);
    StoreAdvancesIsReflexive(s.records);
    StepOfOneCall(scope, s, s', c, s'.calls[c]);
  }

  lemma AdvanceKeepsOk(scope: Scope, s: Machine, s': Machine, c: nat)
    requires MachineOk(scope, s) && c in s.calls && AdvanceStep(scope, s, s', c)
    ensures MachineOk(scope, s')
  {
    match s.calls[c].pc
    case Entered => EnteredStep(scope, s, s', c);
    case Reserving => ReservingStep(scope, s, s', c);
    case AskingVcs => AskingVcsStep(scope, s, s', c);
    case Marking => MarkingStep(scope, s, s', c);
    case Launching => LaunchingStep(scope, s, s', c);
    case Fetching => FetchingStep(scope, s, s', c);
    case Importing =>
    case Resolving => ResolvingStep(scope, s, s', c);
    case Appending => AppendingStep(scope, s, s', c);
    case Handing => HandingStep(scope, s, s', c);
    case StartingMain => StartingMainStep(scope, s, s', c);
  }

  lemma NextKeepsOk(scope: Scope, s: Machine, a: Action, s': Machine)
    requires MachineOk(scope, s) && Next(scope, s, a, s')
    ensures MachineOk(scope, s')
  {
    match a
    case Enter(c, id, request) => EnteringStep(scope, s, s', c, id, request);
    case Leave(c) => RemovedCallOk(scope, s, s', c);
    case Other(op) => OtherStep(scope, s, s', op);
    case OtherReserves(_) => StoreAdvancesIsReflexive(s.records); GrownMachineOk(scope, s, s');
    case OtherImports(_) => StoreAdvancesIsReflexive(s.records); GrownMachineOk(scope, s, s');
    case Advance(c) => AdvanceKeepsOk(scope, s, s', c);
    case Import(c, logical, materialized, vcs) => ImportingStep(scope, s, s', c, logical, materialized, vcs);
  }

  lemma {:induction false} EveryMachineRunIsOk(scope: Scope, run: seq<Machine>, actions: seq<Action>, i: nat)
    requires MachineRun(scope, run, actions) && i < |run|
    ensures MachineOk(scope, run[i])
  {
    if i == 0 {
      EmptyStoreOk(scope);
    } else {
      EveryMachineRunIsOk(scope, run, actions, i - 1);
      NextKeepsOk(scope, run[i - 1], actions[i - 1], run[i]);
    }
  }

  // ----- a reservation whose winner is gone -----

  // The reservation was won, and whoever won it can no longer launch.
  predicate Spent(s: Machine, u: Uuid) {
    && u in s.reserved
    && forall c :: c in s.calls && HoldsToken(s.calls[c]) ==> s.calls[c].start.snapshotOperation != u
  }

  predicate WasLaunched(s: Machine, u: Uuid) {
    exists i :: 0 <= i < |s.launched| && s.launched[i].snapshot == u
  }

  lemma MarkingKeepsSnapshot(scope: Scope, s: Machine, s': Machine, c: nat)
    requires MachineOk(scope, s) && CallAt(s, c, Marking) && AdvanceStep(scope, s, s', c)
    ensures s'.launched == s.launched && s'.reserved == s.reserved
    ensures c in s'.calls && s'.calls == s.calls[c := s'.calls[c]]
    ensures s'.calls[c].newly == s.calls[c].newly
    ensures s'.calls[c].start.snapshotOperation == s.calls[c].start.snapshotOperation
  {
    var k := s.calls[c];
    var op := MarkAttempt(k.start.snapshotOperation);
    var r: ChangeRecord :| Updated(scope, s, s', c, op, r) && r.initialStart.Some?
                           && OnlyCall(s, s', c, k.(change := r, start := r.initialStart.value,
                                                    pc := if k.newly then Launching else Fetching));
    UpdatedAnswer(scope, s, s', c, op, r);
  }

  lemma AdvanceKeepsSpent(scope: Scope, s: Machine, s': Machine, c: nat, u: Uuid)
    requires MachineOk(scope, s) && c in s.calls && AdvanceStep(scope, s, s', c)
    requires Spent(s, u) && !WasLaunched(s, u)
    ensures Spent(s', u) && !WasLaunched(s', u)
  {
    assert CallOk(s, s.calls[c]);
    if s.calls[c].pc == Marking {
      MarkingKeepsSnapshot(scope, s, s', c);
    } else if s.calls[c].pc == Launching {
      assert HoldsToken(s.calls[c]);
    }
  }

  lemma NextKeepsSpent(scope: Scope, s: Machine, a: Action, s': Machine, u: Uuid)
    requires MachineOk(scope, s) && Next(scope, s, a, s')
    requires Spent(s, u) && !WasLaunched(s, u)
    ensures Spent(s', u) && !WasLaunched(s', u)
  {
    match a
    case Advance(c) => AdvanceKeepsSpent(scope, s, s', c, u);
    case _ =>
  }

  // ----- theorems -----

  // A crash between winning the reservation and launching is final: no retry
  // ever launches that snapshot, it has to be reconciled.
  lemma {:induction false} LostReservationIsNeverLaunched(scope: Scope, run: seq<Machine>, actions: seq<Action>,
                                                          i: nat, j: nat, u: Uuid)
    requires MachineRun(scope, run, actions) && i <= j < |run|
    requires Spent(run[i], u) && !WasLaunched(run[i], u)
    ensures Spent(run[j], u) && !WasLaunched(run[j], u)
  {
    if i < j {
      LostReservationIsNeverLaunched(scope, run, actions, i, j - 1, u);
      EveryMachineRunIsOk(scope, run, actions, j - 1);
      NextKeepsSpent(scope, run[j - 1], actions[j - 1], run[j], u);
    }
  }

  // Whatever calls run concurrently, are retried or crash, the initial snapshot
  // helper of a Change is launched at most once.
  lemma SnapshotLaunchedAtMostOnce(scope: Scope, run: seq<Machine>, actions: seq<Action>, n: nat, i: nat, j: nat)
    requires MachineRun(scope, run, actions) && n < |run| && i < |run[n].launched| && j < |run[n].launched|
    requires run[n].launched[i].changeId == run[n].launched[j].changeId
    ensures i == j
  {
    EveryMachineRunIsOk(scope, run, actions, n);
    assert LaunchesOk(run[n]);
  }

  // The main task is admitted only when the snapshot was dispatched, verified
  // and imported and the reserved execution holds the writer lease.
  lemma MainStartIsProper(scope: Scope, run: seq<Machine>, actions: seq<Action>, n: nat, i: nat)
    requires MachineRun(scope, run, actions) && n < |run| && i < |run[n].started|
    ensures ProperStart(run[n], run[n].started[i])
  {
    EveryMachineRunIsOk(scope, run, actions, n);
  }
}
