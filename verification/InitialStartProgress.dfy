// What an undisturbed call of the start procedure gets done: the first one
// launches the snapshot helper, a later one imports the snapshot and starts the
// main task. And what a launch or a start needs, step by step.
module InitialStartProgress {
  import opened Wrappers
  import opened ChangeModel
  import opened DeliveryPlanning
  import opened ChangeStore
  import opened StoreInvariants
  import opened ChangeRuns
  import opened OperationEffects
  import opened InitialStart
  import opened ReachableExamples

  // ----- one update of a call -----

  // The update succeeds, and this is what the store holds then.
  predicate Writes(scope: Scope, m: Records, id: string, rev: U64, op: RecordOp, w: ChangeRecord) {
    Execute(scope, m, Update(id, rev, op)) == Executed(m[id := w], Ok(w))
  }

  lemma BehavedUpdateWrites(scope: Scope, m: Records, id: string, rev: U64, op: RecordOp, after: ChangeRecord, w: ChangeRecord)
    requires id in m && Behaves(scope, m, id, rev, op, true, after) && Label(id) && m[id].revision == rev
    requires if after == m[id] then w == m[id] else rev < U64_MAX && w == after.(revision := rev + 1)
    ensures Writes(scope, m, id, rev, op, w)
  {
    assert m[id := m[id]] == m;
  }

  function Recorded(s: Machine, id: string, w: ChangeRecord, c: nat, k: Call): Machine {
    s.(records := s.records[id := w], calls := s.calls[c := k])
  }

  function Moved(s: Machine, c: nat, k: Call): Machine {
    s.(calls := s.calls[c := k])
  }

  // ----- the steps of a call, each of them determined -----

  lemma EnteredExactly(scope: Scope, s: Machine, c: nat, s': Machine)
    requires CallAt(s, c, Entered) && Label(s.calls[c].changeId) && s.calls[c].changeId in s.records
    ensures var k := s.calls[c];
            Next(scope, s, Advance(c), s') <==> s' == Moved(s, c, k.(change := s.records[k.changeId], pc := Reserving))
  {
  }

  // A reservation goes on to the snapshot if it was never dispatched, to the
  // import if it was, and past both if it was verified.
  lemma ReservingExactly(scope: Scope, s: Machine, c: nat, w: ChangeRecord, s': Machine)
    requires CallAt(s, c, Reserving) && w.initialStart.Some?
    requires Writes(scope, s.records, s.calls[c].changeId, s.calls[c].change.revision, Reserve(s.calls[c].request), w)
    ensures var k := s.calls[c];
            var start := w.initialStart.value;
            var pc := if start.verified then Resolving else if start.dispatched then Fetching else AskingVcs;
            Next(scope, s, Advance(c), s') <==>
              s' == Recorded(s, k.changeId, w, c, k.(change := w, start := start, newly := false, pc := pc))
  {
    var k := s.calls[c];
    var start := w.initialStart.value;
    var pc := if start.verified then Resolving else if start.dispatched then Fetching else AskingVcs;
    var k' := k.(change := w, start := start, newly := false, pc := pc);
    assert AfterReserve(k, w) == k';
    if s' == Recorded(s, k.changeId, w, c, k') {
      assert Updated(scope, s, s', c, Reserve(k.request), w);
    }
  }

  lemma AskingVcsExactly(scope: Scope, s: Machine, c: nat, s': Machine)
    requires CallAt(s, c, AskingVcs)
    ensures var k := s.calls[c];
            var u := k.start.snapshotOperation;
            Next(scope, s, Advance(c), s') <==>
              s' == Moved(s, c, k.(newly := u !in s.reserved, pc := Marking)).(reserved := s.reserved + {u})
  {
  }

  // Only the call whose reservation was new goes on to launch.
  lemma MarkingExactly(scope: Scope, s: Machine, c: nat, w: ChangeRecord, s': Machine)
    requires CallAt(s, c, Marking) && w.initialStart.Some?
    requires Writes(scope, s.records, s.calls[c].changeId, s.calls[c].change.revision,
                    MarkAttempt(s.calls[c].start.snapshotOperation), w)
    ensures var k := s.calls[c];
            Next(scope, s, Advance(c), s') <==>
              s' == Recorded(s, k.changeId, w, c, k.(change := w, start := w.initialStart.value,
                                                     pc := if k.newly then Launching else Fetching))
  {
    var k := s.calls[c];
    var k' := k.(change := w, start := w.initialStart.value, pc := if k.newly then Launching else Fetching);
    if s' == Recorded(s, k.changeId, w, c, k') {
      assert Updated(scope, s, s', c, MarkAttempt(k.start.snapshotOperation), w);
    }
  }

  // A launch happens exactly while the reservation is on record as the call
  // knows it, dispatched and unverified, and nothing else of the Change started.
  lemma LaunchingExactly(scope: Scope, s: Machine, c: nat, s': Machine)
    requires CallAt(s, c, Launching)
    ensures var k := s.calls[c];
            Next(scope, s, Advance(c), s') <==>
              && Label(k.changeId) && k.changeId in s.records
              && var r := s.records[k.changeId];
              && r.initialStart == Some(k.start) && k.start.dispatched && !k.start.verified
              && r.executions == [] && r.writer == None
              && r.workspace == k.change.workspace && r.taskId == k.change.taskId && r.scope == k.change.scope
              && s' == s.(launched := s.launched + [Launch(k.changeId, k.start.snapshotOperation)], calls := s.calls - {c})
  {
  }

  lemma FetchingExactly(scope: Scope, s: Machine, c: nat, s': Machine)
    requires CallAt(s, c, Fetching)
    ensures var k := s.calls[c];
            Next(scope, s, Advance(c), s') <==>
              s' == Moved(s, c, k.(pc := Importing)).(imported := s.imported + {k.start.snapshotOperation})
  {
  }

  lemma ImportingExactly(scope: Scope, s: Machine, c: nat, logical: string, materialized: string, vcs: string,
                         w: ChangeRecord, s': Machine)
    requires CallAt(s, c, Importing)
    requires Writes(scope, s.records, s.calls[c].changeId, s.calls[c].change.revision,
                    VerifyInitial(s.calls[c].start.snapshotOperation, logical, materialized, vcs), w)
    ensures var k := s.calls[c];
            Next(scope, s, Import(c, logical, materialized, vcs), s') <==>
              s' == Recorded(s, k.changeId, w, c, k.(change := w, pc := Resolving))
  {
    var k := s.calls[c];
    var op := VerifyInitial(k.start.snapshotOperation, logical, materialized, vcs);
    if s' == Recorded(s, k.changeId, w, c, k.(change := w, pc := Resolving)) {
      assert Updated(scope, s, s', c, op, w);
    }
  }

  lemma ResolvingExactly(scope: Scope, s: Machine, c: nat, s': Machine)
    requires CallAt(s, c, Resolving) && s.calls[c].change.initialStart.Some?
    ensures var k := s.calls[c];
            var start := k.change.initialStart.value;
            Next(scope, s, Advance(c), s') <==>
              start.snapshotOperation in s.imported && s' == Moved(s, c, k.(start := start, pc := Appending))
  {
  }

  function FirstExecution(start: ChangeModel.InitialStart): Execution {
    Execution(start.executionId, "codex", "codex", 1)
  }

  lemma AppendingExactly(scope: Scope, s: Machine, c: nat, w: ChangeRecord, s': Machine)
    requires CallAt(s, c, Appending) && s.calls[c].change.executions == []
    requires w.executions == [FirstExecution(s.calls[c].start)]
    requires Writes(scope, s.records, s.calls[c].changeId, s.calls[c].change.revision,
                    Append(FirstExecution(s.calls[c].start)), w)
    ensures var k := s.calls[c];
            Next(scope, s, Advance(c), s') <==> s' == Recorded(s, k.changeId, w, c, k.(change := w, pc := Handing))
  {
    var k := s.calls[c];
    assert IsLastExecution(w, k.start.executionId);
    if s' == Recorded(s, k.changeId, w, c, k.(change := w, pc := Handing)) {
      assert Updated(scope, s, s', c, Append(FirstExecution(k.start)), w);
    }
  }

  lemma HandingExactly(scope: Scope, s: Machine, c: nat, w: ChangeRecord, s': Machine)
    requires CallAt(s, c, Handing) && s.calls[c].change.writer.None?
    requires w.writer.Some? && w.writer.value.executionId == s.calls[c].start.executionId
    requires Writes(scope, s.records, s.calls[c].changeId, s.calls[c].change.revision,
                    Handoff(None, s.calls[c].start.executionId), w)
    ensures var k := s.calls[c];
            Next(scope, s, Advance(c), s') <==> s' == Recorded(s, k.changeId, w, c, k.(change := w, pc := StartingMain))
  {
    var k := s.calls[c];
    if s' == Recorded(s, k.changeId, w, c, k.(change := w, pc := StartingMain)) {
      assert Updated(scope, s, s', c, Handoff(None, k.start.executionId), w);
    }
  }

  // What an earlier call already wrote is not written again.
  lemma RecordedStepsExactly(scope: Scope, s: Machine, c: nat, s': Machine)
    requires c in s.calls && s.calls[c].pc in {Appending, Handing}
    requires s.calls[c].pc == Appending ==> s.calls[c].change.executions != []
    requires s.calls[c].pc == Handing ==> s.calls[c].change.writer.Some?
    ensures var k := s.calls[c];
            Next(scope, s, Advance(c), s') <==>
              if k.pc == Appending then
                var last := k.change.executions[|k.change.executions| - 1];
                last.id == k.start.executionId && last.generation == 1 && s' == Moved(s, c, k.(pc := Handing))
              else
                k.change.writer.value.executionId == k.start.executionId && s' == Moved(s, c, k.(pc := StartingMain))
  {
  }

  lemma StartingMainExactly(scope: Scope, s: Machine, c: nat, s': Machine)
    requires CallAt(s, c, StartingMain)
    ensures var k := s.calls[c];
            Next(scope, s, Advance(c), s') <==>
              && Label(k.changeId) && k.changeId in s.records
              && var r := s.records[k.changeId];
              && r.initialStart == Some(k.start)
              && r.writer.Some? && r.writer.value.executionId == k.start.executionId
              && s' == s.(started := s.started + [r], calls := s.calls - {c})
  {
  }

  // ----- undisturbed calls -----

  ghost predicate Steps(scope: Scope, run: seq<Machine>, actions: seq<Action>) {
    |run| == |actions| + 1 && forall i :: 0 <= i < |actions| ==> Next(scope, run[i], actions[i], run[i + 1])
  }

  // The call found its Change bound and untouched, and its snapshot unreserved.
  predicate Untouched(s: Machine, c: nat) {
    && CallAt(s, c, Entered) && s.calls[c].changeId in s.records
    && var r := s.records[s.calls[c].changeId];
    && r.workspace.Some? && !r.allocationPending && r.initialStart == None
    && r.executions == [] && r.writer == None && r.revision + 2 <= U64_MAX
    && s.calls[c].request.snapshotOperation !in s.reserved
  }

  function ReservedBy(r: ChangeRecord, start: ChangeModel.InitialStart): ChangeRecord
    requires r.revision < U64_MAX
  {
    r.(initialStart := Some(start), revision := r.revision + 1)
  }

  function DispatchedBy(r: ChangeRecord, start: ChangeModel.InitialStart): ChangeRecord
    requires r.revision + 2 <= U64_MAX
  {
    r.(initialStart := Some(start.(dispatched := true)), revision := r.revision + 2)
  }

  // The machine after so many steps of the call.
  function FirstCallAt(s: Machine, c: nat, i: nat): Machine
    requires Untouched(s, c) && i <= 5
  {
    var k, id, u := s.calls[c], s.calls[c].changeId, s.calls[c].request.snapshotOperation;
    var r := s.records[id];
    var r1, r2 := ReservedBy(r, k.request), DispatchedBy(r, k.request);
    if i == 0 then s
    else if i == 1 then Moved(s, c, k.(change := r, pc := Reserving))
    else if i == 2 then Recorded(s, id, r1, c, k.(change := r1, start := k.request, newly := false, pc := AskingVcs))
    else if i == 3 then
      Recorded(s, id, r1, c, k.(change := r1, start := k.request, newly := true, pc := Marking))
      .(reserved := s.reserved + {u})
    else if i == 4 then
      Recorded(s, id, r2, c, k.(change := r2, start := r2.initialStart.value, newly := true, pc := Launching))
      .(reserved := s.reserved + {u})
    else
      s.(records := s.records[id := r2], reserved := s.reserved + {u}, launched := s.launched + [Launch(id, u)],
         calls := s.calls - {c})
  }

  lemma FirstCallStep(scope: Scope, s: Machine, c: nat, i: nat, s': Machine)
    requires Untouched(s, c) && i < 5 && Label(s.calls[c].changeId) && Unstarted(s.calls[c].request)
    ensures Next(scope, FirstCallAt(s, c, i), Advance(c), s') <==> s' == FirstCallAt(s, c, i + 1)
  {
    if i == 0 {
      EnteredExactly(scope, s, c, s');
    } else if i == 1 {
      FirstReserving(scope, s, c, s');
    } else if i == 2 {
      FirstAsking(scope, s, c, s');
    } else if i == 3 {
      FirstMarking(scope, s, c, s');
    } else {
      FirstLaunching(scope, s, c, s');
    }
  }

  lemma FirstReserving(scope: Scope, s: Machine, c: nat, s': Machine)
    requires Untouched(s, c) && Label(s.calls[c].changeId) && Unstarted(s.calls[c].request)
    ensures Next(scope, FirstCallAt(s, c, 1), Advance(c), s') <==> s' == FirstCallAt(s, c, 2)
  {
    var s1, k, id := FirstCallAt(s, c, 1), s.calls[c], s.calls[c].changeId;
    var r := s.records[id];
    StartIsReserved(scope, s.records, id, r.revision, k.request);
    BehavedUpdateWrites(scope, s.records, id, r.revision, Reserve(k.request), r.(initialStart := Some(k.request)),
                        ReservedBy(r, k.request));
    ReservingExactly(scope, s1, c, ReservedBy(r, k.request), s');
    assert FirstCallAt(s, c, 2).calls == s1.calls[c := FirstCallAt(s, c, 2).calls[c]];
  }

  lemma FirstAsking(scope: Scope, s: Machine, c: nat, s': Machine)
    requires Untouched(s, c)
    ensures Next(scope, FirstCallAt(s, c, 2), Advance(c), s') <==> s' == FirstCallAt(s, c, 3)
  {
    AskingVcsExactly(scope, FirstCallAt(s, c, 2), c, s');
    assert FirstCallAt(s, c, 3).calls == FirstCallAt(s, c, 2).calls[c := FirstCallAt(s, c, 3).calls[c]];
  }

  lemma FirstMarking(scope: Scope, s: Machine, c: nat, s': Machine)
    requires Untouched(s, c) && Label(s.calls[c].changeId) && Unstarted(s.calls[c].request)
    ensures Next(scope, FirstCallAt(s, c, 3), Advance(c), s') <==> s' == FirstCallAt(s, c, 4)
  {
    var s3, s4, k, id := FirstCallAt(s, c, 3), FirstCallAt(s, c, 4), s.calls[c], s.calls[c].changeId;
    var u := k.request.snapshotOperation;
    var r1, r2 := ReservedBy(s.records[id], k.request), DispatchedBy(s.records[id], k.request);
    AttemptIsMarked(scope, s3.records, id, r1.revision, u);
    BehavedUpdateWrites(scope, s3.records, id, r1.revision, MarkAttempt(u), r1.(initialStart := r2.initialStart), r2);
    MarkingExactly(scope, s3, c, r2, s');
    assert s4.calls == s3.calls[c := s4.calls[c]] && s4.records == s3.records[id := r2];
  }

  lemma FirstLaunching(scope: Scope, s: Machine, c: nat, s': Machine)
    requires Untouched(s, c) && Label(s.calls[c].changeId) && Unstarted(s.calls[c].request)
    ensures Next(scope, FirstCallAt(s, c, 4), Advance(c), s') <==> s' == FirstCallAt(s, c, 5)
  {
    LaunchingExactly(scope, FirstCallAt(s, c, 4), c, s');
    assert FirstCallAt(s, c, 4).calls - {c} == s.calls - {c};
  }

  function FirstCall(c: nat): seq<Action> {
    [Advance(c), Advance(c), Advance(c), Advance(c), Advance(c)]
  }

  // The first call for a Change reserves, asks the version-control system, marks
  // the attempt and launches: every undisturbed run of its steps ends there.
  lemma FirstCallLaunches(scope: Scope, run: seq<Machine>, c: nat)
    requires Steps(scope, run, FirstCall(c)) && MachineOk(scope, run[0]) && Untouched(run[0], c)
    ensures var s, s', id, request := run[0], run[5], run[0].calls[c].changeId, run[0].calls[c].request;
            && s'.launched == s.launched + [Launch(id, request.snapshotOperation)]
            && s'.reserved == s.reserved + {request.snapshotOperation}
            && s'.records == s.records[id := s.records[id].(initialStart := Some(request.(dispatched := true)),
                                                            revision := s.records[id].revision + 2)]
            && s'.started == s.started && s'.imported == s.imported && s'.calls == s.calls - {c}
  {
    EnteredFacts(scope, run[0], c);
    FollowsFirstCall(scope, run, c, 5);
  }

  lemma EnteredFacts(scope: Scope, s: Machine, c: nat)
    requires MachineOk(scope, s) && c in s.calls && s.calls[c].changeId in s.records
    ensures Label(s.calls[c].changeId) && Unstarted(s.calls[c].request)
  {
    assert CallOk(s, s.calls[c]);
  }

  lemma {:induction false} FollowsFirstCall(scope: Scope, run: seq<Machine>, c: nat, i: nat)
    requires Steps(scope, run, FirstCall(c)) && Untouched(run[0], c) && i <= 5
    requires Label(run[0].calls[c].changeId) && Unstarted(run[0].calls[c].request)
    ensures run[i] == FirstCallAt(run[0], c, i)
  {
    if i > 0 {
      FollowsFirstCall(scope, run, c, i - 1);
      assert FirstCall(c)[i - 1] == Advance(c);
      FirstCallStep(scope, run[0], c, i - 1, run[i]);
    }
  }

  // Nothing keeps it from getting there.
  lemma FirstCallCanLaunch(scope: Scope, s: Machine, c: nat) returns (run: seq<Machine>)
    requires MachineOk(scope, s) && Untouched(s, c)
    ensures Steps(scope, run, FirstCall(c)) && run[0] == s
  {
    EnteredFacts(scope, s, c);
    run := seq(6, i requires 0 <= i < 6 => FirstCallAt(s, c, i));
    forall i | 0 <= i < 5 ensures Next(scope, run[i], FirstCall(c)[i], run[i + 1]) {
      assert FirstCall(c)[i] == Advance(c);
      FirstCallStep(scope, s, c, i, run[i + 1]);
    }
  }

  // ----- from a verified reservation to the main task -----

  // The reserved execution has been appended, or nothing has.
  predicate HistoryReady(r: ChangeRecord, start: ChangeModel.InitialStart) {
    r.executions == []
    || (r.executions[|r.executions| - 1].id == start.executionId && r.executions[|r.executions| - 1].generation == 1)
  }

  predicate WriterReady(r: ChangeRecord, start: ChangeModel.InitialStart) {
    if r.writer.Some? then r.writer.value.executionId == start.executionId else r.writerGeneration < U64_MAX
  }

  // The call read a bound Change whose snapshot is imported.
  predicate Resolved(s: Machine, c: nat) {
    && CallAt(s, c, Resolving) && Label(s.calls[c].changeId) && s.calls[c].changeId in s.records
    && var r := s.records[s.calls[c].changeId];
    && s.calls[c].change == r && r.workspace.Some? && !r.allocationPending && r.revision + 2 <= U64_MAX
    && r.initialStart.Some? && r.initialStart.value.snapshotOperation in s.imported
    && Label(r.initialStart.value.executionId)
    && HistoryReady(r, r.initialStart.value) && WriterReady(r, r.initialStart.value)
  }

  function Appended(r: ChangeRecord, start: ChangeModel.InitialStart): ChangeRecord
    requires r.revision + 2 <= U64_MAX
  {
    if r.executions == [] then r.(executions := [FirstExecution(start)], revision := r.revision + 1) else r
  }

  function Handed(r: ChangeRecord, start: ChangeModel.InitialStart): ChangeRecord
    requires r.writer.None? ==> r.revision < U64_MAX && r.writerGeneration < U64_MAX
  {
    if r.writer.None? then
      r.(writer := Some(Lease(start.executionId, r.writerGeneration + 1)), writerGeneration := r.writerGeneration + 1,
         revision := r.revision + 1)
    else r
  }

  function Finished(r: ChangeRecord): ChangeRecord
    requires r.revision + 2 <= U64_MAX && r.initialStart.Some? && WriterReady(r, r.initialStart.value)
  {
    Handed(Appended(r, r.initialStart.value), r.initialStart.value)
  }

  function TailAt(s: Machine, c: nat, i: nat): Machine
    requires Resolved(s, c) && i <= 4
  {
    var k, id := s.calls[c], s.calls[c].changeId;
    var r, start := s.records[id], s.records[id].initialStart.value;
    var r1, r2 := Appended(r, start), Finished(r);
    if i == 0 then s
    else if i == 1 then Moved(s, c, k.(start := start, pc := Appending))
    else if i == 2 then Recorded(s, id, r1, c, k.(change := r1, start := start, pc := Handing))
    else if i == 3 then Recorded(s, id, r2, c, k.(change := r2, start := start, pc := StartingMain))
    else s.(records := s.records[id := r2], started := s.started + [r2], calls := s.calls - {c})
  }

  lemma AppendWrites(scope: Scope, m: Records, id: string, r: ChangeRecord, start: ChangeModel.InitialStart)
    requires Label(id) && id in m && m[id] == r && r.workspace.Some? && !r.allocationPending && r.revision + 2 <= U64_MAX
    requires r.executions == [] && Label(start.executionId)
    ensures Writes(scope, m, id, r.revision, Append(FirstExecution(start)), Appended(r, start))
  {
    var attempt := FirstExecution(start);
    NewAttemptIsAppended(scope, m, id, r.revision, attempt);
    assert r.executions + [attempt] == [attempt];
    BehavedUpdateWrites(scope, m, id, r.revision, Append(attempt), r.(executions := [attempt]), Appended(r, start));
  }

  lemma HandoffWrites(scope: Scope, m: Records, id: string, r: ChangeRecord, start: ChangeModel.InitialStart)
    requires Label(id) && id in m && m[id] == r && r.workspace.Some? && !r.allocationPending && r.revision < U64_MAX
    requires |r.executions| > 0 && r.executions[|r.executions| - 1].id == start.executionId && Label(start.executionId)
    requires r.writer.None? && r.writerGeneration < U64_MAX
    ensures Writes(scope, m, id, r.revision, Handoff(None, start.executionId), Handed(r, start))
  {
    LeaseIsGranted(scope, m, id, r.revision, None, start.executionId);
    BehavedUpdateWrites(scope, m, id, r.revision, Handoff(None, start.executionId),
                        Handed(r, start).(revision := r.revision), Handed(r, start));
  }

  lemma TailAppending(scope: Scope, s: Machine, c: nat, s': Machine)
    requires Resolved(s, c)
    ensures Next(scope, TailAt(s, c, 1), Advance(c), s') <==> s' == TailAt(s, c, 2)
  {
    var s1, s2, id := TailAt(s, c, 1), TailAt(s, c, 2), s.calls[c].changeId;
    var r, start := s.records[id], s.records[id].initialStart.value;
    assert s2.calls == s1.calls[c := s2.calls[c]];
    if r.executions == [] {
      AppendWrites(scope, s.records, id, r, start);
      AppendingExactly(scope, s1, c, Appended(r, start), s');
    } else {
      RecordedStepsExactly(scope, s1, c, s');
      assert s1.records[id := r] == s1.records;
    }
  }

  lemma TailHanding(scope: Scope, s: Machine, c: nat, s': Machine)
    requires Resolved(s, c)
    ensures Next(scope, TailAt(s, c, 2), Advance(c), s') <==> s' == TailAt(s, c, 3)
  {
    var s2, s3, id := TailAt(s, c, 2), TailAt(s, c, 3), s.calls[c].changeId;
    var start := s.records[id].initialStart.value;
    var r1, r2 := Appended(s.records[id], start), Finished(s.records[id]);
    assert s3.calls == s2.calls[c := s3.calls[c]] && s3.records == s2.records[id := r2];
    if r1.writer.None? {
      HandoffWrites(scope, s2.records, id, r1, start);
      HandingExactly(scope, s2, c, r2, s');
    } else {
      RecordedStepsExactly(scope, s2, c, s');
      assert s2.records[id := r1] == s2.records;
    }
  }

  lemma TailStarting(scope: Scope, s: Machine, c: nat, s': Machine)
    requires Resolved(s, c)
    ensures Next(scope, TailAt(s, c, 3), Advance(c), s') <==> s' == TailAt(s, c, 4)
  {
    StartingMainExactly(scope, TailAt(s, c, 3), c, s');
    assert TailAt(s, c, 3).calls - {c} == s.calls - {c};
  }

  lemma TailStep(scope: Scope, s: Machine, c: nat, i: nat, s': Machine)
    requires Resolved(s, c) && i < 4
    ensures Next(scope, TailAt(s, c, i), Advance(c), s') <==> s' == TailAt(s, c, i + 1)
  {
    if i == 0 {
      ResolvingExactly(scope, s, c, s');
    } else if i == 1 {
      TailAppending(scope, s, c, s');
    } else if i == 2 {
      TailHanding(scope, s, c, s');
    } else {
      TailStarting(scope, s, c, s');
    }
  }

  lemma {:induction false} FollowsTail(scope: Scope, run: seq<Machine>, c: nat, from: nat, i: nat)
    requires i <= 4 && from + 4 < |run| && Resolved(run[from], c)
    requires forall j :: from <= j < from + 4 ==> Next(scope, run[j], Advance(c), run[j + 1])
    ensures run[from + i] == TailAt(run[from], c, i)
  {
    if i > 0 {
      FollowsTail(scope, run, c, from, i - 1);
      TailStep(scope, run[from], c, i - 1, run[from + i]);
    }
  }

  // ----- a call that finds the snapshot dispatched -----

  // The reservation of this request was dispatched by an earlier call, and
  // nothing was imported or started since.
  predicate DispatchedEarlier(s: Machine, c: nat) {
    && CallAt(s, c, Entered) && s.calls[c].changeId in s.records
    && var r, request := s.records[s.calls[c].changeId], s.calls[c].request;
    && r.workspace.Some? && !r.allocationPending && r.initialStart.Some?
    && var start := r.initialStart.value;
    && start.operation == request.operation && start.fingerprint == request.fingerprint
    && start.snapshotOperation == request.snapshotOperation && start.executionId == request.executionId
    && start.dispatched && !start.verified && Label(start.executionId)
    && r.executions == [] && r.writer == None && r.writerGeneration < U64_MAX && r.revision + 3 <= U64_MAX
  }

  datatype Seen = Seen(logical: string, materialized: string, vcs: string)

  predicate Labelled(seen: Seen) {
    Label(seen.logical) && Label(seen.materialized) && Label(seen.vcs)
  }

  function Imported(r: ChangeRecord, seen: Seen): ChangeRecord
    requires r.initialStart.Some? && r.revision < U64_MAX
  {
    var start := r.initialStart.value;
    r.(initialStart := Some(start.(verified := true, vcsOperation := Some(seen.vcs))),
       logical := Some(seen.logical), materialized := Some(seen.materialized),
       latestSnapshot := Some(start.snapshotOperation), revision := r.revision + 1)
  }

  function LaterCallAt(s: Machine, c: nat, seen: Seen, i: nat): Machine
    requires DispatchedEarlier(s, c) && i <= 4
  {
    var k, id := s.calls[c], s.calls[c].changeId;
    var r, start := s.records[id], s.records[id].initialStart.value;
    var k' := k.(change := r, start := start, newly := false, pc := Fetching);
    var imported := s.imported + {start.snapshotOperation};
    if i == 0 then s
    else if i == 1 then Moved(s, c, k.(change := r, pc := Reserving))
    else if i == 2 then Moved(s, c, k')
    else if i == 3 then Moved(s, c, k'.(pc := Importing)).(imported := imported)
    else Recorded(s, id, Imported(r, seen), c, k'.(change := Imported(r, seen), pc := Resolving)).(imported := imported)
  }

  function LaterAction(c: nat, seen: Seen, i: nat): Action {
    if i == 3 then Import(c, seen.logical, seen.materialized, seen.vcs) else Advance(c)
  }

  function LaterCall(c: nat, seen: Seen): seq<Action> {
    seq(8, i requires 0 <= i < 8 => LaterAction(c, seen, i))
  }

  // A reservation on record is answered as it is.
  lemma ReservationReplays(scope: Scope, m: Records, id: string, request: ChangeModel.InitialStart)
    requires Label(id) && id in m && m[id].workspace.Some? && !m[id].allocationPending && m[id].initialStart.Some?
    requires m[id].initialStart.value.SameRequest(request)
    ensures Writes(scope, m, id, m[id].revision, Reserve(request), m[id])
  {
    StartIsReserved(scope, m, id, m[id].revision, request);
    BehavedUpdateWrites(scope, m, id, m[id].revision, Reserve(request), m[id], m[id]);
  }

  lemma ImportWrites(scope: Scope, m: Records, id: string, r: ChangeRecord, seen: Seen)
    requires Label(id) && id in m && m[id] == r && r.initialStart.Some? && Labelled(seen) && r.revision < U64_MAX
    requires r.initialStart.value.dispatched && !r.initialStart.value.verified && r.executions == [] && r.writer == None
    ensures Writes(scope, m, id, r.revision,
                   VerifyInitial(r.initialStart.value.snapshotOperation, seen.logical, seen.materialized, seen.vcs),
                   Imported(r, seen))
  {
    var u := r.initialStart.value.snapshotOperation;
    ImportIsRecorded(scope, m, id, r.revision, u, seen.logical, seen.materialized, seen.vcs);
    BehavedUpdateWrites(scope, m, id, r.revision, VerifyInitial(u, seen.logical, seen.materialized, seen.vcs),
                        Imported(r, seen).(revision := r.revision), Imported(r, seen));
  }

  lemma LaterReserving(scope: Scope, s: Machine, c: nat, seen: Seen, s': Machine)
    requires DispatchedEarlier(s, c) && Label(s.calls[c].changeId)
    ensures Next(scope, LaterCallAt(s, c, seen, 1), Advance(c), s') <==> s' == LaterCallAt(s, c, seen, 2)
  {
    var s1, s2, id := LaterCallAt(s, c, seen, 1), LaterCallAt(s, c, seen, 2), s.calls[c].changeId;
    ReservationReplays(scope, s.records, id, s.calls[c].request);
    ReservingExactly(scope, s1, c, s.records[id], s');
    assert s2.calls == s1.calls[c := s2.calls[c]] && s1.records[id := s.records[id]] == s1.records;
  }

  lemma LaterFetching(scope: Scope, s: Machine, c: nat, seen: Seen, s': Machine)
    requires DispatchedEarlier(s, c)
    ensures Next(scope, LaterCallAt(s, c, seen, 2), Advance(c), s') <==> s' == LaterCallAt(s, c, seen, 3)
  {
    var s2, s3 := LaterCallAt(s, c, seen, 2), LaterCallAt(s, c, seen, 3);
    FetchingExactly(scope, s2, c, s');
    assert s3.calls == s2.calls[c := s3.calls[c]];
  }

  lemma LaterImporting(scope: Scope, s: Machine, c: nat, seen: Seen, s': Machine)
    requires DispatchedEarlier(s, c) && Label(s.calls[c].changeId) && Labelled(seen)
    ensures Next(scope, LaterCallAt(s, c, seen, 3), Import(c, seen.logical, seen.materialized, seen.vcs), s') <==>
              s' == LaterCallAt(s, c, seen, 4)
  {
    var s3, s4, id := LaterCallAt(s, c, seen, 3), LaterCallAt(s, c, seen, 4), s.calls[c].changeId;
    ImportWrites(scope, s.records, id, s.records[id], seen);
    ImportingExactly(scope, s3, c, seen.logical, seen.materialized, seen.vcs, Imported(s.records[id], seen), s');
    assert s4.calls == s3.calls[c := s4.calls[c]];
  }

  lemma LaterCallStep(scope: Scope, s: Machine, c: nat, seen: Seen, i: nat, s': Machine)
    requires DispatchedEarlier(s, c) && i < 4 && Label(s.calls[c].changeId) && Labelled(seen)
    ensures Next(scope, LaterCallAt(s, c, seen, i), LaterAction(c, seen, i), s') <==> s' == LaterCallAt(s, c, seen, i + 1)
  {
    if i == 0 {
      EnteredExactly(scope, s, c, s');
    } else if i == 1 {
      LaterReserving(scope, s, c, seen, s');
    } else if i == 2 {
      LaterFetching(scope, s, c, seen, s');
    } else {
      LaterImporting(scope, s, c, seen, s');
    }
  }

  lemma ImportResolves(s: Machine, c: nat, seen: Seen)
    requires DispatchedEarlier(s, c) && Label(s.calls[c].changeId)
    ensures Resolved(LaterCallAt(s, c, seen, 4), c)
  {
  }

  lemma {:induction false} FollowsLaterCall(scope: Scope, run: seq<Machine>, c: nat, seen: Seen, i: nat)
    requires Steps(scope, run, LaterCall(c, seen)) && DispatchedEarlier(run[0], c) && i <= 4
    requires Label(run[0].calls[c].changeId) && Labelled(seen)
    ensures run[i] == LaterCallAt(run[0], c, seen, i)
  {
    if i > 0 {
      FollowsLaterCall(scope, run, c, seen, i - 1);
      assert LaterCall(c, seen)[i - 1] == LaterAction(c, seen, i - 1);
      LaterCallStep(scope, run[0], c, seen, i - 1, run[i]);
    }
  }

  // The record with which the main task of an imported Change starts.
  function StartedWith(r: ChangeRecord, seen: Seen): ChangeRecord
    requires r.initialStart.Some? && r.revision + 3 <= U64_MAX && r.writerGeneration < U64_MAX
  {
    var start := r.initialStart.value;
    r.(initialStart := Some(start.(verified := true, vcsOperation := Some(seen.vcs))),
       logical := Some(seen.logical), materialized := Some(seen.materialized),
       latestSnapshot := Some(start.snapshotOperation),
       executions := [Execution(start.executionId, "codex", "codex", 1)],
       writer := Some(Lease(start.executionId, r.writerGeneration + 1)), writerGeneration := r.writerGeneration + 1,
       revision := r.revision + 3)
  }

  lemma FinishedIs(r: ChangeRecord, seen: Seen)
    requires r.initialStart.Some? && r.executions == [] && r.writer == None
    requires r.writerGeneration < U64_MAX && r.revision + 3 <= U64_MAX
    ensures Finished(Imported(r, seen)) == StartedWith(r, seen)
  {
  }

  // A later call fetches and imports the snapshot, appends the execution, takes
  // the lease and starts the main task: every undisturbed run of its steps with
  // a successful import ends there, and launches nothing.
  lemma LaterCallStarts(scope: Scope, run: seq<Machine>, c: nat, seen: Seen)
    requires Steps(scope, run, LaterCall(c, seen)) && MachineOk(scope, run[0]) && DispatchedEarlier(run[0], c)
    requires Labelled(seen)
    ensures var s, s', id := run[0], run[8], run[0].calls[c].changeId;
            && s'.started == s.started + [StartedWith(s.records[id], seen)]
            && s'.records == s.records[id := StartedWith(s.records[id], seen)]
            && s'.imported == s.imported + {s.calls[c].request.snapshotOperation}
            && s'.launched == s.launched && s'.reserved == s.reserved && s'.calls == s.calls - {c}
  {
    EnteredFacts(scope, run[0], c);
    LaterCallEnds(scope, run, c, seen);
  }

  lemma LaterCallEnds(scope: Scope, run: seq<Machine>, c: nat, seen: Seen)
    requires Steps(scope, run, LaterCall(c, seen)) && DispatchedEarlier(run[0], c)
    requires Labelled(seen) && Label(run[0].calls[c].changeId)
    ensures run[8] == LaterCallEnd(run[0], c, seen)
  {
    FollowsLaterCall(scope, run, c, seen, 4);
    ImportResolves(run[0], c, seen);
    forall j | 4 <= j < 8 ensures Next(scope, run[j], Advance(c), run[j + 1]) {
      assert LaterCall(c, seen)[j] == Advance(c);
    }
    FollowsTail(scope, run, c, 4, 4);
    LaterTailEnds(run[0], c, seen);
  }

  function LaterCallEnd(s: Machine, c: nat, seen: Seen): Machine
    requires DispatchedEarlier(s, c)
  {
    var id := s.calls[c].changeId;
    var r := StartedWith(s.records[id], seen);
    s.(records := s.records[id := r], started := s.started + [r], calls := s.calls - {c},
       imported := s.imported + {s.calls[c].request.snapshotOperation})
  }

  lemma LaterTailEnds(s: Machine, c: nat, seen: Seen)
    requires DispatchedEarlier(s, c) && Label(s.calls[c].changeId)
    ensures Resolved(LaterCallAt(s, c, seen, 4), c)
    ensures TailAt(LaterCallAt(s, c, seen, 4), c, 4) == LaterCallEnd(s, c, seen)
  {
    ImportResolves(s, c, seen);
    FinishedIs(s.records[s.calls[c].changeId], seen);
    var s4 := LaterCallAt(s, c, seen, 4);
    var id, r := s.calls[c].changeId, StartedWith(s.records[s.calls[c].changeId], seen);
    assert s4.calls - {c} == s.calls - {c} && s4.records[id := r] == s.records[id := r];
  }

  // Nothing keeps it from getting there.
  lemma LaterCallCanStart(scope: Scope, s: Machine, c: nat, seen: Seen) returns (run: seq<Machine>)
    requires MachineOk(scope, s) && DispatchedEarlier(s, c) && Labelled(seen)
    ensures Steps(scope, run, LaterCall(c, seen)) && run[0] == s
  {
    EnteredFacts(scope, s, c);
    LaterTailEnds(s, c, seen);
    var s4 := LaterCallAt(s, c, seen, 4);
    var head := seq(4, i requires 0 <= i < 4 => LaterCallAt(s, c, seen, i));
    var tail := seq(5, i requires 0 <= i < 5 => TailAt(s4, c, i));
    run := head + tail;
    forall i | 0 <= i < 8 ensures Next(scope, run[i], LaterCall(c, seen)[i], run[i + 1]) {
      if i < 4 {
        assert run[i] == LaterCallAt(s, c, seen, i) && run[i + 1] == LaterCallAt(s, c, seen, i + 1);
        assert LaterCall(c, seen)[i] == LaterAction(c, seen, i);
        LaterCallStep(scope, s, c, seen, i, run[i + 1]);
      } else {
        assert run[i] == TailAt(s4, c, i - 4) && run[i + 1] == TailAt(s4, c, i - 3);
        assert LaterCall(c, seen)[i] == Advance(c);
        TailStep(scope, s4, c, i - 4, run[i + 1]);
      }
    }
  }

  // ----- a call that finds the snapshot imported -----

  predicate ImportedEarlier(s: Machine, c: nat) {
    && CallAt(s, c, Entered) && s.calls[c].changeId in s.records
    && var r, request := s.records[s.calls[c].changeId], s.calls[c].request;
    && r.workspace.Some? && !r.allocationPending && r.revision + 2 <= U64_MAX && r.initialStart.Some?
    && var start := r.initialStart.value;
    && start.operation == request.operation && start.fingerprint == request.fingerprint
    && start.snapshotOperation == request.snapshotOperation && start.executionId == request.executionId
    && start.verified && start.snapshotOperation in s.imported && Label(start.executionId)
    && HistoryReady(r, start) && WriterReady(r, start)
  }

  function RetryResolving(s: Machine, c: nat): Machine
    requires ImportedEarlier(s, c)
  {
    var k, r := s.calls[c], s.records[s.calls[c].changeId];
    Moved(s, c, k.(change := r, start := r.initialStart.value, newly := false, pc := Resolving))
  }

  function Retry(c: nat): seq<Action> {
    [Advance(c), Advance(c), Advance(c), Advance(c), Advance(c), Advance(c)]
  }

  lemma RetryResolves(scope: Scope, s: Machine, c: nat, s1: Machine, s2: Machine)
    requires ImportedEarlier(s, c) && Label(s.calls[c].changeId)
    requires Next(scope, s, Advance(c), s1) && Next(scope, s1, Advance(c), s2)
    ensures s2 == RetryResolving(s, c) && Resolved(s2, c)
  {
    var id := s.calls[c].changeId;
    EnteredExactly(scope, s, c, s1);
    ReservationReplays(scope, s.records, id, s.calls[c].request);
    ReservingExactly(scope, s1, c, s.records[id], s2);
    assert s2.calls == s.calls[c := s2.calls[c]] && s1.records[id := s.records[id]] == s.records;
  }

  // A retry after the import writes what is still missing, the execution and
  // the lease, and starts the main task again with the same execution.
  lemma RetryStarts(scope: Scope, run: seq<Machine>, c: nat)
    requires Steps(scope, run, Retry(c)) && MachineOk(scope, run[0]) && ImportedEarlier(run[0], c)
    ensures var s, s', id := run[0], run[6], run[0].calls[c].changeId;
            && var r := Finished(s.records[id]);
            && s'.started == s.started + [r] && s'.records == s.records[id := r]
            && r.writer.Some? && r.writer.value.executionId == s.calls[c].request.executionId
            && r.executions == (if s.records[id].executions == [] then
                                  [Execution(s.calls[c].request.executionId, "codex", "codex", 1)]
                                else s.records[id].executions)
            && s'.launched == s.launched && s'.reserved == s.reserved && s'.calls == s.calls - {c}
  {
    EnteredFacts(scope, run[0], c);
    forall j | 0 <= j < 6 ensures Next(scope, run[j], Advance(c), run[j + 1]) {
      assert Retry(c)[j] == Advance(c);
    }
    RetryResolves(scope, run[0], c, run[1], run[2]);
    FollowsTail(scope, run, c, 2, 4);
    RetryTailEnds(run[0], c);
  }

  lemma RetryTailEnds(s: Machine, c: nat)
    requires ImportedEarlier(s, c) && Resolved(RetryResolving(s, c), c)
    ensures var id, r := s.calls[c].changeId, Finished(s.records[s.calls[c].changeId]);
            TailAt(RetryResolving(s, c), c, 4)
            == s.(records := s.records[id := r], started := s.started + [r], calls := s.calls - {c})
  {
    assert RetryResolving(s, c).calls - {c} == s.calls - {c};
  }

  // ----- a run that does both -----

  lemma RunGoesOn(scope: Scope, run: seq<Machine>, actions: seq<Action>, more: seq<Machine>, next: seq<Action>)
    requires MachineRun(scope, run, actions) && Steps(scope, more, next) && more[0] == run[|run| - 1]
    ensures MachineRun(scope, run + more[1..], actions + next)
    ensures (run + more[1..])[|actions| + |next|] == more[|next|]
  {
    var run', actions' := run + more[1..], actions + next;
    forall i | 0 <= i < |actions'| ensures Next(scope, run'[i], actions'[i], run'[i + 1]) {
      if i >= |actions| {
        var j := i - |actions|;
        assert run'[i] == more[j] && run'[i + 1] == more[j + 1] && actions'[i] == next[j];
      }
    }
  }

  lemma OneStep(scope: Scope, s: Machine, a: Action, s': Machine)
    requires Next(scope, s, a, s')
    ensures Steps(scope, [s, s'], [a])
  {
  }

  function With(m: Records): Machine {
    Machine(m, {}, {}, [], [], map[])
  }

  // A Change is created and bound, by others.
  lemma {:induction false} ReachesBound(scope: Scope, id: string, k: nat) returns (run: seq<Machine>, actions: seq<Action>)
    requires Label(id) && 1 <= k <= 3
    ensures MachineRun(scope, run, actions) && run[|actions|] == With(map[id := Stage(scope, id, k)])
  {
    var m: Records, op: StoreOp;
    if k == 1 {
      m, op := map[], Create(id, id, None, None, OriginMain);
      run, actions := [With(map[])], [];
      assert Execute(scope, m, op).records == map[id := Stage(scope, id, 1)];
    } else {
      run, actions := ReachesBound(scope, id, k - 1);
      m, op := map[id := Stage(scope, id, k - 1)], StageOp(id, k - 1);
      StageStep(scope, m, id, k - 1);
      assert m[id := Stage(scope, id, k)] == map[id := Stage(scope, id, k)];
    }
    var next := With(map[id := Stage(scope, id, k)]);
    OneStep(scope, With(m), Other(op), next);
    RunGoesOn(scope, run, actions, [With(m), next], [Other(op)]);
    run, actions := run + [With(m), next][1..], actions + [Other(op)];
  }

  function Entering(s: Machine, c: nat, id: string, request: ChangeModel.InitialStart, r: ChangeRecord): Machine {
    Moved(s, c, Call(id, request, Entered, r, request, false))
  }

  lemma RunEnters(scope: Scope, run: seq<Machine>, actions: seq<Action>, c: nat, id: string,
                  request: ChangeModel.InitialStart, r: ChangeRecord)
    returns (run': seq<Machine>, actions': seq<Action>)
    requires MachineRun(scope, run, actions) && c !in run[|actions|].calls && Unstarted(request)
    ensures MachineRun(scope, run', actions') && run <= run' && actions <= actions'
    ensures run'[|actions'|] == Entering(run[|actions|], c, id, request, r)
  {
    var s := run[|actions|];
    var s' := Entering(s, c, id, request, r);
    assert Next(scope, s, Enter(c, id, request), s');
    OneStep(scope, s, Enter(c, id, request), s');
    RunGoesOn(scope, run, actions, [s, s'], [Enter(c, id, request)]);
    run', actions' := run + [s, s'][1..], actions + [Enter(c, id, request)];
  }

  lemma RunFirstCall(scope: Scope, run: seq<Machine>, actions: seq<Action>, c: nat)
    returns (run': seq<Machine>, actions': seq<Action>)
    requires MachineRun(scope, run, actions) && Untouched(run[|actions|], c)
    ensures MachineRun(scope, run', actions') && run'[|actions'|] == FirstCallAt(run[|actions|], c, 5)
  {
    var s := run[|actions|];
    EveryMachineRunIsOk(scope, run, actions, |actions|);
    EnteredFacts(scope, s, c);
    var more := FirstCallCanLaunch(scope, s, c);
    FollowsFirstCall(scope, more, c, 5);
    RunGoesOn(scope, run, actions, more, FirstCall(c));
    run', actions' := run + more[1..], actions + FirstCall(c);
  }

  lemma RunLaterCall(scope: Scope, run: seq<Machine>, actions: seq<Action>, c: nat, seen: Seen)
    returns (run': seq<Machine>, actions': seq<Action>)
    requires MachineRun(scope, run, actions) && DispatchedEarlier(run[|actions|], c) && Labelled(seen)
    ensures MachineRun(scope, run', actions') && run <= run' && actions <= actions'
    ensures run'[|actions'|] == LaterCallEnd(run[|actions|], c, seen)
  {
    var s := run[|actions|];
    EveryMachineRunIsOk(scope, run, actions, |actions|);
    EnteredFacts(scope, s, c);
    var more := LaterCallCanStart(scope, s, c, seen);
    LaterCallEnds(scope, more, c, seen);
    RunGoesOn(scope, run, actions, more, LaterCall(c, seen));
    run', actions' := run + more[1..], actions + LaterCall(c, seen);
  }

  function DispatchedStage(scope: Scope, id: string, request: ChangeModel.InitialStart): ChangeRecord {
    Stage(scope, id, 3).(initialStart := Some(request.(dispatched := true)), revision := 5)
  }

  // From the empty machine: a first call launches the snapshot helper of a bound
  // Change.
  lemma RunLaunches(scope: Scope, id: string, request: ChangeModel.InitialStart)
    returns (run: seq<Machine>, actions: seq<Action>)
    requires Label(id) && Unstarted(request)
    ensures MachineRun(scope, run, actions)
    ensures run[|actions|] == Machine(map[id := DispatchedStage(scope, id, request)], {request.snapshotOperation}, {},
                                      [Launch(id, request.snapshotOperation)], [], map[])
  {
    run, actions := ReachesBound(scope, id, 3);
    run, actions := RunEnters(scope, run, actions, 0, id, request, Stage(scope, id, 3));
    StageIsUntouched(scope, id, request, run[|actions|]);
    run, actions := RunFirstCall(scope, run, actions, 0);
  }

  lemma StageIsUntouched(scope: Scope, id: string, request: ChangeModel.InitialStart, s: Machine)
    requires s == Entering(With(map[id := Stage(scope, id, 3)]), 0, id, request, Stage(scope, id, 3))
    ensures Untouched(s, 0)
    ensures FirstCallAt(s, 0, 5) == Machine(map[id := DispatchedStage(scope, id, request)], {request.snapshotOperation}, {},
                                            [Launch(id, request.snapshotOperation)], [], map[])
  {
    assert s.calls - {0} == map[];
  }

  // And a second call then starts the main task.
  lemma RunLaunchesAndStarts(scope: Scope, id: string, request: ChangeModel.InitialStart, seen: Seen)
    returns (run: seq<Machine>, actions: seq<Action>, i: nat)
    requires Label(id) && Unstarted(request) && Label(request.executionId) && Labelled(seen)
    ensures MachineRun(scope, run, actions) && i <= |actions|
    ensures run[i].launched == [Launch(id, request.snapshotOperation)] && run[i].started == []
    ensures var end := run[|actions|];
            && end.launched == [Launch(id, request.snapshotOperation)]
            && |end.started| == 1 && id in end.records && end.started[0] == end.records[id]
            && end.records[id].writer == Some(Lease(request.executionId, 1))
            && end.records[id].executions == [Execution(request.executionId, "codex", "codex", 1)]
            && end.records[id].materialized == Some(seen.materialized)
  {
    run, actions := RunLaunches(scope, id, request);
    i := |actions|;
    var s := run[i];
    run, actions := RunEnters(scope, run, actions, 1, id, request, s.records[id]);
    DispatchedStageIsDispatched(scope, id, request, run[|actions|]);
    run, actions := RunLaterCall(scope, run, actions, 1, seen);
  }

  lemma DispatchedStageIsDispatched(scope: Scope, id: string, request: ChangeModel.InitialStart, s: Machine)
    requires id in s.records && s.records[id] == DispatchedStage(scope, id, request)
    requires 1 in s.calls && s.calls[1] == Call(id, request, Entered, s.records[id], request, false)
    requires Unstarted(request) && Label(request.executionId)
    ensures DispatchedEarlier(s, 1)
  {
  }
}
