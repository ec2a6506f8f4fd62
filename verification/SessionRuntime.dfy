// A session's runtime instances: their generations, the fence around their
// activity, and the loop that quiesces for an upgrade.
module SessionRuntime {
  import opened Wrappers

  const U64_MAX: nat := 0xFFFF_FFFF_FFFF_FFFF
  const MAX_PENDING_APPROVALS: nat := 64

  datatype Instance = Instance(id: string, startedAt: nat, processId: nat, nonce: nat)

  // The `started_at` found in the two files kept for a session id.
  datatype Files = Files(session: Option<nat>, lifecycle: Option<nat>)

  datatype Spawn = Spawn(id: string, clock: nat, processId: nat, nonce: nat,
                         seesSession: bool, seesLifecycle: bool,
                         savesLifecycle: bool, savesSession: bool, activates: bool)

  datatype Problem = Exhausted | NotSaved

  function Later(a: Option<nat>, b: Option<nat>): Option<nat> {
    if a.None? then b else if b.None? then a else Some(if a.value < b.value then b.value else a.value)
  }

  // The clock, unless an earlier instance is not before it.
  function Generation(clock: nat, previous: Option<nat>): Result<nat, Problem> {
    if previous.Some? && previous.value >= clock then
      if previous.value + 1 > U64_MAX then Err(Exhausted) else Ok(previous.value + 1)
    else
      Ok(clock)
  }

  function FilesOf(files: map<string, Files>, id: string): Files {
    if id in files then files[id] else Files(None, None)
  }

  function Previous(f: Files, seesSession: bool, seesLifecycle: bool): Option<nat> {
    Later(if seesSession then f.session else None, if seesLifecycle then f.lifecycle else None)
  }

  datatype Registry = Registry(files: map<string, Files>, runtimes: seq<Instance>)

  // A spawn saves the lifecycle, then the session, and only then runs.
  function SpawnOf(r: Registry, a: Spawn): (Registry, Result<Instance, Problem>) {
    var f := FilesOf(r.files, a.id);
    var generation := Generation(a.clock, Previous(f, a.seesSession, a.seesLifecycle));
    if generation.Err? then (r, Err(generation.error))
    else if !a.savesLifecycle then (r, Err(NotSaved))
    else if !a.savesSession then (r.(files := r.files[a.id := f.(lifecycle := Some(generation.value))]), Err(NotSaved))
    else
      var saved := r.files[a.id := Files(Some(generation.value), Some(generation.value))];
      var instance := Instance(a.id, generation.value, a.processId, a.nonce);
      if !a.activates then (r.(files := saved), Err(NotSaved))
      else (Registry(saved, r.runtimes + [instance]), Ok(instance))
  }

  // What a spawn can read of its session's earlier instances.
  predicate SeenBy(r: Registry, a: Spawn, startedAt: nat) {
    && a.id in r.files
    && ((a.seesSession && r.files[a.id].session == Some(startedAt))
        || (a.seesLifecycle && r.files[a.id].lifecycle == Some(startedAt)))
  }

  // The next generation: the clock, if nothing that was read is as late, and
  // otherwise one more than the latest that was read.
  ghost predicate NextGeneration(r: Registry, a: Spawn, generation: nat) {
    if forall v: nat :: SeenBy(r, a, v) ==> v < a.clock then generation == a.clock
    else generation >= 1 && SeenBy(r, a, generation - 1) && forall v: nat :: SeenBy(r, a, v) ==> v < generation
  }

  // A spawn runs exactly when a generation is left and every save succeeds; what
  // it saved before it failed stays on disk.
  lemma SpawnExactly(r: Registry, a: Spawn) returns (generation: nat)
    ensures NextGeneration(r, a, generation)
    ensures var (r', res) := SpawnOf(r, a);
            var left := generation <= U64_MAX || generation == a.clock;
            var both := Files(Some(generation), Some(generation));
            && (res.Ok? <==> left && a.savesLifecycle && a.savesSession && a.activates)
            && (res.Ok? ==> res.value == Instance(a.id, generation, a.processId, a.nonce))
            && (res == Err(Exhausted) <==> !left)
            && r'.runtimes == (if res.Ok? then r.runtimes + [res.value] else r.runtimes)
            && r'.files == (if !left || !a.savesLifecycle then r.files
                            else r.files[a.id := if a.savesSession then both
                                                 else Files(if a.id in r.files then r.files[a.id].session else None,
                                                            Some(generation))])
  {
    var f := FilesOf(r.files, a.id);
    var previous := Previous(f, a.seesSession, a.seesLifecycle);
    generation := if previous.Some? && previous.value >= a.clock then previous.value + 1 else a.clock;
    assert previous.Some? ==> SeenBy(r, a, previous.value);
  }

  class SessionStore {
    var files: map<string, Files>
    var runtimes: seq<Instance>

    function Value(): Registry
      reads this
    {
      Registry(files, runtimes)
    }

    method SpawnRuntime(a: Spawn) returns (res: Result<Instance, Problem>)
      modifies this
      ensures (Value(), res) == SpawnOf(old(Value()), a)
    {
      var f := FilesOf(files, a.id);
      var previousSession := if a.seesSession then f.session else None;
      var previousLifecycle := if a.seesLifecycle then f.lifecycle else None;
      var previous := Later(previousSession, previousLifecycle);
      var startedAt := a.clock;
      if previous.Some? && previous.value >= startedAt {
        if previous.value + 1 > U64_MAX {
          return Err(Exhausted);
        }
        startedAt := previous.value + 1;
      }
      if !a.savesLifecycle {
        return Err(NotSaved);
      }
      files := files[a.id := f.(lifecycle := Some(startedAt))];
      if !a.savesSession {
        return Err(NotSaved);
      }
      files := files[a.id := Files(Some(startedAt), Some(startedAt))];
      assert files == old(files)[a.id := Files(Some(startedAt), Some(startedAt))];
      if !a.activates {
        return Err(NotSaved);
      }
      var instance := Instance(a.id, startedAt, a.processId, a.nonce);
      runtimes := runtimes + [instance];
      res := Ok(instance);
    }
  }

  // ----- generations over whole histories -----

  datatype Event = Spawned(attempt: Spawn) | Forgotten(id: string)

  function After(r: Registry, e: Event): Registry {
    match e
    case Spawned(a) => SpawnOf(r, a).0
    case Forgotten(id) => r.(files := r.files - {id})
  }

  function Registered(events: seq<Event>): Registry {
    if events == [] then Registry(map[], []) else After(Registered(events[..|events| - 1]), events[|events| - 1])
  }

  // When a file of the session exists, the spawn could read the state of the
  // last runtime: one of the two files is enough.
  predicate Readable(r: Registry, e: Event) {
    e.Spawned? && e.attempt.id in r.files ==>
      var f := r.files[e.attempt.id];
      (f.session.Some? && e.attempt.seesSession) || (f.lifecycle.Some? && e.attempt.seesLifecycle)
  }

  // Every spawn of this id read an earlier state, and the id was not forgotten.
  ghost predicate Continuous(events: seq<Event>, id: string) {
    forall i :: 0 <= i < |events| ==>
                  events[i] != Forgotten(id)
                  && (events[i].Spawned? && events[i].attempt.id == id ==> Readable(Registered(events[..i]), events[i]))
  }

  predicate Below(f: Files, startedAt: nat) {
    f.session.Some? && f.lifecycle.Some? && startedAt <= f.session.value && startedAt <= f.lifecycle.value
  }

  // Runtimes of the id came in rising generations, and both files know.
  ghost predicate Rising(r: Registry, id: string) {
    && (forall i :: 0 <= i < |r.runtimes| && r.runtimes[i].id == id ==>
                      id in r.files && Below(r.files[id], r.runtimes[i].startedAt))
    && (forall i, j :: 0 <= i < j < |r.runtimes| && r.runtimes[i].id == id && r.runtimes[j].id == id ==>
                         r.runtimes[i].startedAt < r.runtimes[j].startedAt)
  }

  lemma SpawnKeepsRising(r: Registry, a: Spawn, id: string)
    requires Rising(r, id) && (a.id == id ==> Readable(r, Spawned(a)))
    ensures Rising(SpawnOf(r, a).0, id)
  {
    var r' := SpawnOf(r, a).0;
    var generation := Generation(a.clock, Previous(FilesOf(r.files, a.id), a.seesSession, a.seesLifecycle));
    forall i | 0 <= i < |r.runtimes| && r.runtimes[i].id == id
      ensures id in r'.files && Below(r'.files[id], r.runtimes[i].startedAt)
      ensures a.id == id && generation.Ok? ==> r.runtimes[i].startedAt < generation.value
    {
      assert Below(r.files[id], r.runtimes[i].startedAt);
    }
  }

  lemma {:induction false} HistoryRises(events: seq<Event>, id: string)
    requires Continuous(events, id)
    ensures Rising(Registered(events), id)
  {
    if events != [] {
      var n := |events| - 1;
      var init := events[..n];
      forall i | 0 <= i < n
        ensures init[i] != Forgotten(id)
        ensures init[i].Spawned? && init[i].attempt.id == id ==> Readable(Registered(init[..i]), init[i])
      {
        assert init[..i] == events[..i];
      }
      HistoryRises(init, id);
      var e := events[n];
      assert e != Forgotten(id);
      match e
      case Spawned(a) => SpawnKeepsRising(Registered(init), a, id);
      case Forgotten(other) =>
    }
  }

  // With any clock, even one that goes back, a later runtime of the same id has
  // a larger generation, so the tuple of an earlier one never fits it.
  lemma EarlierTupleNeverMatches(events: seq<Event>, id: string, i: nat, j: nat, processId: nat)
    requires Continuous(events, id)
    requires var runtimes := Registered(events).runtimes;
             i < j < |runtimes| && runtimes[i].id == id && runtimes[j].id == id
    ensures var runtimes := Registered(events).runtimes;
            runtimes[i].startedAt < runtimes[j].startedAt
            && !TupleMatches(Tuple(id, runtimes[i].startedAt, processId), runtimes[j])
  {
    HistoryRises(events, id);
  }

  // When neither file could be read the generation may repeat.
  lemma UnreadableStateCanRepeat()
    ensures var a := Spawn("s", 7, 1, 1, true, true, true, true, true);
            var b := Spawn("s", 7, 1, 2, false, false, true, true, true);
            var runtimes := Registered([Spawned(a), Spawned(b)]).runtimes;
            |runtimes| == 2 && runtimes[0].startedAt == runtimes[1].startedAt
            && runtimes[0].processId == runtimes[1].processId
  {
    var a := Spawn("s", 7, 1, 1, true, true, true, true, true);
    var b := Spawn("s", 7, 1, 2, false, false, true, true, true);
    var events := [Spawned(a), Spawned(b)];
    assert events[..1] == [Spawned(a)] && events[..1][..0] == [];
    assert Registered([Spawned(a)]) == SpawnOf(Registry(map[], []), a).0;
  }

  // ----- the fence around activity -----

  datatype Tuple = Tuple(id: string, startedAt: nat, processId: nat)

  predicate TupleMatches(t: Tuple, s: Instance) {
    t.id == s.id && t.startedAt == s.startedAt && t.processId == s.processId
  }

  datatype Ingress = Ingress(expected: Tuple, nonce: Option<nat>, update: string)

  predicate Accepts(s: Instance, m: Ingress) {
    TupleMatches(m.expected, s) && m.nonce == Some(s.nonce)
  }

  datatype Entry = Entry(update: string, id: string, nonce: nat)

  class ActivitySink {
    const instance: Instance
    var retired: bool
    var published: seq<Entry>

    constructor (instance: Instance)
      ensures this.instance == instance && !retired && published == []
    {
      this.instance, retired, published := instance, false, [];
    }

    // A busy sink, or a broker that refuses, drops the update.
    method Publish(m: Ingress, busy: bool, brokerTakes: bool) returns (accepted: bool)
      modifies this`published
      ensures accepted <==> !busy && brokerTakes && !retired && Accepts(instance, m)
      ensures published == old(published) + if accepted then [Entry(m.update, instance.id, instance.nonce)] else []
    {
      if busy || retired || !TupleMatches(m.expected, instance) || m.nonce != Some(instance.nonce) {
        return false;
      }
      if brokerTakes {
        published := published + [Entry(m.update, instance.id, instance.nonce)];
      }
      accepted := brokerTakes;
    }

    method Retire()
      modifies this`retired
      ensures retired
    {
      retired := true;
    }
  }

  // Nonces are never drawn twice.
  ghost predicate FreshNonces(events: seq<Event>) {
    forall i, j :: 0 <= i < j < |events| && events[i].Spawned? && events[j].Spawned? ==>
                     events[i].attempt.nonce != events[j].attempt.nonce
  }

  ghost predicate Drawn(events: seq<Event>, nonce: nat) {
    exists i :: 0 <= i < |events| && events[i].Spawned? && events[i].attempt.nonce == nonce
  }

  ghost predicate OwnNonces(runtimes: seq<Instance>) {
    forall k, l :: 0 <= k < l < |runtimes| ==> runtimes[k].nonce != runtimes[l].nonce
  }

  lemma {:induction false} RuntimesHaveOwnNonces(events: seq<Event>)
    requires FreshNonces(events)
    ensures OwnNonces(Registered(events).runtimes)
    ensures forall s :: s in Registered(events).runtimes ==> Drawn(events, s.nonce)
  {
    if events != [] {
      var n := |events| - 1;
      var init := events[..n];
      RuntimesHaveOwnNonces(init);
      var r' := Registered(events);
      forall s | s in Registered(init).runtimes
        ensures Drawn(events, s.nonce) && (events[n].Spawned? ==> s.nonce != events[n].attempt.nonce)
      {
        assert Drawn(init, s.nonce);
        var i :| 0 <= i < |init| && init[i].Spawned? && init[i].attempt.nonce == s.nonce;
        assert events[i] == init[i];
      }
      assert events[n].Spawned? ==> Drawn(events, events[n].attempt.nonce);
    }
  }

  // Even after a session is forgotten and made anew with the very same tuple, an
  // update bound to one runtime is accepted by that runtime alone.
  lemma UpdatesReachTheirOwnRuntimeOnly(events: seq<Event>, k: nat, l: nat, m: Ingress)
    requires FreshNonces(events)
    requires k < |Registered(events).runtimes| && l < |Registered(events).runtimes|
    requires Accepts(Registered(events).runtimes[k], m) && Accepts(Registered(events).runtimes[l], m)
    ensures k == l
  {
    RuntimesHaveOwnNonces(events);
  }

  // ----- the loop -----

  datatype Mode = Ask | Agent | Yolo

  datatype Message =
    | Probe
    | Activity
    | Bind(expected: Tuple)
    | Update(ingress: Ingress)
    | Approval(requireUser: bool, expectedFrom: Option<Tuple>)
    | ApplyGrants(grantsFrom: Option<Tuple>)

  datatype Answer = Active | Shown | Bound(nonce: nat) | Discarded | Accepted | Deny | Allow | Refused | Applied | Waits

  predicate Stale(expected: Option<Tuple>, s: Instance) {
    expected.Some? && !TupleMatches(expected.value, s)
  }

  // The loop's state: the tasks that wait for an answer, those of them that
  // still hold a slot, and the counter that the tasks themselves bring down.
  class Runtime {
    const instance: Instance
    const sink: ActivitySink
    var mode: Mode
    var quiesced: bool
    var active: nat
    var freeSlots: nat
    var grantsApplied: nat
    ghost var waiting: set<nat>
    ghost var holding: set<nat>

    // While the loop is quiesced no operation is in flight.
    ghost predicate Valid()
      reads this
    {
      && sink.instance == instance
      && active == |waiting| && holding <= waiting && freeSlots + |holding| == MAX_PENDING_APPROVALS
      && (quiesced ==> waiting == {})
    }

    constructor (instance: Instance, mode: Mode)
      ensures Valid() && fresh(sink) && !quiesced && active == 0 && this.instance == instance && this.mode == mode
      ensures sink.published == [] && !sink.retired && grantsApplied == 0
    {
      this.instance, this.mode := instance, mode;
      sink := new ActivitySink(instance);
      quiesced, active, freeSlots, grantsApplied := false, 0, MAX_PENDING_APPROVALS, 0;
      waiting, holding := {}, {};
    }

    method OnApproval(requireUser: bool, expected: Option<Tuple>, task: nat, consoleTakes: bool) returns (answer: Answer)
      requires Valid() && task !in waiting
      modifies this`active, this`freeSlots, this`waiting, this`holding
      ensures Valid() && (answer == Deny || answer == Allow || answer == Waits)
      ensures answer == Allow <==> !quiesced && !Stale(expected, instance) && mode == Yolo && !requireUser
      ensures answer == Waits <==>
              && !quiesced && !Stale(expected, instance) && !(mode == Yolo && !requireUser)
              && consoleTakes && old(freeSlots) > 0
      ensures holding == if answer == Waits then old(holding) + {task} else old(holding)
      ensures waiting == if answer == Waits then old(waiting) + {task} else old(waiting)
    {
      if quiesced || Stale(expected, instance) {
        return Deny;
      }
      if mode == Yolo && !requireUser {
        return Allow;
      }
      var waits := Enlist(task, consoleTakes);
      answer := if waits then Waits else Deny;
    }

    method OnApplyGrants(expected: Option<Tuple>, task: nat, consoleTakes: bool) returns (answer: Answer)
      requires Valid() && task !in waiting
      modifies this`active, this`freeSlots, this`waiting, this`holding, this`grantsApplied
      ensures Valid() && (answer == Refused || answer == Applied || answer == Waits)
      ensures answer == Applied <==> !quiesced && !Stale(expected, instance) && mode == Yolo
      ensures answer == Waits <==>
              !quiesced && !Stale(expected, instance) && mode != Yolo && consoleTakes && old(freeSlots) > 0
      ensures grantsApplied == old(grantsApplied) + (if answer == Applied then 1 else 0)
      ensures holding == if answer == Waits then old(holding) + {task} else old(holding)
      ensures waiting == if answer == Waits then old(waiting) + {task} else old(waiting)
    {
      if quiesced || Stale(expected, instance) {
        return Refused;
      }
      if mode == Yolo {
        grantsApplied := grantsApplied + 1;
        return Applied;
      }
      var waits := Enlist(task, consoleTakes);
      answer := if waits then Waits else Refused;
    }

    // The tuple of this very instance.
    function Self(): Tuple {
      Tuple(instance.id, instance.startedAt, instance.processId)
    }

    // A request that names an instance must name this one.
    predicate ForUs(expected: Option<Tuple>) {
      expected == None || expected == Some(Self())
    }

    // One message, and exactly when it gets which answer. While quiesced nothing
    // is started, allowed or granted.
    method Dispatch(m: Message, task: nat, busy: bool, takes: bool) returns (answer: Answer)
      requires Valid() && task !in waiting
      modifies this`active, this`freeSlots, this`grantsApplied, this`waiting, this`holding, sink`published
      ensures Valid()
      ensures m.Probe? ==> answer == Active
      ensures m.Activity? ==> answer == Shown
      ensures m.Bind? ==>
                answer == if !busy && !sink.retired && m.expected == Self() then Bound(instance.nonce) else Discarded
      ensures m.Update? ==>
                answer == if && !busy && takes && !sink.retired
                             && m.ingress.expected == Self() && m.ingress.nonce == Some(instance.nonce)
                          then Accepted else Discarded
      ensures m.Approval? ==>
                answer == if quiesced || !ForUs(m.expectedFrom) then Deny
                          else if mode == Yolo && !m.requireUser then Allow
                          else if takes && old(freeSlots) > 0 then Waits else Deny
      ensures m.ApplyGrants? ==>
                answer == if quiesced || !ForUs(m.grantsFrom) then Refused
                          else if mode == Yolo then Applied
                          else if takes && old(freeSlots) > 0 then Waits else Refused
      ensures waiting == if answer == Waits then old(waiting) + {task} else old(waiting)
      ensures holding == if answer == Waits then old(holding) + {task} else old(holding)
      ensures grantsApplied == old(grantsApplied) + (if answer == Applied then 1 else 0)
      ensures sink.published
              == old(sink.published)
                 + if answer == Accepted then [Entry(m.ingress.update, instance.id, instance.nonce)] else []
    {
      match m
      case Probe => answer := Active;
      case Activity => answer := Shown;
      case Bind(expected) =>
        answer := if !busy && !sink.retired && TupleMatches(expected, instance) then Bound(instance.nonce) else Discarded;
      case Update(ingress) =>
        var accepted := sink.Publish(ingress, busy, takes);
        answer := if accepted then Accepted else Discarded;
      case Approval(requireUser, expected) => answer := OnApproval(requireUser, expected, task, takes);
      case ApplyGrants(expected) => answer := OnApplyGrants(expected, task, takes);
    }

    // Takes a slot and asks the console; the task then waits on its own.
    method Enlist(task: nat, consoleTakes: bool) returns (waits: bool)
      requires Valid() && task !in waiting && !quiesced
      modifies this`active, this`freeSlots, this`waiting, this`holding
      ensures Valid() && (waits <==> consoleTakes && old(freeSlots) > 0)
      ensures holding == if waits then old(holding) + {task} else old(holding)
      ensures waiting == if waits then old(waiting) + {task} else old(waiting)
    {
      if freeSlots == 0 || !consoleTakes {
        return false;
      }
      freeSlots := freeSlots - 1;
      active := active + 1;
      waiting, holding := waiting + {task}, holding + {task};
      waits := true;
    }

    // A task ends in two steps: it gives its slot back, then it is counted out.
    method ReleaseSlot(task: nat)
      requires Valid() && task in holding
      modifies this`freeSlots, this`holding
      ensures Valid() && holding == old(holding) - {task}
    {
      freeSlots := freeSlots + 1;
      holding := holding - {task};
    }

    method Finish(task: nat)
      requires Valid() && task in waiting && task !in holding
      modifies this`active, this`waiting
      ensures Valid() && waiting == old(waiting) - {task}
    {
      active := active - 1;
      waiting := waiting - {task};
    }

    // Quiescing is refused while an operation is in flight.
    method SetUpgradeQuiesced(value: bool) returns (ok: bool)
      requires Valid()
      modifies this`quiesced
      ensures Valid() && (ok <==> !value || waiting == {})
      ensures quiesced == if ok then value else old(quiesced)
    {
      ok := !(value && active != 0);
      if ok {
        quiesced := value;
      }
    }

    // The host's own command applies grants whether or not the loop is quiesced.
    method ApplyGrantsCommand()
      requires Valid()
      modifies this`grantsApplied
      ensures Valid() && grantsApplied == old(grantsApplied) + 1
    {
      grantsApplied := grantsApplied + 1;
    }
  }
}
