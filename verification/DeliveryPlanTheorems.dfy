// What the planner promises: it succeeds exactly on ready, closed, cycle-free
// sets, puts every base first, and ignores how its input was listed.
module DeliveryPlanTheorems {
  import opened Wrappers
  import opened ChangeModel
  import opened DeliveryPlanning
  import opened Forest

  // ----- when a set of Changes can be delivered -----

  // Each stacked Change of the set with its base.
  function Bases(m: Records): Parents {
    map id | id in m && m[id].base.OnChange? :: m[id].base.id
  }

  predicate ParentKnown(m: Records, id: string)
    requires id in m
  {
    m[id].base.OnChange? ==> m[id].base.id in m && m[m[id].base.id].scope == m[id].scope
  }

  predicate ReadyToDeliver(c: ChangeRecord) {
    Readiness(c).None?
  }

  ghost predicate DeliverableMap(m: Records) {
    && (forall id :: id in m ==> ParentKnown(m, id) && ReadyToDeliver(m[id]))
    && !HasCycle(Bases(m))
  }

  ghost predicate Deliverable(changes: seq<ChangeRecord>) {
    DistinctIds(changes) && DeliverableMap(ById(changes))
  }

  // ----- what every partial result satisfies -----

  ghost predicate Within(steps: seq<DeliveryStep>, id: string, limit: nat) {
    exists j :: 0 <= j < limit && j < |steps| && steps[j].changeId == id
  }

  ghost predicate StepGood(m: Records, steps: seq<DeliveryStep>, k: nat)
    requires k < |steps|
  {
    var id := steps[k].changeId;
    && id in m && ParentKnown(m, id) && ReadyToDeliver(m[id])
    && steps[k] == StepFor(m, id)
    && (m[id].base.OnChange? ==> Within(steps, m[id].base.id, k))
  }

  ghost predicate Good(m: Records, p: Progress) {
    && p.done <= m.Keys
    && (forall id :: id in p.done <==> Within(p.steps, id, |p.steps|))
    && (forall i, j :: 0 <= i < j < |p.steps| ==> p.steps[i].changeId != p.steps[j].changeId)
    && (forall k :: 0 <= k < |p.steps| ==> StepGood(m, p.steps, k))
  }

  lemma WithinGrows(steps: seq<DeliveryStep>, more: seq<DeliveryStep>, id: string, limit: nat)
    requires Within(steps, id, limit)
    ensures Within(steps + more, id, limit)
  {
    var j :| 0 <= j < limit && j < |steps| && steps[j].changeId == id;
    assert (steps + more)[j].changeId == id;
  }

  lemma StepStaysGood(m: Records, steps: seq<DeliveryStep>, more: seq<DeliveryStep>, k: nat)
    requires k < |steps| && StepGood(m, steps, k)
    ensures StepGood(m, steps + more, k)
  {
    assert (steps + more)[k] == steps[k];
    var id := steps[k].changeId;
    if m[id].base.OnChange? {
      WithinGrows(steps, more, m[id].base.id, k);
    }
  }

  lemma VisitKeepsGood(m: Records, id: string, p: Progress)
    requires id in m && Good(m, p)
    requires Visit(m, id, p).Ok?
    ensures Good(m, Visit(m, id, p).value)
  {
    var q := Visit(m, id, p).value;
    if q != p {
      var n := |p.steps|;
      var more := [StepFor(m, id)];
      assert q.steps == p.steps + more;
      forall k | 0 <= k < n ensures StepGood(m, q.steps, k) {
        StepStaysGood(m, p.steps, more, k);
      }
      if m[id].base.OnChange? {
        WithinGrows(p.steps, more, m[id].base.id, n);
      }
      assert q.steps[n].changeId == id;
      forall x | x in p.done ensures Within(q.steps, x, |q.steps|) {
        WithinGrows(p.steps, more, x, n);
      }
      forall i | 0 <= i < n ensures p.steps[i].changeId != id {
        assert Within(p.steps, p.steps[i].changeId, n);
      }
    }
  }

  lemma {:induction false} PassKeepsGood(m: Records, keys: seq<string>, p: Progress)
    requires (forall k :: k in keys ==> k in m) && Good(m, p)
    requires Pass(m, keys, p).Ok?
    ensures Good(m, Pass(m, keys, p).value)
  {
    if |keys| > 0 {
      VisitKeepsGood(m, keys[0], p);
      PassKeepsGood(m, keys[1..], Visit(m, keys[0], p).value);
    }
  }

  lemma {:induction false} RoundsKeepGood(m: Records, keys: seq<string>, p: Progress)
    requires (forall k :: k in keys ==> k in m) && Good(m, p)
    requires Rounds(m, keys, p).Ok?
    ensures Good(m, Rounds(m, keys, p).value)
    decreases |m| - |p.done|
  {
    if |p.done| < |m| {
      var p1 := Pass(m, keys, p).value;
      PassKeepsGood(m, keys, p);
      SubsetSize(p1.done, m.Keys);
      RoundsKeepGood(m, keys, p1);
    }
  }

  // ----- a pass without progress -----

  lemma {:induction false} IdlePassChangesNothing(m: Records, keys: seq<string>, p: Progress)
    requires (forall k :: k in keys ==> k in m) && p.done <= m.Keys
    requires Pass(m, keys, p).Ok? && |Pass(m, keys, p).value.steps| <= |p.steps|
    ensures forall k :: k in keys ==> Visit(m, k, p) == Ok(p)
  {
    if |keys| > 0 {
      var p1 := Visit(m, keys[0], p).value;
      var p2 := Pass(m, keys[1..], p1).value;
      SubsetSize(p1.done, p2.done);
      assert p1 == p;
      IdlePassChangesNothing(m, keys[1..], p);
      assert keys == [keys[0]] + keys[1..];
    }
  }

  lemma IdleRoundMeansCycle(m: Records, keys: seq<string>, p: Progress)
    requires forall k :: k in keys <==> k in m
    requires p.done <= m.Keys && |p.done| < |m|
    requires Pass(m, keys, p).Ok? && |Pass(m, keys, p).value.steps| <= |p.steps|
    ensures HasCycle(Bases(m))
  {
    var rest := m.Keys - p.done;
    SomeAreLeft(m, p.done);
    IdlePassBlocks(m, keys, p, rest);
    BlockedSetHasCycle(Bases(m), rest);
  }

  lemma SomeAreLeft(m: Records, done: set<string>)
    requires done <= m.Keys && |done| < |m|
    ensures m.Keys - done != {}
  {
    if m.Keys - done == {} {
      AllAreDone(m, done);
    }
  }

  lemma AllAreDone(m: Records, done: set<string>)
    requires done <= m.Keys && m.Keys - done == {}
    ensures |done| == |m|
  {
    assert forall x :: x in m.Keys && x !in done ==> x in m.Keys - done;
    assert m.Keys == done && |m| == |m.Keys|;
  }

  lemma IdlePassBlocks(m: Records, keys: seq<string>, p: Progress, rest: set<string>)
    requires (forall k :: k in keys <==> k in m) && p.done <= m.Keys && rest == m.Keys - p.done
    requires Pass(m, keys, p).Ok? && |Pass(m, keys, p).value.steps| <= |p.steps|
    ensures Blocked(Bases(m), rest)
  {
    IdlePassChangesNothing(m, keys, p);
    forall id | id in rest ensures id in Bases(m) && Bases(m)[id] in rest {
      IdleVisitIsBlocked(m, id, p);
    }
  }

  lemma IdleVisitIsBlocked(m: Records, id: string, p: Progress)
    requires id in m && id !in p.done && Visit(m, id, p) == Ok(p)
    ensures id in Bases(m) && Bases(m)[id] in m.Keys - p.done
  {
  }

  // ----- errors are justified -----

  ghost predicate SomeScopeDiffers(m: Records) {
    exists id :: id in m && m[id].base.OnChange? && m[id].base.id in m && !ParentKnown(m, id)
  }

  ghost predicate SomeUnready(m: Records, e: Error) {
    exists id :: id in m && Readiness(m[id]) == Some(e)
  }

  // What each refusal says about the set of Changes.
  ghost predicate Justified(m: Records, e: Error) {
    match e
    case MissingParent(id) => id in m && m[id].base.OnChange? && m[id].base.id !in m
    case IncompatibleParent => SomeScopeDiffers(m)
    case DependencyCycle => HasCycle(Bases(m))
    case _ => SomeUnready(m, e)
  }

  lemma {:induction false} PassErrorIsJustified(m: Records, keys: seq<string>, p: Progress)
    requires (forall k :: k in keys ==> k in m) && p.done <= m.Keys
    requires Pass(m, keys, p).Err?
    ensures Justified(m, Pass(m, keys, p).error)
  {
    if Visit(m, keys[0], p).Ok? {
      PassErrorIsJustified(m, keys[1..], Visit(m, keys[0], p).value);
    }
  }

  lemma {:induction false} RoundsErrorIsJustified(m: Records, keys: seq<string>, p: Progress)
    requires (forall k :: k in keys <==> k in m) && Good(m, p)
    requires Rounds(m, keys, p).Err?
    ensures Justified(m, Rounds(m, keys, p).error)
    decreases |m| - |p.done|
  {
    var swept := Pass(m, keys, p);
    if swept.Err? {
      PassErrorIsJustified(m, keys, p);
    } else if |swept.value.steps| <= |p.steps| {
      IdleRoundMeansCycle(m, keys, p);
    } else {
      PassKeepsGood(m, keys, p);
      SubsetSize(swept.value.done, m.Keys);
      RoundsErrorIsJustified(m, keys, swept.value);
    }
  }

  lemma JustifiedIsUndeliverable(m: Records, e: Error)
    requires Justified(m, e)
    ensures !DeliverableMap(m)
  {
    match e
    case MissingParent(id) => assert !ParentKnown(m, id);
    case IncompatibleParent =>
    case DependencyCycle =>
    case _ => UnreadyIsUndeliverable(m, e);
  }

  lemma UnreadyIsUndeliverable(m: Records, e: Error)
    requires SomeUnready(m, e)
    ensures !DeliverableMap(m)
  {
    var id :| id in m && Readiness(m[id]) == Some(e);
    assert !ReadyToDeliver(m[id]);
  }

  lemma FullPlacementIsDeliverable(m: Records, p: Progress)
    requires Good(m, p) && p.done == m.Keys
    ensures DeliverableMap(m)
  {
    forall id | id in m ensures ParentKnown(m, id) && ReadyToDeliver(m[id]) {
      var k :| 0 <= k < |p.steps| && p.steps[k].changeId == id;
      assert StepGood(m, p.steps, k);
    }
    var rank := map id | id in m :: PositionOf(p.steps, id);
    var g := Bases(m);
    forall id | id in g && g[id] in g ensures rank[g[id]] < rank[id] {
      assert Within(p.steps, id, |p.steps|);
      PositionIs(p.steps, id);
      assert StepGood(m, p.steps, rank[id]);
      var j :| 0 <= j < rank[id] && p.steps[j].changeId == m[id].base.id;
      PositionIs(p.steps, m[id].base.id);
    }
    RankedHasNoCycle(g, rank);
  }

  function PositionOf(steps: seq<DeliveryStep>, id: string): nat {
    if |steps| == 0 || steps[0].changeId == id then 0 else 1 + PositionOf(steps[1..], id)
  }

  lemma {:induction false} PositionIs(steps: seq<DeliveryStep>, id: string)
    requires Within(steps, id, |steps|)
    ensures PositionOf(steps, id) < |steps| && steps[PositionOf(steps, id)].changeId == id
    ensures forall j :: 0 <= j < |steps| && steps[j].changeId == id ==> PositionOf(steps, id) <= j
  {
    if steps[0].changeId != id {
      var j :| 0 <= j < |steps| && steps[j].changeId == id;
      assert steps[1..][j - 1].changeId == id;
      PositionIs(steps[1..], id);
      forall j | 0 <= j < |steps| && steps[j].changeId == id ensures PositionOf(steps, id) <= j {
        assert steps[1..][j - 1].changeId == id;
      }
    }
  }

  lemma PlanRun(changes: seq<ChangeRecord>) returns (m: Records, keys: seq<string>, p: Result<Progress, Error>)
    requires DistinctIds(changes)
    ensures m == ById(changes) && (forall k :: k in keys <==> k in m)
    ensures p == Rounds(m, keys, Progress({}, [])) && Good(m, Progress({}, []))
    ensures PlanOf(changes) ==
            (if p.Ok? then Ok(DeliveryPlan(p.value.steps, Digest(p.value.steps))) else Err(p.error))
    ensures p.Ok? ==> Good(m, p.value) && p.value.done == m.Keys
  {
    m := ById(changes);
    keys := SortedKeys(m.Keys);
    ElementsOfKeys(keys, m.Keys);
    p := Rounds(m, keys, Progress({}, []));
    if p.Ok? {
      RoundsKeepGood(m, keys, Progress({}, []));
    }
  }

  // ----- main theorems -----

  // Completeness and soundness in one statement.
  lemma PlanSucceedsExactlyWhenDeliverable(changes: seq<ChangeRecord>)
    ensures PlanOf(changes).Ok? <==> Deliverable(changes)
  {
    if DistinctIds(changes) {
      var m, keys, p := PlanRun(changes);
      if p.Ok? {
        FullPlacementIsDeliverable(m, p.value);
      } else {
        RoundsErrorIsJustified(m, keys, Progress({}, []));
        JustifiedIsUndeliverable(m, p.error);
      }
    }
  }

  // Every refusal names something that is really wrong; in particular a
  // dependency-cycle refusal means the bases do form a cycle.
  lemma PlanRefusalIsJustified(changes: seq<ChangeRecord>)
    requires PlanOf(changes).Err?
    ensures if DistinctIds(changes) then Justified(ById(changes), PlanOf(changes).error)
            else PlanOf(changes).error == DuplicateChange
  {
    if DistinctIds(changes) {
      var m, keys, p := PlanRun(changes);
      RoundsErrorIsJustified(m, keys, Progress({}, []));
    }
  }

  // A plan holds one step per Change, built from that Change and its base, and
  // a stacked step comes after the step of its base.
  lemma PlanPlacesEachChangeAfterItsBase(changes: seq<ChangeRecord>)
    requires PlanOf(changes).Ok?
    ensures DistinctIds(changes)
    ensures var m := ById(changes);
            var plan := PlanOf(changes).value;
            && plan.fingerprint == Digest(plan.steps)
            && |plan.steps| == |changes|
            && (forall i, j :: 0 <= i < j < |plan.steps| ==> plan.steps[i].changeId != plan.steps[j].changeId)
            && (forall c :: c in changes ==> Within(plan.steps, c.changeId, |plan.steps|))
            && (forall k :: 0 <= k < |plan.steps| ==> StepGood(m, plan.steps, k))
  {
    var m, keys, p := PlanRun(changes);
    GoodPlacementSize(m, p.value);
    DistinctChangesSize(changes);
    assert forall c :: c in changes ==> c.changeId in p.value.done;
  }

  // Being ready, in the fields of the record.
  lemma ReadyInFields(c: ChangeRecord)
    ensures Readiness(c) == None <==>
              && c.workspace.Some? && !c.allocationPending && c.writer == None
              && c.materialized.Some? && c.taskRevision > 0 && c.verification.Some?
              && c.verification.value.recordRevision <= c.revision
              && c.verification.value
                 == Verification(c.materialized.value, c.verification.value.recordRevision, c.taskRevision, true)
    ensures Readiness(c) == Some(NotAllocated) <==> c.workspace == None || c.allocationPending
    ensures Readiness(c) == Some(ActiveWriter) <==> c.workspace.Some? && !c.allocationPending && c.writer.Some?
    ensures Readiness(c) == Some(MissingRevision) <==>
              c.workspace.Some? && !c.allocationPending && c.writer == None && c.materialized == None
    ensures Readiness(c) == Some(MissingVerification) <==>
              && c.workspace.Some? && !c.allocationPending && c.writer == None
              && c.materialized.Some? && c.verification == None
    ensures Readiness(c).Some? ==>
              Readiness(c).value in {NotAllocated, ActiveWriter, MissingRevision, MissingVerification, VerificationStale}
  {
  }

  lemma HeadRefsDiffer(a: string, b: string)
    ensures HeadRef(a) == HeadRef(b) ==> a == b
    ensures HeadRef(a) != "main"
  {
    assert HeadRef(a)[7..] == a && HeadRef(b)[7..] == b;
    assert |HeadRef(a)| == 7 + |a|;
  }

  // A step in the fields of the Change it is for and of that one's base.
  ghost predicate StepInFields(m: Records, steps: seq<DeliveryStep>, k: nat)
    requires k < |steps|
  {
    var step := steps[k];
    && step.changeId in m && step.headRef == "temote/" + step.changeId
    && var c := m[step.changeId];
    && c.materialized == Some(step.revision)
    && (match c.base
        case OriginMain =>
          step.how == SinglePr && step.baseRef == "main" && step.baseChange == None && step.baseRevision == None
        case OnChange(b) =>
          && step.how == StackedPr && step.baseChange == Some(b)
          && exists j :: 0 <= j < k && steps[j].changeId == b
                         && step.baseRef == steps[j].headRef && step.baseRevision == Some(steps[j].revision))
  }

  // Every step of a plan says what to deliver where: the heads are distinct
  // branches, none of them main, and each pull request goes to main or to the
  // head, at its planned revision, of an earlier step.
  lemma PlannedRefsStack(changes: seq<ChangeRecord>)
    requires PlanOf(changes).Ok?
    ensures DistinctIds(changes)
    ensures var steps := PlanOf(changes).value.steps;
            && (forall i, j :: 0 <= i < j < |steps| ==> steps[i].headRef != steps[j].headRef)
            && (forall k :: 0 <= k < |steps| ==> steps[k].headRef != "main" && StepInFields(ById(changes), steps, k))
  {
    PlanPlacesEachChangeAfterItsBase(changes);
    var m, steps := ById(changes), PlanOf(changes).value.steps;
    forall i, j | 0 <= i < j < |steps| ensures steps[i].headRef != steps[j].headRef {
      assert StepGood(m, steps, i) && StepGood(m, steps, j);
      HeadRefsDiffer(steps[i].changeId, steps[j].changeId);
    }
    forall k | 0 <= k < |steps| ensures steps[k].headRef != "main" && StepInFields(m, steps, k) {
      assert StepGood(m, steps, k);
      HeadRefsDiffer(steps[k].changeId, "");
      GoodStepInFields(m, steps, k);
    }
  }

  lemma GoodStepInFields(m: Records, steps: seq<DeliveryStep>, k: nat)
    requires k < |steps| && forall j :: 0 <= j <= k ==> StepGood(m, steps, j)
    ensures StepInFields(m, steps, k)
  {
    assert StepGood(m, steps, k);
    var c := m[steps[k].changeId];
    if c.base.OnChange? {
      var j :| 0 <= j < k && steps[j].changeId == c.base.id;
      assert StepGood(m, steps, j);
    }
  }

  lemma GoodPlacementSize(m: Records, p: Progress)
    requires Good(m, p)
    ensures |p.steps| == |p.done|
  {
    var ids := seq(|p.steps|, k requires 0 <= k < |p.steps| => p.steps[k].changeId);
    forall id ensures id in ids <==> id in p.done {
      if id in p.done {
        var k :| 0 <= k < |p.steps| && p.steps[k].changeId == id;
        assert ids[k] == id;
      }
      if id in ids {
        assert Within(p.steps, id, |p.steps|);
      }
    }
    DistinctSize(ids, p.done);
  }

  lemma DistinctChangesSize(changes: seq<ChangeRecord>)
    requires DistinctIds(changes)
    ensures |changes| == |ById(changes)|
  {
    var m := ById(changes);
    var ids := seq(|changes|, k requires 0 <= k < |changes| => changes[k].changeId);
    forall id ensures id in ids <==> id in m {
      if id in m {
        assert m[id] in changes;
        var k :| 0 <= k < |changes| && changes[k] == m[id];
        assert ids[k] == id;
      }
      if id in ids {
        var k :| 0 <= k < |ids| && ids[k] == id;
        assert changes[k] in changes;
      }
    }
    DistinctSize(ids, m.Keys);
  }

  lemma SameElements(a: seq<ChangeRecord>, b: seq<ChangeRecord>)
    requires multiset(a) == multiset(b)
    ensures forall c :: c in a <==> c in b
  {
    forall c ensures c in a <==> c in b {
      assert c in a <==> c in multiset(a);
      assert c in b <==> c in multiset(b);
    }
  }

  lemma DistinctSurvivesPermutation(a: seq<ChangeRecord>, b: seq<ChangeRecord>)
    requires multiset(a) == multiset(b) && DistinctIds(a)
    ensures DistinctIds(b)
  {
    SameElements(a, b);
    forall i, j | 0 <= i < j < |b| ensures b[i].changeId != b[j].changeId {
      assert b[i] in a && b[j] in a;
      DistinctCountsOnce(a, b[i]);
      if b[i] == b[j] {
        RepeatCountsTwice(b, i, j);
      }
    }
  }

  // The plan is a function of the set of Changes, not of how they are listed.
  lemma PlanIgnoresInputOrder(a: seq<ChangeRecord>, b: seq<ChangeRecord>)
    requires multiset(a) == multiset(b)
    ensures PlanOf(a) == PlanOf(b)
  {
    if DistinctIds(a) {
      DistinctSurvivesPermutation(a, b);
      SameElements(a, b);
      assert ById(a) == ById(b);
    } else if DistinctIds(b) {
      DistinctSurvivesPermutation(b, a);
    }
  }

  // ----- delivery-only progress -----

  // The later record differs only in its receipt and has a newer revision.
  predicate DeliveryProgress(a: ChangeRecord, b: ChangeRecord) {
    b == a.(delivery := b.delivery, revision := b.revision) && a.revision <= b.revision
  }

  ghost predicate DeliveryProgressMap(m: Records, n: Records) {
    m.Keys == n.Keys && forall id :: id in m ==> DeliveryProgress(m[id], n[id])
  }

  lemma VisitIgnoresDelivery(m: Records, n: Records, id: string, p: Progress)
    requires DeliveryProgressMap(m, n) && id in m
    requires Visit(m, id, p).Ok?
    ensures Visit(n, id, p) == Visit(m, id, p)
  {
    assert DeliveryProgress(m[id], n[id]);
    if m[id].base.OnChange? && m[id].base.id in m {
      assert DeliveryProgress(m[m[id].base.id], n[m[id].base.id]);
    }
  }

  lemma {:induction false} PassIgnoresDelivery(m: Records, n: Records, keys: seq<string>, p: Progress)
    requires DeliveryProgressMap(m, n) && (forall k :: k in keys ==> k in m) && p.done <= m.Keys
    requires Pass(m, keys, p).Ok?
    ensures Pass(n, keys, p) == Pass(m, keys, p)
  {
    if |keys| > 0 {
      VisitIgnoresDelivery(m, n, keys[0], p);
      PassIgnoresDelivery(m, n, keys[1..], Visit(m, keys[0], p).value);
    }
  }

  lemma {:induction false} RoundsIgnoreDelivery(m: Records, n: Records, keys: seq<string>, p: Progress)
    requires DeliveryProgressMap(m, n) && (forall k :: k in keys ==> k in m) && p.done <= m.Keys
    requires Rounds(m, keys, p).Ok?
    ensures Rounds(n, keys, p) == Rounds(m, keys, p)
    decreases |m| - |p.done|
  {
    assert |m| == |m.Keys| && |n| == |n.Keys|;
    if |p.done| < |m| {
      PassIgnoresDelivery(m, n, keys, p);
      var p1 := Pass(m, keys, p).value;
      SubsetSize(p1.done, m.Keys);
      RoundsIgnoreDelivery(m, n, keys, p1);
    }
  }

  ghost predicate DeliveryProgressList(a: seq<ChangeRecord>, b: seq<ChangeRecord>) {
    |a| == |b| && forall k :: 0 <= k < |a| ==> DeliveryProgress(a[k], b[k])
  }

  lemma ProgressKeepsIdentities(a: seq<ChangeRecord>, b: seq<ChangeRecord>)
    requires DeliveryProgressList(a, b) && DistinctIds(a)
    ensures DistinctIds(b) && DeliveryProgressMap(ById(a), ById(b))
  {
    forall k | 0 <= k < |a| ensures b[k].changeId == a[k].changeId {
      assert DeliveryProgress(a[k], b[k]);
    }
    var m, n := ById(a), ById(b);
    forall k | 0 <= k < |a| ensures DeliveryProgressAt(m, n, a[k].changeId) {
      assert DeliveryProgress(a[k], b[k]);
      assert a[k] in a && b[k] in b;
    }
    forall id | id in m ensures DeliveryProgressAt(m, n, id) {
      var k :| 0 <= k < |a| && a[k] == m[id];
    }
    forall id | id in n ensures DeliveryProgressAt(m, n, id) {
      var k :| 0 <= k < |b| && b[k] == n[id];
    }
    assert m.Keys == n.Keys;
  }

  predicate DeliveryProgressAt(m: Records, n: Records, id: string) {
    id in m && id in n && DeliveryProgress(m[id], n[id])
  }

  // Accepting, delegating and reconciling deliveries never changes a plan that
  // succeeded, so a retry computes the same fingerprint.
  lemma PlanIgnoresDeliveryProgress(a: seq<ChangeRecord>, b: seq<ChangeRecord>)
    requires DeliveryProgressList(a, b)
    requires PlanOf(a).Ok?
    ensures PlanOf(b) == PlanOf(a)
  {
    ProgressKeepsIdentities(a, b);
    var m, n := ById(a), ById(b);
    ElementsOfKeys(SortedKeys(m.Keys), m.Keys);
    RoundsIgnoreDelivery(m, n, SortedKeys(m.Keys), Progress({}, []));
  }
}
