// Delivery order of a set of Changes: a repeated-pass topological sort with
// readiness checks, and what it promises about the base relation.
module DeliveryPlanning {
  import opened Wrappers
  import opened SortedLists
  import opened IdOrder
  import opened ChangeModel

  type Records = map<string, ChangeRecord>

  datatype Progress = Progress(done: set<string>, steps: seq<DeliveryStep>)

  predicate Keyed(m: Records) {
    forall id :: id in m ==> m[id].changeId == id
  }

  ghost predicate DistinctIds(changes: seq<ChangeRecord>) {
    forall i, j :: 0 <= i < j < |changes| ==> changes[i].changeId != changes[j].changeId
  }

  ghost function ById(changes: seq<ChangeRecord>): (m: Records)
    requires DistinctIds(changes)
    ensures Keyed(m)
    ensures forall c :: c in changes ==> c.changeId in m && m[c.changeId] == c
    ensures forall id :: id in m ==> m[id] in changes
  {
    map c | c in changes :: c.changeId := c
  }

  ghost function SortedKeys(s: set<string>): (keys: seq<string>)
    ensures Strict(keys, Less) && Elems(keys) == s
  {
    if s == {} then []
    else
      var x :| x in s;
      var rest := SortedKeys(s - {x});
      StringsAreOrdered();
      PutStrict(rest, x, Less);
      PutElems(rest, x, Less);
      Put(rest, x, Less)
  }

  // Why a Change cannot be delivered yet, checked in this order.
  function Readiness(c: ChangeRecord): Option<Error> {
    if !Bound(c) then Some(NotAllocated)
    else if c.writer.Some? then Some(ActiveWriter)
    else if c.materialized.None? then Some(MissingRevision)
    else if c.verification.None? then Some(MissingVerification)
    else if !VerifiedNow(c, c.materialized.value) || c.verification.value.recordRevision > c.revision then
      Some(VerificationStale)
    else None
  }

  // A passing verification for this revision and the recorded task revision.
  predicate VerifiedNow(c: ChangeRecord, revision: string) {
    && c.verification.Some?
    && c.verification.value.passed
    && c.verification.value.revision == revision
    && c.verification.value.taskRevision > 0
    && c.verification.value.taskRevision == c.taskRevision
  }

  function StepFor(m: Records, id: string): DeliveryStep
    requires id in m && m[id].materialized.Some?
    requires m[id].base.OnChange? ==> m[id].base.id in m
  {
    var c := m[id];
    DeliveryStep(id, c.materialized.value, HeadRef(id), BaseRef(c.base), BaseChange(c.base),
                 if c.base.OnChange? then m[c.base.id].materialized else None, MethodFor(c.base))
  }

  // One Change of one pass: already placed, waiting for its base, placed, or refused.
  function Visit(m: Records, id: string, p: Progress): (r: Result<Progress, Error>)
    requires id in m
    ensures r.Ok? ==> r.value == p || (id !in p.done && r.value.done == p.done + {id} && |r.value.steps| == |p.steps| + 1)
  {
    var c := m[id];
    if id in p.done then Ok(p)
    else if c.base.OnChange? && c.base.id !in m then Err(MissingParent(id))
    else if c.base.OnChange? && m[c.base.id].scope != c.scope then Err(IncompatibleParent)
    else if c.base.OnChange? && c.base.id !in p.done then Ok(p)
    else if Readiness(c).Some? then Err(Readiness(c).value)
    else Ok(Progress(p.done + {id}, p.steps + [StepFor(m, id)]))
  }

  function Pass(m: Records, keys: seq<string>, p: Progress): (r: Result<Progress, Error>)
    requires forall k :: k in keys ==> k in m
    requires p.done <= m.Keys
    ensures r.Ok? ==> p.done <= r.value.done <= m.Keys
    ensures r.Ok? ==> |r.value.steps| - |p.steps| == |r.value.done| - |p.done|
  {
    if |keys| == 0 then Ok(p)
    else
      var p1 :- Visit(m, keys[0], p);
      Pass(m, keys[1..], p1)
  }

  function Rounds(m: Records, keys: seq<string>, p: Progress): (r: Result<Progress, Error>)
    requires forall k :: k in keys ==> k in m
    requires p.done <= m.Keys
    ensures r.Ok? ==> p.done <= r.value.done == m.Keys
    decreases |m| - |p.done|
  {
    SubsetSize(p.done, m.Keys);
    if |p.done| < |m| then
      var p1 :- Pass(m, keys, p);
      SubsetSize(p1.done, m.Keys);
      if |p1.steps| <= |p.steps| then Err(DependencyCycle) else Rounds(m, keys, p1)
    else
      Ok(p)
  }

  lemma SubsetSize(a: set<string>, b: set<string>)
    requires a <= b
    ensures |a| <= |b|
    ensures |a| == |b| ==> a == b
  {
    assert b == a + (b - a);
    assert |b| == |a| + |b - a|;
  }

  ghost function PlanOf(changes: seq<ChangeRecord>): Result<DeliveryPlan, Error> {
    if !DistinctIds(changes) then Err(DuplicateChange)
    else
      var m := ById(changes);
      var p :- Rounds(m, SortedKeys(m.Keys), Progress({}, []));
      Ok(DeliveryPlan(p.steps, Digest(p.steps)))
  }

  lemma ByIdGrows(changes: seq<ChangeRecord>, c: ChangeRecord)
    requires DistinctIds(changes)
    ensures DistinctIds(changes + [c]) <==> c.changeId !in ById(changes)
    ensures DistinctIds(changes + [c]) ==> ById(changes + [c]) == ById(changes)[c.changeId := c]
  {
    var m := ById(changes);
    if c.changeId in m {
      var k :| 0 <= k < |changes| && changes[k] == m[c.changeId];
      assert (changes + [c])[k].changeId == (changes + [c])[|changes|].changeId;
    } else {
      forall k | 0 <= k < |changes| ensures changes[k].changeId != c.changeId {
        assert changes[k] in changes;
      }
      var n := ById(changes + [c]);
      assert forall x :: x in changes + [c] <==> x in changes || x == c;
      assert n.Keys == m.Keys + {c.changeId};
    }
  }

  lemma DuplicateAt(changes: seq<ChangeRecord>, i: nat)
    requires i < |changes| && DistinctIds(changes[..i])
    requires changes[i].changeId in ById(changes[..i])
    ensures !DistinctIds(changes)
  {
    var init := changes[..i];
    assert ById(init)[changes[i].changeId] in init;
    var k :| 0 <= k < i && init[k] == ById(init)[changes[i].changeId];
    assert changes[k].changeId == changes[i].changeId;
  }

  // The ordered map by identity, unless two Changes share one.
  method IndexById(changes: seq<ChangeRecord>) returns (keys: seq<string>, byId: Records, distinct: bool)
    ensures distinct <==> DistinctIds(changes)
    ensures distinct ==> byId == ById(changes) && keys == SortedKeys(byId.Keys)
  {
    keys, byId := [], map[];
    StringsAreOrdered();
    for i := 0 to |changes|
      invariant DistinctIds(changes[..i])
      invariant Strict(keys, Less) && Elems(keys) == byId.Keys
      invariant byId == ById(changes[..i])
    {
      var id := changes[i].changeId;
      if id in byId {
        DuplicateAt(changes, i);
        return keys, byId, false;
      }
      assert changes[..i + 1] == changes[..i] + [changes[i]];
      ByIdGrows(changes[..i], changes[i]);
      PutStrict(keys, id, Less);
      PutElems(keys, id, Less);
      keys := Put(keys, id, Less);
      byId := byId[id := changes[i]];
    }
    assert changes[..|changes|] == changes;
    StrictIsUnique(keys, SortedKeys(byId.Keys), Less);
    distinct := true;
  }

  // One sweep over the Changes in key order.
  method RunPass(byId: Records, keys: seq<string>, before: Progress)
    returns (res: Result<Progress, Error>, progressed: bool)
    requires forall k :: k in keys ==> k in byId
    requires before.done <= byId.Keys
    ensures res == Pass(byId, keys, before)
    ensures res.Ok? ==> (progressed <==> |res.value.steps| > |before.steps|)
  {
    var done, steps := before.done, before.steps;
    progressed := false;
    for i := 0 to |keys|
      invariant done <= byId.Keys
      invariant |steps| >= |before.steps|
      invariant progressed <==> |steps| > |before.steps|
      invariant forall k :: k in keys[i..] ==> k in byId
      invariant Pass(byId, keys[i..], Progress(done, steps)) == Pass(byId, keys, before)
    {
      var id := keys[i];
      var change := byId[id];
      assert keys[i..][0] == id && keys[i..][1..] == keys[i + 1..];
      if id in done {
        continue;
      }
      if change.base.OnChange? {
        if change.base.id !in byId {
          return Err(MissingParent(id)), progressed;
        }
        if byId[change.base.id].scope != change.scope {
          return Err(IncompatibleParent), progressed;
        }
        if change.base.id !in done {
          continue;
        }
      }
      var refused := Readiness(change);
      if refused.Some? {
        return Err(refused.value), progressed;
      }
      steps := steps + [StepFor(byId, id)];
      done := done + {id};
      progressed := true;
    }
    assert keys[|keys|..] == [];
    res := Ok(Progress(done, steps));
  }

  method Plan(changes: seq<ChangeRecord>) returns (res: Result<DeliveryPlan, Error>)
    ensures res == PlanOf(changes)
  {
    var keys, byId, distinct := IndexById(changes);
    if !distinct {
      return Err(DuplicateChange);
    }
    ElementsOfKeys(keys, byId.Keys);
    var placed := Progress({}, []);
    while |placed.done| < |byId|
      invariant placed.done <= byId.Keys
      invariant Rounds(byId, keys, placed) == Rounds(byId, keys, Progress({}, []))
      decreases |byId| - |placed.done|
    {
      var swept, progressed := RunPass(byId, keys, placed);
      if swept.Err? {
        return Err(swept.error);
      }
      if !progressed {
        return Err(DependencyCycle);
      }
      SubsetSize(swept.value.done, byId.Keys);
      placed := swept.value;
    }
    SubsetSize(placed.done, byId.Keys);
    res := Ok(DeliveryPlan(placed.steps, Digest(placed.steps)));
  }

  lemma ElementsOfKeys(keys: seq<string>, s: set<string>)
    requires Elems(keys) == s
    ensures forall k :: k in keys <==> k in s
  {
    assert forall k :: k in keys <==> k in Elems(keys);
  }
}
