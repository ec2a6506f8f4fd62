// The bounded evidence store and its pager.
module Evidence {
  import opened Wrappers
  import opened Utf8

  const MAX_READ_BYTES: nat := 64 * 1024
  const MAX_RECORD_BYTES: nat := 2 * 1024 * 1024
  const MAX_RECORDS_PER_SESSION: nat := 128
  const MAX_RECORDS_TOTAL: nat := 512
  const MAX_TOTAL_BYTES: nat := 64 * 1024 * 1024
  const RETENTION: nat := 30 * 60
  const USIZE_MAX: nat := 0xFFFF_FFFF_FFFF_FFFF

  datatype Record = Record(session: string, scope: string, instance: Option<nat>, content: seq<Byte>, createdAt: nat)

  type Held = map<nat, Record>

  datatype Problem = TooLarge | AtByteLimit | BadPageSize | Missing | WrongSession | WrongScope
                   | WrongInstance | OffsetTooLarge | OffsetInsideCharacter

  datatype Reference = Reference(id: nat, bytes: nat, retention: nat)

  datatype Page = Page(offset: nat, total: nat, content: seq<Byte>, truncated: bool, next: Option<nat>)

  function SaturatingAdd(a: nat, b: nat): nat {
    if a + b > USIZE_MAX then USIZE_MAX else a + b
  }

  function SaturatingSub(a: nat, b: nat): nat {
    if a < b then 0 else a - b
  }

  // ----- accounting -----

  ghost function Total(m: Held): nat {
    if m == map[] then 0
    else
      var k :| k in m;
      |m[k].content| + Total(m - {k})
  }

  lemma {:induction false} TotalWithout(m: Held, k: nat)
    requires k in m
    ensures Total(m) == |m[k].content| + Total(m - {k})
    decreases |m|
  {
    var j :| j in m && Total(m) == |m[j].content| + Total(m - {j});
    if j != k {
      TotalWithout(m - {j}, k);
      TotalWithout(m - {k}, j);
      assert (m - {j}) - {k} == (m - {k}) - {j};
    }
  }

  lemma TotalWith(m: Held, k: nat, r: Record)
    requires k !in m
    ensures Total(m[k := r]) == Total(m) + |r.content|
  {
    TotalWithout(m[k := r], k);
    assert m[k := r] - {k} == m;
  }

  function OfSession(m: Held, session: string): set<nat> {
    set k | k in m && m[k].session == session
  }

  function SessionRecordCount(m: Held, session: string): nat {
    |OfSession(m, session)|
  }

  ghost predicate SessionsWithin(m: Held) {
    forall session :: SessionRecordCount(m, session) <= MAX_RECORDS_PER_SESSION
  }

  ghost predicate WithinLimits(m: Held) {
    |m| <= MAX_RECORDS_TOTAL && SessionsWithin(m) && Total(m) <= MAX_TOTAL_BYTES
  }

  // Storing `bytes` more for the session would break a limit.
  ghost predicate Full(m: Held, session: string, bytes: nat) {
    || |m| >= MAX_RECORDS_TOTAL
    || SessionRecordCount(m, session) >= MAX_RECORDS_PER_SESSION
    || Total(m) + bytes > MAX_TOTAL_BYTES
  }

  // Every record holds text, of at most the record limit.
  predicate TextRecord(r: Record) {
    Utf8.Valid(r.content) && |r.content| <= MAX_RECORD_BYTES
  }

  predicate AllText(m: Held) {
    forall k :: k in m ==> TextRecord(m[k])
  }

  predicate Expired(r: Record, now: nat) {
    SaturatingSub(now, r.createdAt) >= RETENTION
  }

  function Unexpired(m: Held, now: nat): Held {
    map k | k in m && !Expired(m[k], now) :: m[k]
  }

  // Everything dropped is at most as new as everything kept.
  ghost predicate OldestDropped(before: Held, after: Held) {
    && after.Keys <= before.Keys && (forall k :: k in after ==> after[k] == before[k])
    && forall e, s :: e in before && e !in after && s in after ==> before[e].createdAt <= before[s].createdAt
  }

  // Nothing was dropped needlessly: with the last dropped record back, the
  // store would still be full.
  ghost predicate DroppedOnlyWhileFull(before: Held, after: Held, session: string, bytes: nat) {
    before == after
    || exists last :: last in before && last !in after && Full(after[last := before[last]], session, bytes)
                      && forall e :: e in before && e !in after ==> before[e].createdAt <= before[last].createdAt
  }

  ghost predicate MadeRoom(before: Held, after: Held, session: string, bytes: nat) {
    OldestDropped(before, after) && DroppedOnlyWhileFull(before, after, session, bytes)
  }

  class Store {
    var records: Held
    var totalBytes: nat

    ghost predicate Valid()
      reads this
    {
      && totalBytes == Total(records)
      && WithinLimits(records)
      && AllText(records)
    }

    constructor ()
      ensures Valid() && records == map[]
    {
      records, totalBytes := map[], 0;
      new;
      EmptyIsWithinLimits();
    }

    // Removing an unknown record does nothing.
    method RemoveRecord(id: nat)
      requires Valid()
      modifies this
      ensures Valid() && records == old(records) - {id}
    {
      if id !in records {
        assert records - {id} == records;
        return;
      }
      TotalWithout(records, id);
      FewerIsWithinLimits(records, records - {id});
      totalBytes := SaturatingSub(totalBytes, |records[id].content|);
      records := records - {id};
    }

    method Prune(now: nat)
      requires Valid()
      modifies this
      ensures Valid() && records == Unexpired(old(records), now)
    {
      var expired := set k | k in records && Expired(records[k], now);
      RemoveAll(expired);
      assert records == Unexpired(old(records), now);
    }

    method RemoveAll(ids: set<nat>)
      requires Valid() && ids <= records.Keys
      modifies this
      ensures Valid() && records == old(records) - ids
    {
      var rest := ids;
      assert ids - ids == {};
      while rest != {}
        invariant Valid()
        invariant Partly(old(records), records, ids, rest)
        decreases |rest|
      {
        var id :| id in rest;
        ghost var before := records;
        RemoveRecord(id);
        PartlyMore(old(records), before, records, ids, rest, id);
        rest := rest - {id};
      }
      assert ids - rest == ids;
    }

    method Oldest() returns (oldest: Option<nat>)
      ensures oldest.None? <==> records == map[]
      ensures oldest.Some? ==> oldest.value in records
                               && forall k :: k in records ==> records[oldest.value].createdAt <= records[k].createdAt
    {
      oldest := None;
      var rest := records.Keys;
      while rest != {}
        invariant rest <= records.Keys
        invariant oldest.None? ==> rest == records.Keys
        invariant oldest.Some? ==> oldest.value in records
        invariant oldest.Some? ==>
                    forall k :: k in records && k !in rest ==> records[oldest.value].createdAt <= records[k].createdAt
        decreases |rest|
      {
        var k :| k in rest;
        if oldest.None? || records[k].createdAt < records[oldest.value].createdAt {
          oldest := Some(k);
        }
        rest := rest - {k};
      }
    }

    // Drop the oldest records until one more of this size fits.
    method MakeRoom(session: string, bytes: nat)
      requires Valid() && bytes <= MAX_RECORD_BYTES
      modifies this
      ensures Valid() && !Full(records, session, bytes)
      ensures MadeRoom(old(records), records, session, bytes)
    {
      while |records| >= MAX_RECORDS_TOTAL
         || SessionRecordCount(records, session) >= MAX_RECORDS_PER_SESSION
         || SaturatingAdd(totalBytes, bytes) > MAX_TOTAL_BYTES
        invariant Valid()
        invariant MadeRoom(old(records), records, session, bytes)
        decreases |records|
      {
        assert Full(records, session, bytes);
        var oldest := Oldest();
        EmptyIsWithinLimits();
        if oldest.None? {
          break;
        }
        MadeRoomMore(old(records), records, oldest.value, session, bytes);
        RemoveRecord(oldest.value);
      }
    }

    method StoreContent(session: string, scope: string, instance: Option<nat>, content: seq<Byte>,
                        now: nat, createdAt: nat, id: nat)
      returns (res: Result<Option<Reference>, Problem>)
      requires Valid() && Utf8.Valid(content) && id !in records
      modifies this
      ensures Valid()
      ensures |content| == 0 ==> res == Ok(None) && records == old(records)
      ensures |content| > MAX_RECORD_BYTES ==> res == Err(TooLarge) && records == old(records)
      ensures 0 < |content| <= MAX_RECORD_BYTES ==>
                && res == Ok(Some(Reference(id, |content|, RETENTION)))
                && id in records && records[id] == Record(session, scope, instance, content, createdAt)
                && MadeRoom(Unexpired(old(records), now), records - {id}, session, |content|)
    {
      if |content| == 0 {
        return Ok(None);
      }
      if |content| > MAX_RECORD_BYTES {
        return Err(TooLarge);
      }
      Prune(now);
      MakeRoom(session, |content|);
      if SaturatingAdd(totalBytes, |content|) > MAX_TOTAL_BYTES {
        assert false;
        return Err(AtByteLimit);
      }
      InsertRecord(id, Record(session, scope, instance, content, createdAt));
      res := Ok(Some(Reference(id, |content|, RETENTION)));
    }

    method InsertRecord(id: nat, r: Record)
      requires Valid() && id !in records && !Full(records, r.session, |r.content|)
      requires Utf8.Valid(r.content) && |r.content| <= MAX_RECORD_BYTES
      modifies this
      ensures Valid() && id in records && records[id] == r && records - {id} == old(records)
    {
      TotalWith(records, id, r);
      OneMoreIsWithinLimits(records, id, r);
      records := records[id := r];
      totalBytes := SaturatingAdd(totalBytes, |r.content|);
    }

    method RemoveSession(session: string)
      requires Valid()
      modifies this
      ensures Valid()
      ensures records == map k | k in old(records) && old(records)[k].session != session :: old(records)[k]
    {
      var ids := set k | k in records && records[k].session == session;
      RemoveAll(ids);
    }

    // A page goes only to the owner, and is the page of the stored content.
    method ReadContent(session: string, scope: string, instance: Option<nat>, id: nat,
                       offset: nat, maxBytes: nat, now: nat) returns (res: Result<Page, Problem>)
      requires Valid()
      modifies this
      ensures Valid()
      ensures records == if 1 <= maxBytes <= MAX_READ_BYTES then Unexpired(old(records), now) else old(records)
      ensures res.Ok? <==> Readable(old(records), session, scope, instance, id, offset, maxBytes, now)
      ensures res.Ok? ==> PageOf(old(records)[id].content, offset, maxBytes, res.value)
    {
      if maxBytes < 1 || maxBytes > MAX_READ_BYTES {
        return Err(BadPageSize);
      }
      Prune(now);
      if id !in records {
        return Err(Missing);
      }
      var record := records[id];
      if record.session != session {
        return Err(WrongSession);
      }
      if record.scope != scope {
        return Err(WrongScope);
      }
      if instance.Some? && record.instance != instance {
        return Err(WrongInstance);
      }
      if offset > |record.content| {
        return Err(OffsetTooLarge);
      }
      if !Boundary(record.content, offset) {
        return Err(OffsetInsideCharacter);
      }
      var page := CutPage(record.content, offset, maxBytes);
      res := Ok(page);
    }
  }

  predicate Readable(m: Held, session: string, scope: string, instance: Option<nat>, id: nat,
                     offset: nat, maxBytes: nat, now: nat) {
    && 1 <= maxBytes <= MAX_READ_BYTES
    && id in m && !Expired(m[id], now)
    && m[id].session == session && m[id].scope == scope
    && (instance.Some? ==> m[id].instance == instance)
    && offset <= |m[id].content| && Boundary(m[id].content, offset)
  }

  // A stored text stays readable for half an hour and is gone from then on: its
  // owner gets the first page until 1800 seconds after it was stored.
  lemma ReadableForHalfAnHour(m: Held, id: nat, maxBytes: nat, now: nat)
    requires id in m && 1 <= maxBytes <= 65536
    ensures id in Unexpired(m, now) <==> now < m[id].createdAt + 1800
    ensures id in Unexpired(m, now) ==> Unexpired(m, now)[id] == m[id]
    ensures Readable(m, m[id].session, m[id].scope, m[id].instance, id, 0, maxBytes, now) <==>
              now < m[id].createdAt + 1800
  {
  }

  // ----- limits -----

  // The limits in numbers: 512 records, 128 of one session, 64 MiB in all, 2 MiB
  // for one record.
  lemma LimitsInNumbers(m: Held)
    ensures WithinLimits(m) <==>
              |m| <= 512 && Total(m) <= 67108864 && forall session :: SessionRecordCount(m, session) <= 128
    ensures AllText(m) ==> forall k :: k in m ==> |m[k].content| <= 2097152
  {
  }

  lemma EmptyIsWithinLimits()
    ensures WithinLimits(map[]) && Total(map[]) == 0
  {
    var none: Held := map[];
    forall session ensures SessionRecordCount(none, session) == 0 {
      assert OfSession(none, session) == {};
    }
  }

  lemma SmallerOrEqual<T>(a: set<T>, b: set<T>)
    requires a <= b
    ensures |a| <= |b|
  {
    assert b == a + (b - a);
  }

  lemma FewerIsWithinLimits(m: Held, n: Held)
    requires n.Keys <= m.Keys && (forall k :: k in n ==> n[k] == m[k])
    requires SessionsWithin(m)
    ensures |n| <= |m| && SessionsWithin(n)
  {
    SmallerOrEqual(n.Keys, m.Keys);
    assert |n| == |n.Keys| && |m| == |m.Keys|;
    forall session ensures SessionRecordCount(n, session) <= MAX_RECORDS_PER_SESSION {
      SmallerOrEqual(OfSession(n, session), OfSession(m, session));
      assert SessionRecordCount(m, session) <= MAX_RECORDS_PER_SESSION;
    }
  }

  ghost predicate Partly(m: Held, n: Held, ids: set<nat>, rest: set<nat>) {
    rest <= ids && rest <= n.Keys && n == m - (ids - rest)
  }

  lemma PartlyMore(m: Held, n: Held, n': Held, ids: set<nat>, rest: set<nat>, id: nat)
    requires Partly(m, n, ids, rest) && id in rest && n' == n - {id}
    ensures Partly(m, n', ids, rest - {id})
  {
    assert ids - (rest - {id}) == (ids - rest) + {id};
  }

  // Dropping the oldest while full keeps the account of what was dropped.
  lemma MadeRoomMore(m: Held, n: Held, oldest: nat, session: string, bytes: nat)
    requires MadeRoom(m, n, session, bytes) && Full(n, session, bytes)
    requires oldest in n && forall k :: k in n ==> n[oldest].createdAt <= n[k].createdAt
    ensures MadeRoom(m, n - {oldest}, session, bytes)
  {
    var n' := n - {oldest};
    assert n'[oldest := m[oldest]] == n;
  }

  lemma OneMoreCount(m: Held, k: nat, r: Record, session: string)
    requires k !in m
    ensures SessionRecordCount(m[k := r], session) == SessionRecordCount(m, session) + (if session == r.session then 1 else 0)
  {
    assert OfSession(m[k := r], session) == OfSession(m, session) + (if session == r.session then {k} else {});
  }

  lemma OneMoreIsWithinLimits(m: Held, k: nat, r: Record)
    requires k !in m && SessionsWithin(m) && SessionRecordCount(m, r.session) < MAX_RECORDS_PER_SESSION
    ensures |m[k := r]| == |m| + 1 && SessionsWithin(m[k := r])
  {
    assert m[k := r].Keys == m.Keys + {k};
    var n := m[k := r];
    forall session ensures SessionRecordCount(n, session) <= MAX_RECORDS_PER_SESSION {
      OneMoreCount(m, k, r, session);
    }
  }

  // ----- pages -----

  method NextCharBoundary(text: seq<Byte>, from: nat) returns (end: nat)
    requires from <= |text|
    ensures from <= end <= |text| && Boundary(text, end)
    ensures forall j :: from <= j < end ==> !Boundary(text, j)
  {
    end := from;
    while end < |text| && !Boundary(text, end)
      invariant from <= end <= |text|
      invariant forall j :: from <= j < end ==> !Boundary(text, j)
    {
      end := end + 1;
    }
  }

  function Min(a: nat, b: nat): nat {
    if a <= b then a else b
  }

  // What a page is: valid text from the offset to a boundary, never empty
  // before the end, at most one character over the request, within the cap.
  predicate PageOf(text: seq<Byte>, offset: nat, maxBytes: nat, p: Page) {
    && offset <= |text| && p.offset == offset && p.total == |text|
    && var end := offset + |p.content|;
    && PageEnd(text, offset, maxBytes, end)
    && p.content == text[offset..end] && Utf8.Valid(p.content)
    && (p.truncated <==> end < |text|)
    && p.next == (if end < |text| then Some(end) else None)
  }

  // Where the page that starts at the offset ends.
  predicate PageEnd(text: seq<Byte>, offset: nat, maxBytes: nat, end: nat) {
    && offset <= end <= |text| && Boundary(text, end)
    && end - offset <= Min(maxBytes + 3, MAX_READ_BYTES)
    && (offset < |text| ==> offset < end)
    && (end - offset < maxBytes ==> end == |text| || forall j :: end < j <= offset + maxBytes ==> !Boundary(text, j))
  }

  method FindPageEnd(text: seq<Byte>, offset: nat, maxBytes: nat) returns (end: nat)
    requires Utf8.Valid(text) && offset <= |text| && Boundary(text, offset)
    requires 1 <= maxBytes <= MAX_READ_BYTES && |text| <= MAX_RECORD_BYTES
    ensures PageEnd(text, offset, maxBytes, end)
  {
    var desired := Min(SaturatingAdd(offset, maxBytes), |text|);
    ghost var back, on := BoundaryNearby(text, desired);
    end := NextCharBoundary(text, desired);
    assert end <= on;
    if SaturatingSub(end, offset) > MAX_READ_BYTES {
      assert back > offset;
      end := desired;
      while !Boundary(text, end)
        invariant back <= end <= desired
        invariant forall j :: end < j <= desired ==> !Boundary(text, j)
        decreases end
      {
        end := end - 1;
      }
    }
  }

  method CutPage(text: seq<Byte>, offset: nat, maxBytes: nat) returns (page: Page)
    requires Utf8.Valid(text) && offset <= |text| && Boundary(text, offset)
    requires 1 <= maxBytes <= MAX_READ_BYTES && |text| <= MAX_RECORD_BYTES
    ensures PageOf(text, offset, maxBytes, page)
  {
    var end := FindPageEnd(text, offset, maxBytes);
    SliceIsValid(text, offset, end);
    var truncated := end < |text|;
    page := Page(offset, |text|, text[offset..end], truncated, if truncated then Some(end) else None);
  }

  lemma SliceIsValid(text: seq<Byte>, offset: nat, end: nat)
    requires Utf8.Valid(text) && offset <= end <= |text| && Boundary(text, offset) && Boundary(text, end)
    ensures Utf8.Valid(text[offset..end])
  {
    BoundarySplitsValid(text, end);
    PrefixBoundary(text, offset, end);
    BoundarySplitsValid(text[..end], offset);
    assert text[offset..end] == text[..end][offset..];
  }

  lemma PrefixBoundary(text: seq<Byte>, offset: nat, end: nat)
    requires offset <= end <= |text| && Boundary(text, offset)
    ensures Boundary(text[..end], offset)
  {
  }

  // ----- following the pages -----

  // The pages a reader got by following each continuation offset.
  ghost predicate Followed(text: seq<Byte>, offset: nat, sizes: seq<nat>, pages: seq<Page>)
    decreases |pages|
  {
    && |pages| <= |sizes|
    && (|pages| > 0 ==>
          && PageOf(text, offset, sizes[0], pages[0])
          && (|pages| > 1 ==> pages[0].next.Some? && Followed(text, pages[0].next.value, sizes[1..], pages[1..])))
  }

  function Joined(pages: seq<Page>): seq<Byte> {
    if |pages| == 0 then [] else pages[0].content + Joined(pages[1..])
  }

  // Following the pages adds up to the stored text: whatever the sizes, the
  // pages read so far are the text up to where the last one ended, and a reader
  // who keeps going is done after at most one page per remaining byte.
  lemma {:induction false} PagesAddUp(text: seq<Byte>, offset: nat, sizes: seq<nat>, pages: seq<Page>)
    requires offset <= |text| && |pages| > 0 && Followed(text, offset, sizes, pages)
    ensures offset + |Joined(pages)| <= |text|
    ensures Joined(pages) == text[offset..offset + |Joined(pages)|]
    ensures var last := pages[|pages| - 1];
            if last.next.Some? then last.next.value == offset + |Joined(pages)| && |Joined(pages)| >= |pages|
            else offset + |Joined(pages)| == |text|
    decreases |pages|
  {
    if |pages| == 1 {
      assert Joined(pages[1..]) == [];
      assert Joined(pages) == pages[0].content;
    } else {
      PagesAddUp(text, pages[0].next.value, sizes[1..], pages[1..]);
      assert pages[1..][|pages[1..]| - 1] == pages[|pages| - 1];
    }
  }

  // So a reader that never stops early has the whole text after |text| pages.
  lemma ReadingTerminates(text: seq<Byte>, sizes: seq<nat>, pages: seq<Page>)
    requires Followed(text, 0, sizes, pages) && |pages| > 0 && |pages| >= |text|
    ensures pages[|pages| - 1].next.None? && Joined(pages) == text
  {
    PagesAddUp(text, 0, sizes, pages);
    var last := pages[|pages| - 1];
    if last.next.Some? {
      assert |Joined(pages)| >= |text|;
      LastPageEndsEarly(text, 0, sizes, pages);
    }
    assert text[0..|text|] == text;
  }

  lemma {:induction false} LastPageEndsEarly(text: seq<Byte>, offset: nat, sizes: seq<nat>, pages: seq<Page>)
    requires offset <= |text| && |pages| > 0 && Followed(text, offset, sizes, pages)
    requires pages[|pages| - 1].next.Some?
    ensures pages[|pages| - 1].next.value < |text|
    decreases |pages|
  {
    if |pages| > 1 {
      assert pages[1..][|pages[1..]| - 1] == pages[|pages| - 1];
      LastPageEndsEarly(text, pages[0].next.value, sizes[1..], pages[1..]);
    }
  }

  // And the next page is always there to be read: the continuation offset of a
  // page is a legal offset of the same text.
  lemma ContinuationIsReadable(text: seq<Byte>, offset: nat, maxBytes: nat, p: Page)
    requires PageOf(text, offset, maxBytes, p) && p.next.Some?
    ensures p.next.value <= |text| && Boundary(text, p.next.value) && p.next.value > offset
  {
  }
}
