// The additive capability grants of a session: what a request adds, and taking
// it back.
module Grants {
  import opened Wrappers
  import opened SortedLists
  import opened IdOrder

  const MAX_GRANT_LISTEN_PORTS: nat := 64
  const MAX_GRANT_ENV_PREFIXES: nat := 32
  const MAX_GRANT_ENV_PREFIX_BYTES: nat := 64
  const MAX_GRANT_DIRECTORIES: nat := 16

  type Port = n: int | 0 <= n < 0x10000

  datatype Request = Request(ports: seq<Port>, prefixes: seq<string>, ambient: bool, directories: seq<string>)

  datatype Problem = InvalidRequest | NoSuchDirectory | TooManyPorts | TooManyPrefixes | DirectoriesNotRevokedHere

  predicate PortLess(a: Port, b: Port) {
    a < b
  }

  lemma OrdersAreTotal()
    ensures TotalOrder(PortLess) && TotalOrder(Less)
  {
    StringsAreOrdered();
  }

  predicate PrefixOk(prefix: string) {
    && 1 <= |prefix| <= MAX_GRANT_ENV_PREFIX_BYTES
    && forall i :: 0 <= i < |prefix| ==>
                     var c := prefix[i]; '0' <= c <= '9' || 'A' <= c <= 'Z' || 'a' <= c <= 'z' || c == '_'
  }

  predicate RequestOk(r: Request) {
    && |r.ports| <= MAX_GRANT_LISTEN_PORTS && |r.prefixes| <= MAX_GRANT_ENV_PREFIXES
    && |r.directories| <= MAX_GRANT_DIRECTORIES
    && (forall i :: 0 <= i < |r.prefixes| ==> PrefixOk(r.prefixes[i]))
    && (forall i :: 0 <= i < |r.directories| ==> r.directories[i] != "" && r.directories[i][0] == '/')
  }

  predicate EffectivelyEmpty(r: Request) {
    r.ports == [] && r.prefixes == [] && !r.ambient && r.directories == []
  }

  // The canonical form of each path of the file system that has one.
  type Paths = map<string, string>

  function Canonical(directories: seq<string>, paths: Paths): Option<seq<string>> {
    if directories == [] then Some([])
    else if directories[0] !in paths then None
    else
      var rest := Canonical(directories[1..], paths);
      if rest.None? then None else Some([paths[directories[0]]] + rest.value)
  }

  function Missing<T(==)>(asked: seq<T>, held: seq<T>, less: (T, T) -> bool): seq<T> {
    SortDedup(Without(asked, held), less)
  }

  // What a request would add, given its canonical directories.
  function MissingFrom(g: Request, r: Request, canonical: seq<string>): Request {
    Request(Missing(r.ports, g.ports, PortLess), Missing(r.prefixes, g.prefixes, Less),
            r.ambient && !g.ambient, Missing(canonical, g.directories, Less))
  }

  function WithGrants(g: Request, more: Request): Request {
    Request(SortDedup(g.ports + more.ports, PortLess), SortDedup(g.prefixes + more.prefixes, Less),
            g.ambient || more.ambient, SortDedup(g.directories + more.directories, Less))
  }

  // What a session would have after a valid request, before the limits.
  function Granted(g: Request, r: Request, paths: Paths): Request {
    var canonical := Canonical(r.directories, paths);
    if canonical.None? then g else WithGrants(g, MissingFrom(g, r, canonical.value))
  }

  predicate Applies(g: Request, r: Request, paths: Paths) {
    && RequestOk(r) && Canonical(r.directories, paths).Some?
    && (EffectivelyEmpty(MissingFrom(g, r, Canonical(r.directories, paths).value))
        || (&& |Granted(g, r, paths).ports| <= MAX_GRANT_LISTEN_PORTS
            && |Granted(g, r, paths).prefixes| <= MAX_GRANT_ENV_PREFIXES))
  }

  class Session {
    var ports: seq<Port>
    var prefixes: seq<string>
    var ambient: bool
    var directories: seq<string>

    function Snapshot(): Request
      reads this
    {
      Request(ports, prefixes, ambient, directories)
    }

    method GrantsMissingFrom(r: Request, paths: Paths) returns (res: Result<Request, Problem>)
      ensures res.Ok? <==> RequestOk(r) && Canonical(r.directories, paths).Some?
      ensures res.Ok? ==> res.value == MissingFrom(Snapshot(), r, Canonical(r.directories, paths).value)
      ensures res.Err? ==> res.error == InvalidRequest || res.error == NoSuchDirectory
    {
      if !RequestOk(r) {
        return Err(InvalidRequest);
      }
      var newPorts := DropHeld(r.ports, ports);
      var newPrefixes := DropHeld(r.prefixes, prefixes);
      var canonical := Canonical(r.directories, paths);
      if canonical.None? {
        return Err(NoSuchDirectory);
      }
      var newDirectories := DropHeld(canonical.value, directories);
      res := Ok(Request(SortDedup(newPorts, PortLess), SortDedup(newPrefixes, Less),
                        r.ambient && !ambient, SortDedup(newDirectories, Less)));
    }

    // Adds what is missing, exactly when the request is valid and what comes of
    // it is within the limits, or nothing is missing. Both limits are checked after the list they bound
    // was already extended, so a refused request may leave its ports behind.
    method Apply(r: Request, paths: Paths) returns (res: Result<Request, Problem>)
      modifies this
      ensures res.Ok? <==> Applies(old(Snapshot()), r, paths)
      ensures res.Ok? ==> res.value == MissingFrom(old(Snapshot()), r, Canonical(r.directories, paths).value)
      ensures res.Ok? && EffectivelyEmpty(res.value) ==> Snapshot() == old(Snapshot())
      ensures res.Ok? && !EffectivelyEmpty(res.value) ==> Snapshot() == WithGrants(old(Snapshot()), res.value)
      ensures res.Ok? && !EffectivelyEmpty(res.value) ==>
                |ports| <= MAX_GRANT_LISTEN_PORTS && |prefixes| <= MAX_GRANT_ENV_PREFIXES
      ensures res == Err(TooManyPorts) ==>
                |ports| > MAX_GRANT_LISTEN_PORTS && Snapshot() == old(Snapshot()).(ports := ports)
                && ports == Granted(old(Snapshot()), r, paths).ports
      ensures res == Err(TooManyPrefixes) ==>
                && |prefixes| > MAX_GRANT_ENV_PREFIXES
                && Snapshot() == old(Snapshot()).(ports := ports, prefixes := prefixes)
                && ports == Granted(old(Snapshot()), r, paths).ports
                && prefixes == Granted(old(Snapshot()), r, paths).prefixes
      ensures res.Err? && res.error != TooManyPorts && res.error != TooManyPrefixes ==> Snapshot() == old(Snapshot())
    {
      var missing := GrantsMissingFrom(r, paths);
      if missing.Err? {
        return missing;
      }
      var applied := missing.value;
      if EffectivelyEmpty(applied) {
        return missing;
      }
      ports := SortDedup(ports + applied.ports, PortLess);
      if |ports| > MAX_GRANT_LISTEN_PORTS {
        return Err(TooManyPorts);
      }
      prefixes := SortDedup(prefixes + applied.prefixes, Less);
      if |prefixes| > MAX_GRANT_ENV_PREFIXES {
        return Err(TooManyPrefixes);
      }
      ambient := ambient || applied.ambient;
      directories := SortDedup(directories + applied.directories, Less);
      res := missing;
    }

    method Revoke(r: Request) returns (res: Result<Request, Problem>)
      modifies this
      ensures res.Ok? <==> r.directories == [] && RequestOk(r)
      ensures res.Ok? ==> res.value == Held(old(Snapshot()), r) && Snapshot() == WithoutGrants(old(Snapshot()), r)
      ensures res.Err? ==> Snapshot() == old(Snapshot())
    {
      if r.directories != [] {
        return Err(DirectoriesNotRevokedHere);
      }
      if !RequestOk(r) {
        return Err(InvalidRequest);
      }
      var removed := Held(Snapshot(), r);
      ports := DropHeld(ports, r.ports);
      prefixes := DropHeld(prefixes, r.prefixes);
      if r.ambient && ambient {
        ambient := false;
      }
      res := Ok(removed);
    }
  }

  method DropHeld<T(==)>(list: seq<T>, held: seq<T>) returns (rest: seq<T>)
    ensures rest == Without(list, held)
  {
    rest := [];
    var i := |list|;
    assert list[i..] == [];
    while i > 0
      invariant i <= |list| && rest == Without(list[i..], held)
    {
      i := i - 1;
      assert list[i..][1..] == list[i + 1..];
      rest := (if list[i] in held then [] else [list[i]]) + rest;
    }
    assert list[0..] == list;
  }

  function WithoutGrants(g: Request, r: Request): Request {
    Request(Without(g.ports, r.ports), Without(g.prefixes, r.prefixes), g.ambient && !r.ambient, g.directories)
  }

  function Kept<T(==)>(s: seq<T>, keep: seq<T>): seq<T> {
    if s == [] then [] else (if s[0] in keep then [s[0]] else []) + Kept(s[1..], keep)
  }

  // The part of a request that a session holds.
  function Held(g: Request, r: Request): Request {
    Request(Kept(r.ports, g.ports), Kept(r.prefixes, g.prefixes), r.ambient && g.ambient, [])
  }

  // Each element of a list is kept or dropped by itself, and lists in a row are
  // kept each by itself.
  lemma {:induction false} KeptInOrder<T>(s: seq<T>, t: seq<T>, x: T, keep: seq<T>)
    ensures Kept([x], keep) == if x in keep then [x] else []
    ensures Kept(s + t, keep) == Kept(s, keep) + Kept(t, keep)
  {
    KeptOne(x, [], keep);
    if s == [] {
      assert s + t == t;
    } else {
      var one, rest, more := Kept([s[0]], keep), Kept(s[1..], keep), Kept(t, keep);
      KeptInOrder(s[1..], t, x, keep);
      KeptOne(s[0], s[1..] + t, keep);
      assert [s[0]] + (s[1..] + t) == s + t;
      KeptOne(s[0], s[1..], keep);
      assert [s[0]] + s[1..] == s;
      assert one + (rest + more) == (one + rest) + more;
    }
  }

  lemma KeptOne<T>(x: T, rest: seq<T>, keep: seq<T>)
    ensures Kept([x] + rest, keep) == (if x in keep then [x] else []) + Kept(rest, keep)
    ensures Kept([x], keep) == if x in keep then [x] else []
  {
    assert ([x] + rest)[1..] == rest && [x][1..] == [];
  }

  lemma {:induction false} KeptAsOften<T>(s: seq<T>, keep: seq<T>, x: T)
    ensures multiset(Kept(s, keep))[x] == if x in keep then multiset(s)[x] else 0
  {
    if s != [] {
      KeptAsOften(s[1..], keep, x);
      assert s == [s[0]] + s[1..];
    }
  }

  // A revocation returns the intersection of the request and what the session
  // held: every port and prefix as often as it was asked for.
  lemma RevokedIsIntersection(g: Request, r: Request, port: Port, prefix: string)
    ensures var held := Held(g, r);
            && multiset(held.ports)[port] == (if port in g.ports then multiset(r.ports)[port] else 0)
            && multiset(held.prefixes)[prefix] == (if prefix in g.prefixes then multiset(r.prefixes)[prefix] else 0)
            && held.ambient == (r.ambient && g.ambient) && held.directories == []
            && Elems(held.ports) == Elems(r.ports) * Elems(g.ports)
            && Elems(held.prefixes) == Elems(r.prefixes) * Elems(g.prefixes)
  {
    KeptAsOften(r.ports, g.ports, port);
    KeptAsOften(r.prefixes, g.prefixes, prefix);
    KeptElems(r.ports, g.ports);
    KeptElems(r.prefixes, g.prefixes);
  }

  lemma KeptElems<T(!new)>(s: seq<T>, keep: seq<T>)
    ensures Elems(Kept(s, keep)) == Elems(s) * Elems(keep)
  {
    forall x ensures x in Kept(s, keep) <==> x in s && x in keep {
      KeptAsOften(s, keep, x);
      assert x in Kept(s, keep) <==> x in multiset(Kept(s, keep));
      assert x in s <==> x in multiset(s);
    }
  }

  // The canonical directories are those of the request, one by one.
  lemma {:induction false} CanonicalOneByOne(directories: seq<string>, paths: Paths)
    ensures Canonical(directories, paths).Some? <==> forall d :: d in directories ==> d in paths
    ensures Canonical(directories, paths).Some? ==>
              var canonical := Canonical(directories, paths).value;
              && |canonical| == |directories|
              && forall i :: 0 <= i < |directories| ==> directories[i] in paths && canonical[i] == paths[directories[i]]
  {
    if directories != [] {
      CanonicalOneByOne(directories[1..], paths);
      assert directories == [directories[0]] + directories[1..];
    }
  }

  lemma MissingIsNew<T(!new)>(asked: seq<T>, held: seq<T>, less: (T, T) -> bool)
    requires TotalOrder(less)
    ensures Elems(Missing(asked, held, less)) == Elems(asked) - Elems(held)
    ensures forall x :: x in Missing(asked, held, less) ==> x !in held
  {
    SortDedupSorts(Without(asked, held), less);
    WithoutElems(asked, held);
    forall x | x in Missing(asked, held, less) ensures x !in held {
      assert x in Elems(Missing(asked, held, less));
    }
  }

  // Revoking what was just applied gives back the session's ports, prefixes and
  // flag exactly when its lists were sorted, or nothing was applied; directories
  // stay granted.
  lemma RevokeUndoesApplyExactlyWhen(g: Request, r: Request, canonical: seq<string>, applied: Request)
    requires applied == MissingFrom(g, r, canonical)
    requires !EffectivelyEmpty(applied)
    ensures var back := WithoutGrants(WithGrants(g, applied), applied.(directories := []));
            && (back.ports == g.ports && back.prefixes == g.prefixes <==>
                Strict(g.ports, PortLess) && Strict(g.prefixes, Less))
            && back.ambient == g.ambient
            && Elems(back.directories) == Elems(g.directories) + Elems(canonical)
  {
    OrdersAreTotal();
    MissingIsNew(r.ports, g.ports, PortLess);
    MissingIsNew(r.prefixes, g.prefixes, Less);
    MissingIsNew(canonical, g.directories, Less);
    AddThenDrop(g.ports, applied.ports, PortLess);
    AddThenDrop(g.prefixes, applied.prefixes, Less);
    SortDedupSorts(g.directories + applied.directories, Less);
    assert Elems(g.directories + applied.directories) == Elems(g.directories) + Elems(applied.directories);
  }

  // Applying is a union, and applying again adds nothing.
  lemma ApplyIsUnion(g: Request, r: Request, canonical: seq<string>, applied: Request)
    requires applied == MissingFrom(g, r, canonical)
    ensures var after := WithGrants(g, applied);
            && Elems(after.ports) == Elems(g.ports) + Elems(r.ports) && Strict(after.ports, PortLess)
            && Elems(after.prefixes) == Elems(g.prefixes) + Elems(r.prefixes) && Strict(after.prefixes, Less)
            && Elems(after.directories) == Elems(g.directories) + Elems(canonical) && Strict(after.directories, Less)
            && (after.ambient <==> g.ambient || r.ambient)
            && Missing(r.ports, after.ports, PortLess) == [] && Missing(r.prefixes, after.prefixes, Less) == []
            && Missing(canonical, after.directories, Less) == []
  {
    OrdersAreTotal();
    UnionAgain(r.ports, g.ports, PortLess);
    UnionAgain(r.prefixes, g.prefixes, Less);
    UnionAgain(canonical, g.directories, Less);
  }

  lemma UnionAgain<T(!new)>(asked: seq<T>, held: seq<T>, less: (T, T) -> bool)
    requires TotalOrder(less)
    ensures var after := SortDedup(held + Missing(asked, held, less), less);
            && Elems(after) == Elems(held) + Elems(asked) && Strict(after, less)
            && Missing(asked, after, less) == []
  {
    var missing := Missing(asked, held, less);
    var after := SortDedup(held + missing, less);
    MissingIsNew(asked, held, less);
    SortDedupSorts(held + missing, less);
    assert Elems(held + missing) == Elems(held) + Elems(missing);
    MissingIsNew(asked, after, less);
    var again := Missing(asked, after, less);
    assert Elems(again) == {};
    NoElems(again);
  }
}
