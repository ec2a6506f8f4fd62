// Parent pointers: cycles, ranks, and the pigeonhole argument that a nonempty
// set in which everyone has a parent in the set contains a cycle.
module Forest {

  // Each node that has a parent, with that parent.
  type Parents = map<string, string>

  function Next(path: seq<string>, i: nat): string
    requires i < |path|
  {
    if i + 1 < |path| then path[i + 1] else path[0]
  }

  ghost predicate Cycle(g: Parents, path: seq<string>) {
    |path| > 0 && forall i :: 0 <= i < |path| ==> path[i] in g && g[path[i]] == Next(path, i)
  }

  ghost predicate HasCycle(g: Parents) {
    exists path :: Cycle(g, path)
  }

  // A rank that drops from every node to its parent.
  ghost predicate Ranks(g: Parents, rank: map<string, nat>) {
    forall id :: id in g && g[id] in g ==> id in rank && g[id] in rank && rank[g[id]] < rank[id]
  }

  lemma {:induction false} RankFallsAlong(g: Parents, rank: map<string, nat>, path: seq<string>, i: nat)
    requires Ranks(g, rank) && Cycle(g, path) && i < |path|
    ensures path[0] in rank && path[i] in rank && rank[path[i]] <= rank[path[0]]
  {
    assert path[0] in g;
    assert g[path[0]] == Next(path, 0);
    if i > 0 {
      RankFallsAlong(g, rank, path, i - 1);
      assert g[path[i - 1]] == Next(path, i - 1) == path[i];
    }
  }

  lemma RankedHasNoCycle(g: Parents, rank: map<string, nat>)
    requires Ranks(g, rank)
    ensures !HasCycle(g)
  {
    forall path ensures !Cycle(g, path) {
      if Cycle(g, path) {
        var last := |path| - 1;
        assert g[path[last]] == Next(path, last) == path[0];
        assert path[0] in g;
        RankFallsAlong(g, rank, path, last);
      }
    }
  }

  ghost predicate Blocked(g: Parents, rest: set<string>) {
    forall id :: id in rest ==> id in g && g[id] in rest
  }

  ghost function Walk(g: Parents, rest: set<string>, x: string, n: nat): (w: seq<string>)
    requires Blocked(g, rest) && x in rest
    ensures |w| == n + 1 && w[0] == x
    ensures forall i :: 0 <= i < |w| ==> w[i] in rest
    ensures forall i :: 0 <= i < n ==> g[w[i]] == w[i + 1]
  {
    if n == 0 then [x]
    else
      var w := Walk(g, rest, x, n - 1);
      w + [g[w[n - 1]]]
  }

  lemma {:induction false} Pigeonhole(s: seq<string>, holes: set<string>)
    requires forall i :: 0 <= i < |s| ==> s[i] in holes
    requires |s| > |holes|
    ensures exists i, j :: 0 <= i < j < |s| && s[i] == s[j]
  {
    var last := s[|s| - 1];
    var init := s[..|s| - 1];
    if i :| 0 <= i < |init| && init[i] == last {
      assert s[i] == s[|s| - 1];
    } else {
      assert forall i :: 0 <= i < |init| ==> init[i] in holes - {last};
      Pigeonhole(init, holes - {last});
      var i, j :| 0 <= i < j < |init| && init[i] == init[j];
      assert s[i] == s[j];
    }
  }

  lemma BlockedSetHasCycle(g: Parents, rest: set<string>)
    requires Blocked(g, rest) && rest != {}
    ensures HasCycle(g)
  {
    var x :| x in rest;
    var w := Walk(g, rest, x, |rest|);
    Pigeonhole(w, rest);
    var i, j :| 0 <= i < j < |w| && w[i] == w[j];
    assert Chain(g, w);
    RepeatClosesCycle(g, w, i, j);
  }

  // A node nobody points at can be given a parent without closing a cycle.
  lemma NewLeafClosesNoCycle(g: Parents, id: string, parent: string)
    requires !HasCycle(g) && id !in g && parent != id
    requires forall x :: x in g ==> g[x] != id
    ensures !HasCycle(g[id := parent])
  {
    var g' := g[id := parent];
    forall path | Cycle(g', path) ensures false {
      CycleAvoidsLeaf(g', path, id);
      forall i | 0 <= i < |path| ensures path[i] in g && g[path[i]] == Next(path, i) {
        assert path[i] in g';
      }
      assert Cycle(g, path);
    }
  }

  lemma CycleAvoidsLeaf(g: Parents, path: seq<string>, id: string)
    requires Cycle(g, path) && forall x :: x in g ==> g[x] != id
    ensures forall i :: 0 <= i < |path| ==> path[i] != id
  {
    forall i | 0 <= i < |path| ensures path[i] != id {
      var before := if i == 0 then |path| - 1 else i - 1;
      assert g[path[before]] == Next(path, before) == path[i];
    }
  }

  lemma SubgraphHasNoCycle(g: Parents, h: Parents)
    requires !HasCycle(h)
    requires forall x :: x in g ==> x in h && h[x] == g[x]
    ensures !HasCycle(g)
  {
    forall path ensures !Cycle(g, path) {
      if Cycle(g, path) {
        assert Cycle(h, path);
      }
    }
  }

  // A walk along parents.
  ghost predicate Chain(g: Parents, path: seq<string>) {
    |path| > 0 && forall i :: 0 <= i < |path| - 1 ==> path[i] in g && g[path[i]] == path[i + 1]
  }

  lemma RepeatClosesCycle(g: Parents, path: seq<string>, i: nat, j: nat)
    requires Chain(g, path) && i < j < |path| && path[i] == path[j]
    ensures HasCycle(g)
  {
    var loop := path[i..j];
    forall k | 0 <= k < |loop| ensures loop[k] in g && g[loop[k]] == Next(loop, k) {
      assert loop[k] == path[i + k];
    }
    assert Cycle(g, loop);
  }

  lemma ChainIsShort(g: Parents, path: seq<string>)
    requires !HasCycle(g) && Chain(g, path) && path[|path| - 1] in g
    ensures |path| <= |g|
  {
    if |path| > |g| {
      Pigeonhole(path, g.Keys);
      var i, j :| 0 <= i < j < |path| && path[i] == path[j];
      RepeatClosesCycle(g, path, i, j);
    }
  }

  // Without cycles every walk can be continued to a node that has no parent.
  lemma {:induction false} ChainReachesRoot(g: Parents, path: seq<string>) returns (whole: seq<string>)
    requires !HasCycle(g) && Chain(g, path)
    ensures Chain(g, whole) && path <= whole && whole[|whole| - 1] !in g
    decreases if path[|path| - 1] in g then |g| + 1 - |path| else 0
  {
    var last := path[|path| - 1];
    if last !in g {
      whole := path;
    } else {
      ChainIsShort(g, path);
      if g[last] in g {
        ChainIsShort(g, path + [g[last]]);
      }
      whole := ChainReachesRoot(g, path + [g[last]]);
    }
  }

  // ----- counting -----

  lemma {:induction false} DistinctCountsOnce<T>(s: seq<T>, x: T)
    requires forall i, j :: 0 <= i < j < |s| ==> s[i] != s[j]
    ensures multiset(s)[x] <= 1
  {
    if |s| > 0 {
      var init := s[..|s| - 1];
      assert s == init + [s[|s| - 1]];
      DistinctCountsOnce(init, x);
      if x == s[|s| - 1] {
        assert x !in init;
        assert x !in multiset(init);
      }
    }
  }

  lemma RepeatCountsTwice<T>(s: seq<T>, i: nat, j: nat)
    requires i < j < |s| && s[i] == s[j]
    ensures multiset(s)[s[i]] >= 2
  {
    var rest := s[..i] + s[i + 1..];
    assert s == s[..i] + [s[i]] + s[i + 1..];
    assert rest[j - 1] == s[j];
    assert s[j] in multiset(rest);
    assert multiset(s) == multiset(rest) + multiset{s[i]};
  }

  // Listing a set without repetition takes as many entries as it has elements.
  lemma {:induction false} DistinctSize<T>(ids: seq<T>, s: set<T>)
    requires forall i, j :: 0 <= i < j < |ids| ==> ids[i] != ids[j]
    requires forall x :: x in ids <==> x in s
    ensures |ids| == |s|
  {
    if |ids| == 0 {
      assert s == {};
    } else {
      var last := ids[|ids| - 1];
      var init := ids[..|ids| - 1];
      assert ids == init + [last];
      DistinctSize(init, s - {last});
    }
  }
}
