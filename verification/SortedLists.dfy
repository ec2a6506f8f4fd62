// Lists that are kept sorted and without duplicates, over any total order.
module SortedLists {

  ghost predicate TotalOrder<T(!new)>(less: (T, T) -> bool) {
    && (forall a, b :: less(a, b) ==> !less(b, a))
    && (forall a, b, c :: less(a, b) && less(b, c) ==> less(a, c))
    && (forall a, b :: less(a, b) || less(b, a) || a == b)
  }

  ghost predicate Strict<T(!new)>(s: seq<T>, less: (T, T) -> bool) {
    forall i, j :: 0 <= i < j < |s| ==> less(s[i], s[j])
  }

  function Elems<T(==)>(s: seq<T>): set<T> {
    set x | x in s
  }

  lemma NoElems<T>(s: seq<T>)
    ensures s != [] ==> Elems(s) != {}
  {
    if s != [] {
      assert s[0] in Elems(s);
    }
  }

  function Put<T(==)>(s: seq<T>, x: T, less: (T, T) -> bool): seq<T> {
    if s == [] || less(x, s[0]) then [x] + s
    else if x == s[0] then s
    else [s[0]] + Put(s[1..], x, less)
  }

  // Sorting and then dropping duplicates.
  function SortDedup<T(==)>(s: seq<T>, less: (T, T) -> bool): seq<T> {
    if s == [] then [] else Put(SortDedup(s[1..], less), s[0], less)
  }

  lemma {:induction false} PutElems<T(!new)>(s: seq<T>, x: T, less: (T, T) -> bool)
    ensures Elems(Put(s, x, less)) == Elems(s) + {x}
  {
    if s != [] && !less(x, s[0]) && x != s[0] {
      PutElems(s[1..], x, less);
      assert s == [s[0]] + s[1..];
      assert Elems(s) == {s[0]} + Elems(s[1..]);
      assert Elems(Put(s, x, less)) == {s[0]} + Elems(Put(s[1..], x, less));
    }
  }

  lemma {:induction false} PutStrict<T(!new)>(s: seq<T>, x: T, less: (T, T) -> bool)
    requires TotalOrder(less) && Strict(s, less)
    ensures Strict(Put(s, x, less), less)
  {
    if s != [] && less(x, s[0]) {
      forall j | 0 <= j < |s| ensures less(x, s[j]) {
        assert j > 0 ==> less(s[0], s[j]);
      }
    } else if s != [] && x != s[0] {
      PutStrict(s[1..], x, less);
      PutElems(s[1..], x, less);
      forall y | y in Put(s[1..], x, less) ensures less(s[0], y) {
        assert y in Elems(s[1..]) + {x};
      }
    }
  }

  lemma {:induction false} SortDedupSorts<T(!new)>(s: seq<T>, less: (T, T) -> bool)
    requires TotalOrder(less)
    ensures Strict(SortDedup(s, less), less) && Elems(SortDedup(s, less)) == Elems(s)
  {
    if s != [] {
      SortDedupSorts(s[1..], less);
      PutStrict(SortDedup(s[1..], less), s[0], less);
      PutElems(SortDedup(s[1..], less), s[0], less);
      assert s == [s[0]] + s[1..];
      assert Elems(s) == {s[0]} + Elems(s[1..]);
    }
  }

  // A set has one sorted listing.
  lemma {:induction false} StrictIsUnique<T(!new)>(s: seq<T>, t: seq<T>, less: (T, T) -> bool)
    requires TotalOrder(less) && Strict(s, less) && Strict(t, less) && Elems(s) == Elems(t)
    ensures s == t
  {
    if s == [] {
      NoElems(t);
    } else {
      assert s[0] in Elems(t);
      var a, b := s[0], t[0];
      var j :| 0 <= j < |t| && t[j] == s[0];
      assert t[0] in Elems(s);
      var i :| 0 <= i < |s| && s[i] == t[0];
      assert i == 0 || less(a, b);
      assert j == 0 || less(b, a);
      TailElems(s, less);
      TailElems(t, less);
      StrictIsUnique(s[1..], t[1..], less);
      assert s == [s[0]] + s[1..] && t == [t[0]] + t[1..];
    }
  }

  lemma TailElems<T(!new)>(s: seq<T>, less: (T, T) -> bool)
    requires TotalOrder(less) && Strict(s, less) && s != []
    ensures Elems(s[1..]) == Elems(s) - {s[0]}
  {
    assert s == [s[0]] + s[1..];
    assert forall k :: 1 <= k < |s| ==> less(s[0], s[k]);
  }

  function Without<T(==)>(s: seq<T>, drop: seq<T>): seq<T> {
    if s == [] then [] else (if s[0] in drop then [] else [s[0]]) + Without(s[1..], drop)
  }

  // What is left keeps its order and its number: one element is left or dropped
  // by itself, and what is left of two lists in a row is what is left of each.
  lemma {:induction false} WithoutInOrder<T>(s: seq<T>, t: seq<T>, x: T, drop: seq<T>)
    ensures Without([x], drop) == if x in drop then [] else [x]
    ensures Without(s + t, drop) == Without(s, drop) + Without(t, drop)
  {
    WithoutOne(x, [], drop);
    if s == [] {
      assert s + t == t;
    } else {
      var one, rest, more := Without([s[0]], drop), Without(s[1..], drop), Without(t, drop);
      WithoutInOrder(s[1..], t, x, drop);
      WithoutOne(s[0], s[1..] + t, drop);
      assert [s[0]] + (s[1..] + t) == s + t;
      WithoutOne(s[0], s[1..], drop);
      assert [s[0]] + s[1..] == s;
      assert one + (rest + more) == (one + rest) + more;
    }
  }

  lemma WithoutOne<T>(x: T, rest: seq<T>, drop: seq<T>)
    ensures Without([x] + rest, drop) == (if x in drop then [] else [x]) + Without(rest, drop)
    ensures Without([x], drop) == if x in drop then [] else [x]
  {
    assert ([x] + rest)[1..] == rest && [x][1..] == [];
  }

  lemma {:induction false} WithoutElems<T(!new)>(s: seq<T>, drop: seq<T>)
    ensures Elems(Without(s, drop)) == Elems(s) - Elems(drop)
  {
    if s != [] {
      WithoutElems(s[1..], drop);
      assert s == [s[0]] + s[1..];
      assert Elems(s) == {s[0]} + Elems(s[1..]);
      assert Elems(Without(s, drop)) == (if s[0] in drop then {} else {s[0]}) + Elems(Without(s[1..], drop));
    }
  }

  lemma {:induction false} WithoutStrict<T(!new)>(s: seq<T>, drop: seq<T>, less: (T, T) -> bool)
    requires Strict(s, less)
    ensures Strict(Without(s, drop), less)
  {
    if s != [] {
      WithoutStrict(s[1..], drop, less);
      WithoutElems(s[1..], drop);
      forall y | y in Without(s[1..], drop) ensures less(s[0], y) {
        assert y in Elems(Without(s[1..], drop));
      }
    }
  }

  // Adding what was missing and then taking exactly that away gives back the
  // list if and only if the list was sorted to begin with.
  lemma AddThenDrop<T(!new)>(s: seq<T>, added: seq<T>, less: (T, T) -> bool)
    requires TotalOrder(less) && forall x :: x in added ==> x !in s
    ensures Without(SortDedup(s + added, less), added) == SortDedup(s, less)
    ensures Without(SortDedup(s + added, less), added) == s <==> Strict(s, less)
  {
    SortDedupSorts(s + added, less);
    SortDedupSorts(s, less);
    WithoutElems(SortDedup(s + added, less), added);
    WithoutStrict(SortDedup(s + added, less), added, less);
    assert Elems(s + added) == Elems(s) + Elems(added);
    assert Elems(s) + Elems(added) - Elems(added) == Elems(s);
    StrictIsUnique(Without(SortDedup(s + added, less), added), SortDedup(s, less), less);
    if Strict(s, less) {
      StrictIsUnique(s, SortDedup(s, less), less);
    }
  }
}
