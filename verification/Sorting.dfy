/**
  Stable sorting over a total preorder, the way Python's `sorted` and SQL's `ORDER BY` are used
  throughout the repository.  A stable sort is characterised without reference to an algorithm: the
  result is sorted, and every class of equivalent elements keeps its original order.
*/
module Sorting {

  ghost predicate TotalPreorder<T(!new)>(le: (T, T) -> bool) {
    && (forall x, y :: le(x, y) || le(y, x))
    && (forall x, y, z :: le(x, y) && le(y, z) ==> le(x, z))
  }

  predicate Equivalent<T>(le: (T, T) -> bool, x: T, y: T) {
    le(x, y) && le(y, x)
  }

  ghost predicate SortedBy<T>(le: (T, T) -> bool, xs: seq<T>) {
    forall i, j :: 0 <= i < j < |xs| ==> le(xs[i], xs[j])
  }

  function Filter<T(!new)>(p: T -> bool, xs: seq<T>): (r: seq<T>)
    ensures forall x :: x in r <==> x in xs && p(x)
    ensures |r| <= |xs|
  {
    if xs == [] then [] else (if p(xs[0]) then [xs[0]] else []) + Filter(p, xs[1..])
  }

  /** The elements equivalent to `z`, in the order they occur. */
  ghost function Class<T(!new)>(le: (T, T) -> bool, z: T, xs: seq<T>): seq<T> {
    Filter((x: T) => Equivalent(le, x, z), xs)
  }

  /** `ys` is the stable sort of `xs`. */
  ghost predicate StablySorts<T(!new)>(le: (T, T) -> bool, xs: seq<T>, ys: seq<T>) {
    SortedBy(le, ys) && forall z :: Class(le, z, ys) == Class(le, z, xs)
  }

  function Insert<T>(le: (T, T) -> bool, x: T, ys: seq<T>): (r: seq<T>)
    ensures multiset(r) == multiset(ys) + multiset{x}
    ensures |r| == |ys| + 1
  {
    if ys == [] || le(x, ys[0]) then [x] + ys
    else
      assert ys == [ys[0]] + ys[1..];
      [ys[0]] + Insert(le, x, ys[1..])
  }

  function StableSort<T>(le: (T, T) -> bool, xs: seq<T>): (r: seq<T>)
    ensures multiset(r) == multiset(xs)
    ensures |r| == |xs|
  {
    if xs == [] then [] else
      assert xs == [xs[0]] + xs[1..];
      Insert(le, xs[0], StableSort(le, xs[1..]))
  }

  lemma {:induction false} FilterConcat<T(!new)>(p: T -> bool, xs: seq<T>, ys: seq<T>)
    ensures Filter(p, xs + ys) == Filter(p, xs) + Filter(p, ys)
  {
    if xs == [] {
      assert xs + ys == ys;
    } else {
      assert xs + ys == [xs[0]] + (xs[1..] + ys);
      FilterConcat(p, xs[1..], ys);
    }
  }

  lemma {:induction false} FilterAnd<T(!new)>(p: T -> bool, q: T -> bool, r: T -> bool, xs: seq<T>)
    requires forall x :: x in xs ==> (r(x) <==> p(x) && q(x))
    ensures Filter(p, Filter(q, xs)) == Filter(r, xs)
  {
    if xs != [] {
      FilterAnd(p, q, r, xs[1..]);
      FilterConcat(p, if q(xs[0]) then [xs[0]] else [], Filter(q, xs[1..]));
    }
  }

  lemma {:induction false} FilterCongruent<T(!new)>(p: T -> bool, q: T -> bool, xs: seq<T>)
    requires forall x :: x in xs ==> (p(x) <==> q(x))
    ensures Filter(p, xs) == Filter(q, xs)
  {
    if xs != [] {
      FilterCongruent(p, q, xs[1..]);
    }
  }

  lemma {:induction false} FilterAll<T(!new)>(p: T -> bool, xs: seq<T>)
    requires forall x :: x in xs ==> p(x)
    ensures Filter(p, xs) == xs
  {
    if xs != [] {
      FilterAll(p, xs[1..]);
      assert xs == [xs[0]] + xs[1..];
    }
  }

  lemma {:induction false} InsertSorted<T(!new)>(le: (T, T) -> bool, x: T, ys: seq<T>)
    requires TotalPreorder(le) && SortedBy(le, ys)
    ensures SortedBy(le, Insert(le, x, ys))
  {
    if ys != [] && !le(x, ys[0]) {
      assert SortedBy(le, ys[1..]);
      InsertSorted(le, x, ys[1..]);
      var tail := Insert(le, x, ys[1..]);
      forall y | y in tail ensures le(ys[0], y) {
        assert y in multiset(tail);
        assert y == x || y in ys[1..];
      }
    } else if ys != [] {
      forall j | 0 <= j < |ys| ensures le(x, ys[j]) {
        assert j == 0 || le(ys[0], ys[j]);
      }
    }
  }

  lemma {:induction false} InsertKeepsClasses<T(!new)>(le: (T, T) -> bool, x: T, ys: seq<T>, z: T)
    requires TotalPreorder(le) && SortedBy(le, ys)
    ensures Class(le, z, Insert(le, x, ys)) == Class(le, z, [x] + ys)
  {
    if ys != [] && !le(x, ys[0]) {
      var p := (y: T) => Equivalent(le, y, z);
      InsertKeepsClasses(le, x, ys[1..], z);
      FilterConcat(p, [ys[0]], Insert(le, x, ys[1..]));
      FilterConcat(p, [x], ys);
      FilterConcat(p, [ys[0]], ys[1..]);
      FilterConcat(p, [x], ys[1..]);
      assert ys == [ys[0]] + ys[1..];
      // x is strictly after ys[0], so at most one of the two is equivalent to z.
      assert !(p(x) && p(ys[0]));
    }
  }

  /** The insertion sort is a stable sort. */
  lemma {:induction false} StableSortIsStable<T(!new)>(le: (T, T) -> bool, xs: seq<T>)
    requires TotalPreorder(le)
    ensures StablySorts(le, xs, StableSort(le, xs))
  {
    if xs != [] {
      var tail := StableSort(le, xs[1..]);
      StableSortIsStable(le, xs[1..]);
      InsertSorted(le, xs[0], tail);
      forall z ensures Class(le, z, StableSort(le, xs)) == Class(le, z, xs) {
        InsertKeepsClasses(le, xs[0], tail, z);
        var p := (y: T) => Equivalent(le, y, z);
        FilterConcat(p, [xs[0]], tail);
        FilterConcat(p, [xs[0]], xs[1..]);
        assert Class(le, z, tail) == Class(le, z, xs[1..]);
        assert xs == [xs[0]] + xs[1..];
      }
    }
  }

  /** Sortedness and the order inside each class determine the sequence: a stable sort is unique. */
  lemma {:induction false} StableSortUnique<T(!new)>(le: (T, T) -> bool, xs: seq<T>, ys: seq<T>, zs: seq<T>)
    requires TotalPreorder(le)
    requires StablySorts(le, xs, ys) && StablySorts(le, xs, zs)
    ensures ys == zs
  {
    SameClassesSameSequence(le, ys, zs);
  }

  lemma {:induction false} SameClassesSameSequence<T(!new)>(le: (T, T) -> bool, ys: seq<T>, zs: seq<T>)
    requires TotalPreorder(le)
    requires SortedBy(le, ys) && SortedBy(le, zs)
    requires forall z :: Class(le, z, ys) == Class(le, z, zs)
    ensures ys == zs
  {
    HeadClassNonEmpty(le, ys);
    HeadClassNonEmpty(le, zs);
    if ys != [] {
      var y := ys[0];
      assert Class(le, y, ys) == Class(le, y, zs);
      assert zs != [];
      assert y in Class(le, y, ys);
      assert y in Class(le, y, zs);
      var z := zs[0];
      assert z in Class(le, z, zs);
      assert z in Class(le, z, ys);
      // Each head is below the other, so the heads are equivalent and head the same class.
      HeadIsLeast(le, ys, z);
      HeadIsLeast(le, zs, y);
      assert Class(le, y, ys)[0] == y;
      assert Class(le, y, zs)[0] == z;
      forall w ensures Class(le, w, ys[1..]) == Class(le, w, zs[1..]) {
        assert Class(le, w, ys) == Class(le, w, zs);
        var p := (x: T) => Equivalent(le, x, w);
        if p(y) {
          assert Class(le, w, ys)[1..] == Class(le, w, ys[1..]);
          assert Class(le, w, zs)[1..] == Class(le, w, zs[1..]);
        } else {
          assert Class(le, w, ys) == Class(le, w, ys[1..]);
          assert Class(le, w, zs) == Class(le, w, zs[1..]);
        }
      }
      SameClassesSameSequence(le, ys[1..], zs[1..]);
      assert ys == [ys[0]] + ys[1..];
      assert zs == [zs[0]] + zs[1..];
    }
  }

  lemma HeadClassNonEmpty<T(!new)>(le: (T, T) -> bool, ys: seq<T>)
    requires TotalPreorder(le)
    ensures ys != [] ==> Class(le, ys[0], ys) != []
  {
  }

  lemma HeadIsLeast<T(!new)>(le: (T, T) -> bool, ys: seq<T>, y: T)
    requires TotalPreorder(le) && SortedBy(le, ys) && y in ys
    ensures le(ys[0], y)
  {
  }

  /** No two different members of `xs` are equivalent. */
  ghost predicate Strict<T>(le: (T, T) -> bool, xs: seq<T>) {
    forall i, j :: 0 <= i < |xs| && 0 <= j < |xs| && Equivalent(le, xs[i], xs[j]) ==> xs[i] == xs[j]
  }

  /** Two sorted permutations of each other agree when the order is antisymmetric on them. */
  lemma {:induction false} SortedPermutationUnique<T(!new)>(le: (T, T) -> bool, ys: seq<T>, zs: seq<T>)
    requires TotalPreorder(le)
    requires SortedBy(le, ys) && SortedBy(le, zs)
    requires multiset(ys) == multiset(zs)
    requires Strict(le, ys)
    ensures ys == zs
  {
    assert |ys| == |multiset(ys)| == |multiset(zs)| == |zs|;
    if ys != [] {
      SamePermutationSameHead(le, ys, zs);
      assert ys == [ys[0]] + ys[1..] && zs == [zs[0]] + zs[1..];
      TailSortedStrict(le, ys);
      assert SortedBy(le, zs[1..]);
      assert multiset(ys[1..]) == multiset(ys) - multiset{ys[0]};
      assert multiset(zs[1..]) == multiset(zs) - multiset{zs[0]};
      SortedPermutationUnique(le, ys[1..], zs[1..]);
    }
  }

  lemma TailSortedStrict<T(!new)>(le: (T, T) -> bool, ys: seq<T>)
    requires ys != [] && SortedBy(le, ys) && Strict(le, ys)
    ensures SortedBy(le, ys[1..]) && Strict(le, ys[1..])
  {
  }

  lemma SamePermutationSameHead<T(!new)>(le: (T, T) -> bool, ys: seq<T>, zs: seq<T>)
    requires TotalPreorder(le)
    requires SortedBy(le, ys) && SortedBy(le, zs)
    requires multiset(ys) == multiset(zs)
    requires Strict(le, ys)
    requires ys != [] && zs != []
    ensures ys[0] == zs[0]
  {
    assert ys[0] in multiset(zs) && zs[0] in multiset(ys);
    HeadIsLeast(le, ys, zs[0]);
    HeadIsLeast(le, zs, ys[0]);
    var i :| 0 <= i < |ys| && ys[i] == zs[0];
    assert Equivalent(le, ys[0], ys[i]);
  }
}
