/** Sorting by several keys: one lexicographic stable sort, or one stable sort per key, last key first. */
module Lexicographic {
  import opened Sorting

  /** The sign that asks for a descending order. */
  const DESCENDING_PREFIX := "-"

  /** Order by `first`, and by `second` where `first` does not decide. */
  function Lex<T>(first: (T, T) -> bool, second: (T, T) -> bool): (T, T) -> bool {
    (x, y) => first(x, y) && (!first(y, x) || second(x, y))
  }

  /** Descending. */
  function Flip<T>(le: (T, T) -> bool): (T, T) -> bool {
    (x, y) => le(y, x)
  }

  function Reversed<T>(xs: seq<T>): (r: seq<T>)
    ensures |r| == |xs|
    ensures forall i :: 0 <= i < |xs| ==> r[i] == xs[|xs| - 1 - i]
  {
    seq(|xs|, i requires 0 <= i < |xs| => xs[|xs| - 1 - i])
  }

  /** `list.sort(key=..., reverse=...)`: reversing keeps equal elements in their original order. */
  function PythonSorted<T>(le: (T, T) -> bool, xs: seq<T>, reverse: bool): seq<T> {
    if reverse then Reversed(StableSort(le, Reversed(xs))) else StableSort(le, xs)
  }

  lemma LexOrder<T(!new)>(first: (T, T) -> bool, second: (T, T) -> bool)
    requires TotalPreorder(first) && TotalPreorder(second)
    ensures TotalPreorder(Lex(first, second))
  {
  }

  lemma FlipOrder<T(!new)>(le: (T, T) -> bool)
    requires TotalPreorder(le)
    ensures TotalPreorder(Flip(le))
  {
  }

  // --- Two passes --------------------------------------------------------------------------------

  lemma {:induction false} FilterKeepsSorted<T(!new)>(le: (T, T) -> bool, p: T -> bool, xs: seq<T>)
    requires SortedBy(le, xs)
    ensures SortedBy(le, Filter(p, xs))
  {
    if xs != [] {
      assert SortedBy(le, xs[1..]);
      FilterKeepsSorted(le, p, xs[1..]);
      forall y | y in xs[1..] ensures le(xs[0], y) {
        var i :| 0 < i < |xs| && xs[i] == y;
      }
    }
  }

  /** Two members that pass the filter keep their order in what is filtered. */
  lemma {:induction false} FilteredPairOrdered<T(!new)>(le: (T, T) -> bool, p: T -> bool, xs: seq<T>, i: nat, j: nat)
    requires SortedBy(le, Filter(p, xs)) && i < j < |xs| && p(xs[i]) && p(xs[j])
    ensures le(xs[i], xs[j])
    decreases |xs|
  {
    var tail := Filter(p, xs[1..]);
    if i > 0 {
      TailOfFilter(le, p, xs);
      FilteredPairOrdered(le, p, xs[1..], i - 1, j - 1);
      assert xs[1..][i - 1] == xs[i] && xs[1..][j - 1] == xs[j];
    } else {
      assert xs[j] == xs[1..][j - 1];
      assert xs[j] in tail && Filter(p, xs) == [xs[0]] + tail;
      var k :| 0 <= k < |tail| && tail[k] == xs[j];
      assert Filter(p, xs)[0] == xs[0] && Filter(p, xs)[k + 1] == xs[j];
      assert le(Filter(p, xs)[0], Filter(p, xs)[k + 1]);
    }
  }

  lemma TailOfFilter<T(!new)>(le: (T, T) -> bool, p: T -> bool, xs: seq<T>)
    requires xs != [] && SortedBy(le, Filter(p, xs))
    ensures SortedBy(le, Filter(p, xs[1..]))
  {
    var all, tail := Filter(p, xs), Filter(p, xs[1..]);
    forall i, j | 0 <= i < j < |tail| ensures le(tail[i], tail[j]) {
      assert all == (if p(xs[0]) then [xs[0]] else []) + tail;
      var o := if p(xs[0]) then 1 else 0;
      assert all[i + o] == tail[i] && all[j + o] == tail[j];
    }
  }

  lemma SecondPassSorted<T(!new)>(first: (T, T) -> bool, second: (T, T) -> bool, ys: seq<T>, zs: seq<T>)
    requires TotalPreorder(first) && TotalPreorder(second)
    requires SortedBy(second, ys) && StablySorts(first, ys, zs)
    ensures SortedBy(Lex(first, second), zs)
  {
    forall i, j | 0 <= i < j < |zs| ensures Lex(first, second)(zs[i], zs[j]) {
      assert first(zs[i], zs[j]);
      if first(zs[j], zs[i]) {
        var p := (x: T) => Equivalent(first, x, zs[j]);
        assert first(zs[j], zs[j]);
        assert Class(first, zs[j], zs) == Class(first, zs[j], ys);
        FilterKeepsSorted(second, p, ys);
        FilteredPairOrdered(second, p, zs, i, j);
      }
    }
  }

  lemma LexClass<T(!new)>(first: (T, T) -> bool, second: (T, T) -> bool, z: T, xs: seq<T>)
    requires TotalPreorder(first) && TotalPreorder(second)
    ensures Class(Lex(first, second), z, xs) == Class(second, z, Class(first, z, xs))
    ensures Class(Lex(first, second), z, xs) == Class(first, z, Class(second, z, xs))
  {
    var p, q := (x: T) => Equivalent(first, x, z), (x: T) => Equivalent(second, x, z);
    var r := (x: T) => Equivalent(Lex(first, second), x, z);
    forall x ensures r(x) <==> p(x) && q(x) {
      assert first(x, z) || first(z, x);
    }
    FilterAnd(q, p, r, xs);
    FilterAnd(p, q, r, xs);
  }

  /** Sorting by the tie-breaker first and by the main key second is one lexicographic stable sort. */
  lemma TwoPassesAreOne<T(!new)>(first: (T, T) -> bool, second: (T, T) -> bool, xs: seq<T>)
    requires TotalPreorder(first) && TotalPreorder(second)
    ensures StableSort(first, StableSort(second, xs)) == StableSort(Lex(first, second), xs)
  {
    var ys := StableSort(second, xs);
    var zs := StableSort(first, ys);
    StableSortIsStable(second, xs);
    StableSortIsStable(first, ys);
    SecondPassSorted(first, second, ys, zs);
    forall z ensures Class(Lex(first, second), z, zs) == Class(Lex(first, second), z, xs) {
      LexClass(first, second, z, zs);
      LexClass(first, second, z, ys);
      LexClass(first, second, z, xs);
      assert Class(first, z, zs) == Class(first, z, ys);
      assert Class(second, z, ys) == Class(second, z, xs);
    }
    LexOrder(first, second);
    StableSortIsStable(Lex(first, second), xs);
    StableSortUnique(Lex(first, second), xs, zs, StableSort(Lex(first, second), xs));
  }

  // --- Descending -------------------------------------------------------------------------------

  lemma {:induction false} FilterReversed<T(!new)>(p: T -> bool, xs: seq<T>)
    ensures Filter(p, Reversed(xs)) == Reversed(Filter(p, xs))
  {
    if xs == [] {
      assert Reversed(xs) == [];
    } else {
      ReversedHead(xs[0], xs[1..]);
      assert xs == [xs[0]] + xs[1..];
      FilterReversed(p, xs[1..]);
      FilterConcat(p, Reversed(xs[1..]), [xs[0]]);
      FilterOne(p, xs[0]);
      ReversedHead(xs[0], Filter(p, xs[1..]));
    }
  }

  lemma ReversedHead<T>(x: T, xs: seq<T>)
    ensures Reversed([x] + xs) == Reversed(xs) + [x]
  {
  }

  lemma FilterOne<T(!new)>(p: T -> bool, x: T)
    ensures Filter(p, [x]) == if p(x) then [x] else []
  {
    assert [x][1..] == [] && Filter(p, []) == [];
  }

  lemma ReversedTwice<T>(xs: seq<T>)
    ensures Reversed(Reversed(xs)) == xs
  {
  }

  /** `reverse=True` sorts in descending order and keeps equal elements as they were. */
  lemma ReverseIsDescending<T(!new)>(le: (T, T) -> bool, xs: seq<T>)
    requires TotalPreorder(le)
    ensures PythonSorted(le, xs, true) == StableSort(Flip(le), xs)
  {
    var back := Reversed(xs);
    var ys := StableSort(le, back);
    var zs := Reversed(ys);
    StableSortIsStable(le, back);
    assert SortedBy(Flip(le), zs);
    forall z ensures Class(Flip(le), z, zs) == Class(Flip(le), z, xs) {
      var p := (x: T) => Equivalent(le, x, z);
      var q := (x: T) => Equivalent(Flip(le), x, z);
      FilterReversed(p, ys);
      FilterReversed(p, back);
      ReversedTwice(xs);
      assert Class(le, z, ys) == Class(le, z, back);
      FilterCongruent(q, p, zs);
      FilterCongruent(q, p, xs);
    }
    FlipOrder(le);
    StableSortIsStable(Flip(le), xs);
    StableSortUnique(Flip(le), xs, zs, StableSort(Flip(le), xs));
  }
}
