/** sort.Slice of Go's standard library. */
module Sorting {

  /** What the comparison must be: a strict weak order. */
  ghost predicate WeakOrder<T(!new)>(less: (T, T) -> bool) {
    && (forall a, b :: less(a, b) ==> !less(b, a))
    && (forall a, b, c :: !less(a, b) && !less(b, c) ==> !less(a, c))
  }

  ghost predicate Sorted<T(!new)>(xs: seq<T>, less: (T, T) -> bool) {
    forall i, j :: 0 <= i < j < |xs| ==> !less(xs[j], xs[i])
  }

  /** Where `x` goes. */
  function Slot<T(!new)>(xs: seq<T>, less: (T, T) -> bool, x: T): (at: nat)
    ensures at <= |xs|
    ensures at > 0 ==> !less(x, xs[at - 1])
    ensures forall k :: at <= k < |xs| ==> less(x, xs[k])
  {
    if xs == [] || !less(x, xs[|xs| - 1]) then |xs| else Slot(xs[..|xs| - 1], less, x)
  }

  function Insert<T(!new)>(xs: seq<T>, less: (T, T) -> bool, x: T): seq<T> {
    var at := Slot(xs, less, x);
    xs[..at] + [x] + xs[at..]
  }

  lemma {:induction false} InsertSorts<T(!new)>(xs: seq<T>, less: (T, T) -> bool, x: T)
    requires WeakOrder(less) && Sorted(xs, less)
    ensures Sorted(Insert(xs, less, x), less)
  {
    var at := Slot(xs, less, x);
    forall k | 0 <= k < at
      ensures !less(x, xs[k])
    {
      assert k < at - 1 ==> !less(xs[at - 1], xs[k]);
    }
  }

  lemma {:induction false} InsertAdds<T(!new)>(xs: seq<T>, less: (T, T) -> bool, x: T)
    ensures multiset(Insert(xs, less, x)) == multiset(xs) + multiset{x}
  {
    var at := Slot(xs, less, x);
    assert xs == xs[..at] + xs[at..];
  }

  /** Some sorted permutation; callers know no more of it. */
  method SortSlice<T(!new)>(xs: seq<T>, less: (T, T) -> bool) returns (sorted: seq<T>)
    requires WeakOrder(less)
    ensures multiset(sorted) == multiset(xs) && Sorted(sorted, less)
  {
    sorted := [];
    for next := 0 to |xs|
      invariant multiset(sorted) == multiset(xs[..next]) && Sorted(sorted, less)
    {
      InsertSorts(sorted, less, xs[next]);
      InsertAdds(sorted, less, xs[next]);
      assert xs[..next + 1] == xs[..next] + [xs[next]];
      sorted := Insert(sorted, less, xs[next]);
    }
    assert xs[..|xs|] == xs;
  }
}
