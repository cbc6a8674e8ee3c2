/** Sequences under a filter, and sums over them. */
module Filters {

  ghost function Sum<T>(s: seq<T>, f: T -> nat): nat {
    if s == [] then 0 else f(s[0]) + Sum(s[1..], f)
  }

  lemma {:induction false} SumSplit<T>(a: seq<T>, b: seq<T>, f: T -> nat)
    ensures Sum(a + b, f) == Sum(a, f) + Sum(b, f)
  {
    if a == [] {
      assert a + b == b;
    } else {
      SumSplit(a[1..], b, f);
      assert (a + b)[1..] == a[1..] + b;
    }
  }

  lemma SumOne<T>(x: T, f: T -> nat)
    ensures Sum([x], f) == f(x)
  {
    assert [x][1..] == [];
  }

  function Filter<T>(s: seq<T>, keep: T -> bool): (r: seq<T>)
    ensures |r| <= |s|
  {
    if s == [] then [] else (if keep(s[0]) then [s[0]] else []) + Filter(s[1..], keep)
  }

  lemma Assoc<T>(a: seq<T>, b: seq<T>, c: seq<T>)
    ensures a + (b + c) == a + b + c
  {}

  lemma FilterFirst<T>(x: T, s: seq<T>, keep: T -> bool)
    ensures Filter([x] + s, keep) == (if keep(x) then [x] else []) + Filter(s, keep)
  {
    assert ([x] + s)[1..] == s;
  }

  lemma {:induction false} FilterSplit<T>(a: seq<T>, b: seq<T>, keep: T -> bool)
    ensures Filter(a + b, keep) == Filter(a, keep) + Filter(b, keep)
  {
    if a == [] {
      assert a + b == b;
    } else {
      var kept := if keep(a[0]) then [a[0]] else [];
      FilterSplit(a[1..], b, keep);
      assert a + b == [a[0]] + (a[1..] + b);
      FilterFirst(a[0], a[1..] + b, keep);
      Assoc(kept, Filter(a[1..], keep), Filter(b, keep));
    }
  }

  lemma {:induction false} FilterMembers<T(!new)>(s: seq<T>, keep: T -> bool)
    ensures forall x :: x in Filter(s, keep) <==> x in s && keep(x)
  {
    if s != [] {
      FilterMembers(s[1..], keep);
      assert s == [s[0]] + s[1..];
    }
  }

  lemma {:induction false} FilterAll<T>(s: seq<T>, keep: T -> bool)
    requires forall x :: x in s ==> keep(x)
    ensures Filter(s, keep) == s
  {
    if s != [] { FilterAll(s[1..], keep); }
  }

  lemma {:induction false} FilterNone<T>(s: seq<T>, keep: T -> bool)
    requires forall x :: x in s ==> !keep(x)
    ensures Filter(s, keep) == []
  {
    if s != [] { FilterNone(s[1..], keep); }
  }

  lemma SplitAround<T>(s: seq<T>, i: nat)
    requires i < |s|
    ensures s == s[..i] + ([s[i]] + s[i + 1..])
  {}

  /** Filtering around one element. */
  lemma FilterAround<T>(s: seq<T>, i: nat, keep: T -> bool)
    requires i < |s|
    ensures Filter(s, keep) == Filter(s[..i], keep) + (if keep(s[i]) then [s[i]] else []) + Filter(s[i + 1..], keep)
  {
    SplitAround(s, i);
    FilterSplit(s[..i], [s[i]] + s[i + 1..], keep);
    FilterFirst(s[i], s[i + 1..], keep);
    Assoc(Filter(s[..i], keep), if keep(s[i]) then [s[i]] else [], Filter(s[i + 1..], keep));
  }

  /** An element the filter drops can be taken out first. */
  lemma FilterOut<T>(s: seq<T>, i: nat, keep: T -> bool)
    requires i < |s| && !keep(s[i])
    ensures Filter(s, keep) == Filter(s[..i] + s[i + 1..], keep)
  {
    FilterAround(s, i, keep);
    FilterSplit(s[..i], s[i + 1..], keep);
    assert Filter(s[..i], keep) + [] == Filter(s[..i], keep);
  }
}

/**
 Go's sort.SliceStable as a function: the one rearrangement of a sequence that
 is sorted and keeps equivalent elements in their incoming order.
 */
module Sorting {
  import opened Filters

  ghost predicate StrictWeak<T(!new)>(less: (T, T) -> bool) {
    && (forall x :: !less(x, x))
    && (forall x, y, z :: less(x, y) && less(y, z) ==> less(x, z))
    && (forall x, y, z :: less(x, z) ==> less(x, y) || less(y, z))
  }

  ghost predicate Sorted<T>(s: seq<T>, less: (T, T) -> bool) {
    forall i, j :: 0 <= i < j < |s| ==> !less(s[j], s[i])
  }

  function Insert<T>(x: T, s: seq<T>, less: (T, T) -> bool): (r: seq<T>)
    ensures |r| == |s| + 1
  {
    if s == [] || !less(s[0], x) then [x] + s else [s[0]] + Insert(x, s[1..], less)
  }

  function StableSort<T>(s: seq<T>, less: (T, T) -> bool): (r: seq<T>)
    ensures |r| == |s|
  {
    if s == [] then [] else Insert(s[0], StableSort(s[1..], less), less)
  }

  lemma {:induction false} InsertBag<T>(x: T, s: seq<T>, less: (T, T) -> bool)
    ensures multiset(Insert(x, s, less)) == multiset{x} + multiset(s)
  {
    if s != [] && less(s[0], x) {
      InsertBag(x, s[1..], less);
      assert s == [s[0]] + s[1..];
    }
  }

  lemma {:induction false} SortKeepsElements<T>(s: seq<T>, less: (T, T) -> bool)
    ensures multiset(StableSort(s, less)) == multiset(s)
  {
    if s != [] {
      SortKeepsElements(s[1..], less);
      InsertBag(s[0], StableSort(s[1..], less), less);
      assert s == [s[0]] + s[1..];
    }
  }

  lemma {:induction false} InsertSum<T>(x: T, s: seq<T>, less: (T, T) -> bool, f: T -> nat)
    ensures Sum(Insert(x, s, less), f) == f(x) + Sum(s, f)
  {
    if s != [] && less(s[0], x) {
      InsertSum(x, s[1..], less, f);
      assert Insert(x, s, less)[1..] == Insert(x, s[1..], less);
    } else {
      assert ([x] + s)[1..] == s;
    }
  }

  lemma {:induction false} SortKeepsSum<T>(s: seq<T>, less: (T, T) -> bool, f: T -> nat)
    ensures Sum(StableSort(s, less), f) == Sum(s, f)
  {
    if s != [] {
      SortKeepsSum(s[1..], less, f);
      InsertSum(s[0], StableSort(s[1..], less), less, f);
    }
  }

  lemma {:induction false} InsertSorted<T(!new)>(x: T, s: seq<T>, less: (T, T) -> bool)
    requires StrictWeak(less) && Sorted(s, less)
    ensures Sorted(Insert(x, s, less), less)
  {
    if s != [] && less(s[0], x) {
      InsertSorted(x, s[1..], less);
      InsertBag(x, s[1..], less);
      var r := Insert(x, s[1..], less);
      forall j | 0 <= j < |r| ensures !less(r[j], s[0]) {
        assert r[j] in multiset(r);
      }
    }
  }

  lemma {:induction false} SortSorts<T(!new)>(s: seq<T>, less: (T, T) -> bool)
    requires StrictWeak(less)
    ensures Sorted(StableSort(s, less), less)
  {
    if s != [] {
      SortSorts(s[1..], less);
      InsertSorted(s[0], StableSort(s[1..], less), less);
    }
  }

  /** Holds of what `less` does not tell apart from x. */
  function TiesWith<T>(x: T, less: (T, T) -> bool): T -> bool {
    y => !less(y, x) && !less(x, y)
  }

  lemma {:induction false} InsertTies<T(!new)>(y: T, s: seq<T>, x: T, less: (T, T) -> bool)
    requires StrictWeak(less)
    ensures Filter(Insert(y, s, less), TiesWith(x, less)) == Filter([y] + s, TiesWith(x, less))
  {
    assert ([y] + s)[1..] == s;
    if s != [] && less(s[0], y) {
      InsertTies(y, s[1..], x, less);
      assert ([y] + s[1..])[1..] == s[1..];
      assert Insert(y, s, less)[1..] == Insert(y, s[1..], less);
    }
  }

  /** Stability: among elements the order does not tell apart, nothing moves. */
  lemma {:induction false} SortIsStable<T(!new)>(s: seq<T>, x: T, less: (T, T) -> bool)
    requires StrictWeak(less)
    ensures Filter(StableSort(s, less), TiesWith(x, less)) == Filter(s, TiesWith(x, less))
  {
    if s != [] {
      SortIsStable(s[1..], x, less);
      InsertTies(s[0], StableSort(s[1..], less), x, less);
      assert ([s[0]] + StableSort(s[1..], less))[1..] == StableSort(s[1..], less);
    }
  }
}
