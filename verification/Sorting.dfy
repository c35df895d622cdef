/** Sorting under a strict order, and the facts that make the result independent of the input order. */
module Sorting {

  ghost predicate StrictTotalOn<T(!new)>(less: (T, T) -> bool, xs: seq<T>) {
    && (forall x :: x in xs ==> !less(x, x))
    && (forall x, y :: x in xs && y in xs && x != y ==> less(x, y) || less(y, x))
    && (forall x, y, z :: x in xs && y in xs && z in xs && less(x, y) && less(y, z) ==> less(x, z))
  }

  ghost predicate Distinct<T>(xs: seq<T>) {
    forall i, j :: 0 <= i < j < |xs| ==> xs[i] != xs[j]
  }

  ghost predicate Sorted<T>(less: (T, T) -> bool, xs: seq<T>) {
    forall i, j :: 0 <= i < j < |xs| ==> less(xs[i], xs[j])
  }

  function Insert<T>(less: (T, T) -> bool, x: T, xs: seq<T>): seq<T> {
    if xs == [] || less(x, xs[0]) then [x] + xs else [xs[0]] + Insert(less, x, xs[1..])
  }

  function Sort<T>(less: (T, T) -> bool, xs: seq<T>): seq<T> {
    if xs == [] then [] else Insert(less, xs[0], Sort(less, xs[1..]))
  }

  lemma {:induction false} InsertPermutes<T>(less: (T, T) -> bool, x: T, xs: seq<T>)
    ensures multiset(Insert(less, x, xs)) == multiset([x] + xs)
    ensures |Insert(less, x, xs)| == |xs| + 1
    ensures forall y :: y in Insert(less, x, xs) <==> y == x || y in xs
  {
    if xs != [] && !less(x, xs[0]) {
      InsertPermutes(less, x, xs[1..]);
      assert xs == [xs[0]] + xs[1..];
    }
    assert multiset([x] + xs) == multiset([x]) + multiset(xs);
  }

  lemma {:induction false} InsertSorts<T(!new)>(less: (T, T) -> bool, x: T, xs: seq<T>)
    requires StrictTotalOn(less, [x] + xs) && x !in xs && Sorted(less, xs)
    ensures Sorted(less, Insert(less, x, xs))
  {
    if xs != [] {
      var all := [x] + xs;
      assert x in all && xs[0] in all;
      assert forall y :: y in xs ==> y in all;
      if less(x, xs[0]) {
        forall j | 0 <= j < |xs| ensures less(x, xs[j]) {
          if j > 0 { assert less(xs[0], xs[j]); }
        }
      } else {
        var rest := Insert(less, x, xs[1..]);
        assert forall y :: y in [x] + xs[1..] ==> y in all;
        InsertSorts(less, x, xs[1..]);
        InsertPermutes(less, x, xs[1..]);
        forall j | 0 <= j < |rest| ensures less(xs[0], rest[j]) {
          assert rest[j] in rest;
          if rest[j] != x {
            var k :| 0 <= k < |xs[1..]| && xs[1..][k] == rest[j];
            assert less(xs[0], xs[k + 1]);
          }
        }
      }
    }
  }

  lemma {:induction false} SortPermutes<T>(less: (T, T) -> bool, xs: seq<T>)
    ensures multiset(Sort(less, xs)) == multiset(xs)
    ensures |Sort(less, xs)| == |xs|
    ensures forall y :: y in Sort(less, xs) <==> y in xs
  {
    if xs != [] {
      SortPermutes(less, xs[1..]);
      InsertPermutes(less, xs[0], Sort(less, xs[1..]));
      assert xs == [xs[0]] + xs[1..];
      assert multiset([xs[0]] + Sort(less, xs[1..])) == multiset([xs[0]]) + multiset(Sort(less, xs[1..]));
      assert multiset(xs) == multiset([xs[0]]) + multiset(xs[1..]);
    }
  }

  lemma {:induction false} SortSorts<T(!new)>(less: (T, T) -> bool, xs: seq<T>)
    requires StrictTotalOn(less, xs) && Distinct(xs)
    ensures Sorted(less, Sort(less, xs))
  {
    if xs != [] {
      var rest := Sort(less, xs[1..]);
      assert forall y :: y in xs[1..] ==> y in xs;
      SortSorts(less, xs[1..]);
      SortPermutes(less, xs[1..]);
      assert forall y :: y in [xs[0]] + rest ==> y in xs;
      InsertSorts(less, xs[0], rest);
    }
  }

  /** Two sorted sequences with the same elements are equal: any correct sort computes `Sort`. */
  lemma {:induction false} SortedIsUnique<T(!new)>(less: (T, T) -> bool, xs: seq<T>, ys: seq<T>)
    requires Sorted(less, xs) && Sorted(less, ys) && StrictTotalOn(less, xs)
    requires forall x :: x in xs <==> x in ys
    ensures xs == ys
  {
    if xs == [] {
      assert forall k :: 0 <= k < |ys| ==> ys[k] in xs;
    } else {
      assert xs[0] in ys && ys[0] in xs;
      HeadIsLeast(less, xs, ys[0]);
      HeadIsLeast(less, ys, xs[0]);
      assert xs[0] == ys[0];
      forall x ensures x in xs[1..] <==> x in ys[1..] {
        SortedTail(less, xs, x);
        SortedTail(less, ys, x);
      }
      assert forall x :: x in xs[1..] ==> x in xs;
      SortedIsUnique(less, xs[1..], ys[1..]);
      assert xs == [xs[0]] + xs[1..] && ys == [ys[0]] + ys[1..];
    }
  }

  lemma HeadIsLeast<T(!new)>(less: (T, T) -> bool, xs: seq<T>, x: T)
    requires Sorted(less, xs) && x in xs
    ensures x == xs[0] || less(xs[0], x)
  {
    var k :| 0 <= k < |xs| && xs[k] == x;
  }

  lemma SortedTail<T(!new)>(less: (T, T) -> bool, xs: seq<T>, x: T)
    requires xs != [] && Sorted(less, xs) && !less(xs[0], xs[0])
    ensures x in xs[1..] <==> x in xs && x != xs[0]
  {
    if x in xs[1..] {
      var k :| 0 <= k < |xs[1..]| && xs[1..][k] == x;
      assert less(xs[0], xs[k + 1]);
    } else {
      assert xs == [xs[0]] + xs[1..];
    }
  }

  /** Sorting depends only on which elements there are. */
  lemma SortIsCanonical<T(!new)>(less: (T, T) -> bool, xs: seq<T>, ys: seq<T>)
    requires StrictTotalOn(less, xs) && Distinct(xs) && Distinct(ys)
    requires forall x :: x in xs <==> x in ys
    ensures Sort(less, xs) == Sort(less, ys)
  {
    SortSorts(less, xs);
    SortSorts(less, ys);
    SortPermutes(less, xs);
    SortPermutes(less, ys);
    SortedIsUnique(less, Sort(less, xs), Sort(less, ys));
  }

  lemma PermutationIsDistinct<T>(xs: seq<T>, ys: seq<T>)
    requires Distinct(xs) && multiset(xs) == multiset(ys)
    ensures Distinct(ys)
    ensures forall x :: x in xs <==> x in ys
  {
    forall x ensures x in xs <==> x in ys {
      assert x in xs <==> x in multiset(xs);
      assert x in ys <==> x in multiset(ys);
    }
    DistinctMultiset(xs);
    forall i, j | 0 <= i < j < |ys| ensures ys[i] != ys[j] {
      assert multiset(xs)[ys[i]] <= 1;
      if ys[i] == ys[j] {
        TwiceInMultiset(ys, i, j);
      }
    }
  }

  lemma {:induction false} DistinctMultiset<T>(xs: seq<T>)
    requires Distinct(xs)
    ensures forall x :: multiset(xs)[x] <= 1
  {
    if xs != [] {
      DistinctMultiset(xs[1..]);
      assert xs == [xs[0]] + xs[1..];
      assert multiset(xs) == multiset([xs[0]]) + multiset(xs[1..]);
      assert xs[0] !in xs[1..];
      assert xs[0] !in multiset(xs[1..]);
    }
  }

  lemma TwiceInMultiset<T>(xs: seq<T>, i: nat, j: nat)
    requires i < j < |xs| && xs[i] == xs[j]
    ensures multiset(xs)[xs[i]] >= 2
  {
    assert xs == xs[..j] + [xs[j]] + xs[j + 1..];
    assert multiset(xs) == multiset(xs[..j]) + multiset([xs[j]]) + multiset(xs[j + 1..]);
    assert xs[..j][i] == xs[i];
    assert xs[i] in multiset(xs[..j]);
  }

  // ---------------------------------------------------------------- Sets as sequences

  /** Some enumeration of a set, as map iteration gives one. */
  ghost function Elements<T(!new)>(s: set<T>): (xs: seq<T>)
    ensures Distinct(xs)
    ensures forall x :: x in xs <==> x in s
    ensures |xs| == |s|
  {
    if s == {} then [] else
      var x :| x in s;
      [x] + Elements(s - {x})
  }

  lemma KeyOf<K(!new), V(!new)>(m: map<K, V>, v: V) returns (k: K)
    requires v in m.Values
    ensures k in m && m[k] == v
  {
    k :| k in m && m[k] == v;
  }

  // ---------------------------------------------------------------- Filtering

  function Filter<T>(keep: T -> bool, xs: seq<T>): seq<T> {
    if xs == [] then []
    else if keep(xs[0]) then [xs[0]] + Filter(keep, xs[1..])
    else Filter(keep, xs[1..])
  }

  lemma {:induction false} FilterMembers<T>(keep: T -> bool, xs: seq<T>)
    ensures forall x :: x in Filter(keep, xs) <==> x in xs && keep(x)
    ensures |Filter(keep, xs)| <= |xs|
  {
    if xs != [] {
      FilterMembers(keep, xs[1..]);
      assert xs == [xs[0]] + xs[1..];
    }
  }

  lemma {:induction false} FilterAppend<T>(keep: T -> bool, xs: seq<T>, ys: seq<T>)
    ensures Filter(keep, xs + ys) == Filter(keep, xs) + Filter(keep, ys)
  {
    if xs == [] {
      assert xs + ys == ys;
    } else {
      FilterAppend(keep, xs[1..], ys);
      assert (xs + ys)[1..] == xs[1..] + ys;
    }
  }

  lemma {:induction false} FilterSame<T>(keep: T -> bool, other: T -> bool, xs: seq<T>)
    requires forall x :: x in xs ==> keep(x) == other(x)
    ensures Filter(keep, xs) == Filter(other, xs)
  {
    if xs != [] {
      assert xs[0] in xs && forall x :: x in xs[1..] ==> x in xs;
      FilterSame(keep, other, xs[1..]);
    }
  }

  lemma {:induction false} FilterTwice<T>(keep: T -> bool, other: T -> bool, xs: seq<T>)
    ensures Filter(keep, Filter(other, xs)) == Filter(other, Filter(keep, xs))
  {
    if xs != [] {
      FilterTwice(keep, other, xs[1..]);
    }
  }

  lemma {:induction false} FilterAll<T>(keep: T -> bool, xs: seq<T>)
    requires forall x :: x in xs ==> keep(x)
    ensures Filter(keep, xs) == xs
  {
    if xs != [] {
      assert xs == [xs[0]] + xs[1..];
      FilterAll(keep, xs[1..]);
    }
  }

  lemma {:induction false} FilterNone<T>(keep: T -> bool, xs: seq<T>)
    requires forall x :: x in xs ==> !keep(x)
    ensures Filter(keep, xs) == []
  {
    if xs != [] {
      assert xs[0] in xs && forall x :: x in xs[1..] ==> x in xs;
      FilterNone(keep, xs[1..]);
    }
  }

  lemma {:induction false} FilterSorted<T(!new)>(less: (T, T) -> bool, keep: T -> bool, xs: seq<T>)
    requires Sorted(less, xs)
    ensures Sorted(less, Filter(keep, xs))
  {
    if xs != [] {
      FilterSorted(less, keep, xs[1..]);
      FilterMembers(keep, xs[1..]);
      if keep(xs[0]) {
        var rest := Filter(keep, xs[1..]);
        forall j | 0 <= j < |rest| ensures less(xs[0], rest[j]) {
          assert rest[j] in rest;
          var k :| 0 <= k < |xs[1..]| && xs[1..][k] == rest[j];
          assert less(xs[0], xs[k + 1]);
        }
      }
    }
  }

  lemma {:induction false} FilterDistinct<T>(keep: T -> bool, xs: seq<T>)
    requires Distinct(xs)
    ensures Distinct(Filter(keep, xs))
  {
    if xs != [] {
      FilterDistinct(keep, xs[1..]);
      FilterMembers(keep, xs[1..]);
      assert xs[0] !in xs[1..];
    }
  }

  /** Sorting a selection is selecting from the sorted whole. */
  lemma SortFilter<T(!new)>(less: (T, T) -> bool, keep: T -> bool, xs: seq<T>)
    requires StrictTotalOn(less, xs) && Distinct(xs)
    ensures Sort(less, Filter(keep, xs)) == Filter(keep, Sort(less, xs))
  {
    var ys := Filter(keep, xs);
    FilterMembers(keep, xs);
    FilterDistinct(keep, xs);
    SortSorts(less, xs);
    SortPermutes(less, xs);
    SortSorts(less, ys);
    SortPermutes(less, ys);
    FilterSorted(less, keep, Sort(less, xs));
    FilterMembers(keep, Sort(less, xs));
    SortedIsUnique(less, Sort(less, ys), Filter(keep, Sort(less, xs)));
  }
}
