/** Sorting by a comparator and taking the first: the way the service chooses one container among several. */
module Ordering {
  import opened Options

  function Insert<T>(x: T, sorted: seq<T>, less: (T, T) -> bool): seq<T> {
    if sorted == [] then [x]
    else if less(sorted[0], x) then [sorted[0]] + Insert(x, sorted[1..], less)
    else [x] + sorted
  }

  function Sort<T>(s: seq<T>, less: (T, T) -> bool): seq<T> {
    if s == [] then [] else Insert(s[0], Sort(s[1..], less), less)
  }

  /** `sort(compare)[0] ?? null` */
  function First<T>(s: seq<T>, less: (T, T) -> bool): Option<T> {
    var sorted := Sort(s, less);
    if sorted == [] then None else Some(sorted[0])
  }

  /** A strict order on these elements in which any two different ones compare. */
  ghost predicate StrictlyOrders<T(!new)>(less: (T, T) -> bool, s: seq<T>) {
    && (forall x, y :: x in s && y in s && x != y ==> less(x, y) || less(y, x))
    && (forall x, y :: x in s && y in s ==> !(less(x, y) && less(y, x)))
    && (forall x, y, z :: x in s && y in s && z in s && less(x, y) && less(y, z) ==> less(x, z))
  }

  ghost predicate IsLeast<T(!new)>(x: T, s: seq<T>, less: (T, T) -> bool) {
    x in s && forall y :: y in s && y != x ==> less(x, y)
  }

  lemma {:induction false} InsertKeepsElements<T>(x: T, sorted: seq<T>, less: (T, T) -> bool)
    ensures multiset(Insert(x, sorted, less)) == multiset(sorted) + multiset{x}
  {
    if sorted == [] {
    } else if less(sorted[0], x) {
      InsertKeepsElements(x, sorted[1..], less);
      assert sorted == [sorted[0]] + sorted[1..];
    } else {
      assert multiset([x] + sorted) == multiset{x} + multiset(sorted);
    }
  }

  lemma {:induction false} SortKeepsElements<T>(s: seq<T>, less: (T, T) -> bool)
    ensures multiset(Sort(s, less)) == multiset(s)
  {
    if s != [] {
      SortKeepsElements(s[1..], less);
      InsertKeepsElements(s[0], Sort(s[1..], less), less);
      assert s == [s[0]] + s[1..];
    }
  }

  /** The chosen element is the least one. */
  lemma {:induction false} FirstIsLeast<T(!new)>(s: seq<T>, less: (T, T) -> bool)
    requires StrictlyOrders(less, s)
    ensures First(s, less).None? <==> s == []
    ensures s != [] ==> IsLeast(First(s, less).value, s, less)
  {
    if s != [] {
      var rest := s[1..];
      assert forall x :: x in rest ==> x in s;
      FirstIsLeast(rest, less);
      SortKeepsElements(rest, less);
      var sorted := Sort(rest, less);
      if sorted == [] {
        assert rest == [] by { assert |multiset(rest)| == 0; }
      } else {
        assert First(rest, less).value == sorted[0];
        assert s == [s[0]] + rest;
      }
    }
  }

  /** What comes before something comes before, or instead of, everything that something does not come after. */
  ghost predicate OrdersByRank<T(!new)>(less: (T, T) -> bool) {
    && (forall x, y :: !(less(x, y) && less(y, x)))
    && (forall x, y, z :: less(x, z) ==> less(x, y) || less(y, z))
  }

  /** With ties, the chosen element is one that none comes before. */
  lemma {:induction false} FirstIsMinimal<T(!new)>(s: seq<T>, less: (T, T) -> bool)
    requires OrdersByRank(less)
    ensures First(s, less).None? <==> s == []
    ensures s != [] ==> First(s, less).value in s && forall y :: y in s ==> !less(y, First(s, less).value)
  {
    if s != [] {
      var rest := s[1..];
      FirstIsMinimal(rest, less);
      SortKeepsElements(rest, less);
      assert s == [s[0]] + rest;
      assert Sort(rest, less) == [] ==> rest == [] by { assert |multiset(rest)| == |rest|; }
    }
  }

  /** Whatever order the elements are listed in, the same one is chosen. */
  lemma FirstIgnoresListing<T(!new)>(s: seq<T>, t: seq<T>, less: (T, T) -> bool)
    requires StrictlyOrders(less, s) && multiset(s) == multiset(t)
    ensures First(s, less) == First(t, less)
  {
    assert forall x :: x in s <==> x in t by {
      assert forall x :: x in s <==> x in multiset(s);
      assert forall x :: x in t <==> x in multiset(t);
    }
    FirstIsLeast(s, less);
    FirstIsLeast(t, less);
    if s != [] && t != [] {
      var a, b := First(s, less).value, First(t, less).value;
      assert a in s && b in s && a in t && b in t;
    }
  }

  // --------------------------------------------------------------------------------------------------- filtering

  function Filter<T>(s: seq<T>, keep: T -> bool): seq<T> {
    if s == [] then []
    else if keep(s[0]) then [s[0]] + Filter(s[1..], keep)
    else Filter(s[1..], keep)
  }

  ghost predicate Distinct<T, K>(s: seq<T>, key: T -> K) {
    forall i, j :: 0 <= i < j < |s| ==> key(s[i]) != key(s[j])
  }

  lemma {:induction false} FilterMembers<T(!new)>(s: seq<T>, keep: T -> bool)
    ensures forall x :: x in Filter(s, keep) <==> x in s && keep(x)
  {
    if s != [] {
      FilterMembers(s[1..], keep);
      assert s == [s[0]] + s[1..];
    }
  }

  lemma {:induction false} FilterCounts<T>(s: seq<T>, keep: T -> bool, x: T)
    ensures multiset(Filter(s, keep))[x] == if keep(x) then multiset(s)[x] else 0
  {
    if s != [] {
      FilterCounts(s[1..], keep, x);
      assert s == [s[0]] + s[1..];
    }
  }

  lemma {:induction false} FilterStaysDistinct<T(!new), K>(s: seq<T>, keep: T -> bool, key: T -> K)
    requires Distinct(s, key)
    ensures Distinct(Filter(s, keep), key)
  {
    if s != [] {
      var rest := s[1..];
      assert Distinct(rest, key) by {
        assert forall i :: 0 <= i < |rest| ==> rest[i] == s[i + 1];
      }
      FilterStaysDistinct(rest, keep, key);
      FilterMembers(rest, keep);
      var f := Filter(rest, keep);
      assert forall x :: x in f ==> x in rest;
      forall x | x in rest ensures key(x) != key(s[0]) {
        var j :| 0 <= j < |rest| && rest[j] == x;
        assert s[j + 1] == x;
      }
      if keep(s[0]) {
        forall i, j | 0 <= i < j < |f| + 1 ensures key(([s[0]] + f)[i]) != key(([s[0]] + f)[j]) {
          assert f[j - 1] in f;
          assert i > 0 ==> f[i - 1] in f;
        }
      }
    }
  }

  lemma {:induction false} FilterConcat<T>(a: seq<T>, b: seq<T>, keep: T -> bool)
    ensures Filter(a + b, keep) == Filter(a, keep) + Filter(b, keep)
  {
    if a == [] {
      assert a + b == b;
    } else {
      assert (a + b)[1..] == a[1..] + b;
      FilterConcat(a[1..], b, keep);
    }
  }

  lemma FilterOne<T>(x: T, keep: T -> bool)
    ensures Filter([x], keep) == if keep(x) then [x] else []
  {
    assert Filter([x][1..], keep) == [];
  }
}
