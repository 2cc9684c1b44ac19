// Ordered insertion, used for pandas' sorted group keys and for `sort_values`.
module Sorting {
  ghost predicate Transitive<T(!new)>(lt: (T, T) -> bool)
  {
    forall a, b, c :: lt(a, b) && lt(b, c) ==> lt(a, c)
  }

  ghost predicate StrictOrder<T(!new)>(lt: (T, T) -> bool)
  {
    Transitive(lt) && forall a :: !lt(a, a)
  }

  ghost predicate StrictTotalOrder<T(!new)>(lt: (T, T) -> bool)
  {
    StrictOrder(lt) && forall a, b :: a == b || lt(a, b) || lt(b, a)
  }

  /** Strictly increasing: sorted and without repetitions. */
  predicate StrictlySorted<T>(s: seq<T>, lt: (T, T) -> bool)
  {
    forall i, j :: 0 <= i < j < |s| ==> lt(s[i], s[j])
  }

  /** Non-decreasing: no element is smaller than one before it. */
  predicate Sorted<T>(s: seq<T>, lt: (T, T) -> bool)
  {
    forall i, j :: 0 <= i < j < |s| ==> !lt(s[j], s[i])
  }

  /** Adds `x` to a strictly sorted sequence unless it is already there. */
  function InsertUnique<T(==,!new)>(s: seq<T>, x: T, lt: (T, T) -> bool): (r: seq<T>)
    requires StrictTotalOrder(lt) && StrictlySorted(s, lt)
    ensures StrictlySorted(r, lt)
    ensures forall y :: y in r <==> y in s || y == x
  {
    if s == [] then [x]
    else if x == s[0] then s
    else if lt(x, s[0]) then
      assert forall j :: 0 < j < |s| ==> lt(x, s[j]);
      [x] + s
    else
      var rest := InsertUnique(s[1..], x, lt);
      assert lt(s[0], x);
      assert forall y :: y in rest ==> lt(s[0], y) by {
        forall y | y in rest ensures lt(s[0], y) {
          if y != x {
            var j :| 0 <= j < |s[1..]| && s[1..][j] == y;
            assert s[j + 1] == y;
          }
        }
      }
      [s[0]] + rest
  }

  /**
   * Insertion into a sorted sequence: `x` goes after every element it is not
   * smaller than, i.e. before the first element greater than it.
   */
  function InsertSorted<T(==,!new)>(s: seq<T>, x: T, lt: (T, T) -> bool): (r: seq<T>)
    requires StrictOrder(lt) && Sorted(s, lt)
    ensures Sorted(r, lt)
    ensures multiset(r) == multiset(s) + multiset{x}
  {
    if s == [] then [x]
    else if lt(x, s[0]) then
      assert forall j :: 0 <= j < |s| ==> !lt(s[j], x) by {
        forall j | 0 <= j < |s| ensures !lt(s[j], x) {
          assert !lt(s[j], s[0]);
        }
      }
      [x] + s
    else
      var rest := InsertSorted(s[1..], x, lt);
      assert s == [s[0]] + s[1..];
      assert multiset(rest) == multiset(s[1..]) + multiset{x};
      assert forall y :: y in rest ==> !lt(y, s[0]) by {
        forall y | y in rest ensures !lt(y, s[0]) {
          assert y in multiset(rest);
          if y != x {
            assert y in multiset(s[1..]);
            var j :| 0 <= j < |s[1..]| && s[1..][j] == y;
            assert s[j + 1] == y;
          }
        }
      }
      [s[0]] + rest
  }

  /** `sort_values` on the keys that `lt` compares, as an insertion sort; rows with equal
      keys come out in one fixed order. */
  function InsertionSort<T(==,!new)>(s: seq<T>, lt: (T, T) -> bool): (r: seq<T>)
    requires StrictOrder(lt)
    ensures Sorted(r, lt)
    ensures multiset(r) == multiset(s)
    ensures |r| == |s|
  {
    if s == [] then []
    else
      var init := InsertionSort(s[..|s| - 1], lt);
      assert s == s[..|s| - 1] + [s[|s| - 1]];
      var r := InsertSorted(init, s[|s| - 1], lt);
      assert |r| == |multiset(r)|;
      r
  }
}
