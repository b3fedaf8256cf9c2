/**
 * `Array.prototype.sort` with a consistent comparator: since ECMAScript 2019
 * the sort is stable, so the result is the unique stable sorted permutation.
 * `before(a, b)` holds when the comparator puts `a` strictly before `b`.
 */
module StableSort {

  /** `before` is a strict weak order: irreflexive, transitive, and ties are transitive. */
  ghost predicate StrictWeakOrder<T(!new)>(before: (T, T) -> bool) {
    && (forall a :: !before(a, a))
    && (forall a, b, c :: before(a, b) && before(b, c) ==> before(a, c))
    && (forall a, b, c :: before(a, c) ==> before(a, b) || before(b, c))
  }

  /** Neither element sorts before the other. */
  predicate Tie<T>(a: T, b: T, before: (T, T) -> bool) {
    !before(a, b) && !before(b, a)
  }

  ghost predicate Sorted<T>(s: seq<T>, before: (T, T) -> bool) {
    forall i, j :: 0 <= i < j < |s| ==> !before(s[j], s[i])
  }

  /** Put `x` in front of the first element that does not sort strictly before it. */
  function Insert<T>(x: T, s: seq<T>, before: (T, T) -> bool): (r: seq<T>)
    ensures multiset(r) == multiset(s) + multiset{x}
  {
    if |s| == 0 then [x]
    else (assert s == [s[0]] + s[1..];
          if before(s[0], x) then [s[0]] + Insert(x, s[1..], before) else [x] + s)
  }

  /** Stable insertion sort. */
  function Sort<T>(s: seq<T>, before: (T, T) -> bool): (r: seq<T>)
    ensures multiset(r) == multiset(s)
  {
    if |s| == 0 then []
    else (assert s == [s[0]] + s[1..]; Insert(s[0], Sort(s[1..], before), before))
  }

  lemma {:induction false} InsertSorted<T(!new)>(x: T, s: seq<T>, before: (T, T) -> bool)
    requires StrictWeakOrder(before)
    requires Sorted(s, before)
    ensures Sorted(Insert(x, s, before), before)
  {
    if |s| > 0 {
      SortedTail(s, before);
      if before(s[0], x) {
        InsertSorted(x, s[1..], before);
        var t := Insert(x, s[1..], before);
        forall j | 0 <= j < |t| ensures !before(t[j], s[0]) {
          assert t[j] in multiset(t);
          assert t[j] == x || t[j] in multiset(s[1..]);
          if t[j] != x {
            var k :| 0 <= k < |s[1..]| && s[1..][k] == t[j];
            assert s[k + 1] == t[j];
          }
        }
        SortedCons(s[0], t, before);
      } else {
        forall j | 0 <= j < |s| ensures !before(s[j], x) {
          if j > 0 {
            assert !before(s[j], s[0]);
          }
        }
        SortedCons(x, s, before);
      }
    }
  }

  /** Putting in front an element that nothing sorts before keeps a sorted sequence sorted. */
  lemma SortedCons<T>(y: T, t: seq<T>, before: (T, T) -> bool)
    requires Sorted(t, before)
    requires forall j :: 0 <= j < |t| ==> !before(t[j], y)
    ensures Sorted([y] + t, before)
  {
    forall i, j | 0 <= i < j < |t| + 1 ensures !before(([y] + t)[j], ([y] + t)[i]) {
      assert ([y] + t)[j] == t[j - 1];
      if i > 0 {
        assert ([y] + t)[i] == t[i - 1];
      }
    }
  }

  /** The sorted list is in order. */
  lemma {:induction false} SortSorted<T(!new)>(s: seq<T>, before: (T, T) -> bool)
    requires StrictWeakOrder(before)
    ensures Sorted(Sort(s, before), before)
  {
    if |s| > 0 {
      SortSorted(s[1..], before);
      InsertSorted(s[0], Sort(s[1..], before), before);
    }
  }

  /** Two elements already in order stay in order. */
  lemma SortTwo<T>(x: T, y: T, before: (T, T) -> bool)
    requires !before(y, x)
    ensures Sort([x, y], before) == [x, y]
  {
    assert [x, y][1..] == [y];
    assert Sort([y], before) == [y];
  }

  /** The elements of `s` that tie with `e`, in their order in `s`. */
  function TiesWith<T>(s: seq<T>, e: T, before: (T, T) -> bool): seq<T> {
    if |s| == 0 then []
    else (if Tie(s[0], e, before) then [s[0]] else []) + TiesWith(s[1..], e, before)
  }

  lemma {:induction false} InsertTies<T(!new)>(x: T, s: seq<T>, e: T, before: (T, T) -> bool)
    requires StrictWeakOrder(before)
    ensures TiesWith(Insert(x, s, before), e, before)
         == (if Tie(x, e, before) then [x] else []) + TiesWith(s, e, before)
  {
    if |s| > 0 && before(s[0], x) {
      var y := s[0];
      InsertTies(x, s[1..], e, before);
      var r := Insert(x, s, before);
      assert r == [y] + Insert(x, s[1..], before);
      assert r[1..] == Insert(x, s[1..], before);
      assert TiesWith(r, e, before)
          == (if Tie(y, e, before) then [y] else []) + TiesWith(Insert(x, s[1..], before), e, before);
      if Tie(x, e, before) {
        TieBreaks(y, x, e, before);
      }
    } else if |s| > 0 {
      var r := Insert(x, s, before);
      assert r == [x] + s;
      assert r[1..] == s;
    }
  }

  /** If `y` sorts before `x` and `x` ties with `e`, then `y` does not tie with `e`. */
  lemma TieBreaks<T(!new)>(y: T, x: T, e: T, before: (T, T) -> bool)
    requires StrictWeakOrder(before)
    requires before(y, x) && Tie(x, e, before)
    ensures !Tie(y, e, before)
  {
    assert before(y, e) || before(e, x);
  }

  /** Stability: elements that tie keep their relative order. */
  lemma {:induction false} SortStable<T(!new)>(s: seq<T>, e: T, before: (T, T) -> bool)
    requires StrictWeakOrder(before)
    ensures TiesWith(Sort(s, before), e, before) == TiesWith(s, e, before)
  {
    if |s| > 0 {
      SortStable(s[1..], e, before);
      InsertTies(s[0], Sort(s[1..], before), e, before);
    }
  }

  /**
   * When no two elements of the input tie, the sorted result depends only on
   * the multiset of elements, not on their input order.
   */
  lemma {:induction false} SortDeterminedByElements<T(!new)>(s: seq<T>, t: seq<T>, before: (T, T) -> bool)
    requires StrictWeakOrder(before)
    requires multiset(s) == multiset(t)
    requires forall i, j :: 0 <= i < j < |s| ==> !Tie(s[i], s[j], before)
    ensures Sort(s, before) == Sort(t, before)
  {
    var a, b := Sort(s, before), Sort(t, before);
    SortSorted(s, before);
    SortSorted(t, before);
    forall x, y | x in multiset(a) && y in multiset(a) && x != y ensures !Tie(x, y, before) {
      var i :| 0 <= i < |s| && s[i] == x;
      var j :| 0 <= j < |s| && s[j] == y;
      if i < j { assert !Tie(s[i], s[j], before); } else { assert !Tie(s[j], s[i], before); }
    }
    SortedUnique(a, b, before);
  }

  /** Two sorted sequences with the same elements and no two distinct elements tying are equal. */
  lemma {:induction false} SortedUnique<T(!new)>(a: seq<T>, b: seq<T>, before: (T, T) -> bool)
    requires Sorted(a, before) && Sorted(b, before)
    requires multiset(a) == multiset(b)
    requires forall x, y :: x in multiset(a) && y in multiset(a) && x != y ==> !Tie(x, y, before)
    ensures a == b
    decreases |a|
  {
    if |a| == 0 {
      assert |multiset(b)| == 0;
    } else {
      assert |b| == |a| by { assert |multiset(b)| == |multiset(a)|; }
      SameHead(a, b, before);
      SortedTail(a, before);
      SortedTail(b, before);
      SameTails(a, b);
      SortedUnique(a[1..], b[1..], before);
    }
  }

  /** Sequences with the same elements and the same head have tails with the same elements, drawn from them. */
  lemma SameTails<T>(a: seq<T>, b: seq<T>)
    requires |a| > 0 && |b| > 0 && a[0] == b[0] && multiset(a) == multiset(b)
    ensures multiset(a[1..]) == multiset(b[1..]) && multiset(a[1..]) <= multiset(a)
  {
    assert a == [a[0]] + a[1..] && b == [b[0]] + b[1..];
    assert multiset(a[1..]) == multiset(a) - multiset{a[0]};
    assert multiset(b[1..]) == multiset(b) - multiset{b[0]};
  }

  lemma SortedTail<T>(a: seq<T>, before: (T, T) -> bool)
    requires |a| > 0 && Sorted(a, before)
    ensures Sorted(a[1..], before)
  {
    forall i, j | 0 <= i < j < |a| - 1 ensures !before(a[1..][j], a[1..][i]) {
      assert a[1..][j] == a[j + 1] && a[1..][i] == a[i + 1];
    }
  }

  /** The first element of a sorted sequence is determined by its elements when no two tie. */
  lemma SameHead<T>(a: seq<T>, b: seq<T>, before: (T, T) -> bool)
    requires |a| > 0 && |b| > 0
    requires Sorted(a, before) && Sorted(b, before)
    requires multiset(a) == multiset(b)
    requires forall x, y :: x in multiset(a) && y in multiset(a) && x != y ==> !Tie(x, y, before)
    ensures a[0] == b[0]
  {
    assert a[0] in multiset(b);
    var j :| 0 <= j < |b| && b[j] == a[0];
    assert b[0] in multiset(a);
    var i :| 0 <= i < |a| && a[i] == b[0];
    if i != 0 && j != 0 {
      assert !before(a[i], a[0]);
      assert !before(b[j], b[0]);
    }
  }
}
