/**
 What `Array.prototype.sort` promises with a comparator: a sorted permutation that keeps the order
 of equal elements (ECMAScript 2019, section 22.1.3.27). Insertion sort stands for any such sort.
 */
module StableSort {
  import opened Sequences

  /** A consistent comparator: its sign flips with its arguments, and it is transitive. */
  ghost predicate Consistent<T(!new)>(cmp: (T, T) -> int) {
    && (forall a, b :: cmp(a, b) < 0 <==> cmp(b, a) > 0)
    && (forall a, b, c :: cmp(a, b) <= 0 && cmp(b, c) <= 0 ==> cmp(a, c) <= 0)
  }

  /** A comparison along two steps: strict if either step is. */
  lemma CompareChain<T(!new)>(cmp: (T, T) -> int, x: T, y: T, z: T)
    requires Consistent(cmp) && cmp(x, y) <= 0 && cmp(y, z) <= 0
    ensures cmp(x, z) <= 0
    ensures cmp(x, y) < 0 || cmp(y, z) < 0 ==> cmp(x, z) < 0
  {
    if cmp(x, z) == 0 {
      assert cmp(z, x) <= 0;
      assert cmp(z, y) <= 0 && cmp(y, x) <= 0;
    }
  }

  ghost predicate SortedBy<T>(s: seq<T>, cmp: (T, T) -> int) {
    forall i, j :: 0 <= i < j < |s| ==> cmp(s[i], s[j]) <= 0
  }

  function Insert<T>(s: seq<T>, x: T, cmp: (T, T) -> int): seq<T> {
    if s == [] || cmp(s[|s| - 1], x) <= 0 then s + [x]
    else Insert(s[..|s| - 1], x, cmp) + [s[|s| - 1]]
  }

  function Sort<T>(s: seq<T>, cmp: (T, T) -> int): seq<T> {
    if s == [] then [] else Insert(Sort(s[..|s| - 1], cmp), s[|s| - 1], cmp)
  }

  lemma {:induction false} InsertPermutes<T>(s: seq<T>, x: T, cmp: (T, T) -> int)
    ensures multiset(Insert(s, x, cmp)) == multiset(s) + multiset{x}
  {
    if s != [] && cmp(s[|s| - 1], x) > 0 {
      InsertPermutes(s[..|s| - 1], x, cmp);
      assert s == s[..|s| - 1] + [s[|s| - 1]];
    }
  }

  lemma {:induction false} SortPermutes<T>(s: seq<T>, cmp: (T, T) -> int)
    ensures multiset(Sort(s, cmp)) == multiset(s)
    ensures |Sort(s, cmp)| == |s|
  {
    if s != [] {
      SortPermutes(s[..|s| - 1], cmp);
      InsertPermutes(Sort(s[..|s| - 1], cmp), s[|s| - 1], cmp);
      assert s == s[..|s| - 1] + [s[|s| - 1]];
    }
    assert |Sort(s, cmp)| == |multiset(Sort(s, cmp))|;
  }

  lemma InsertMembers<T>(s: seq<T>, x: T, cmp: (T, T) -> int, y: T)
    requires y in Insert(s, x, cmp)
    ensures y in s || y == x
  {
    InsertPermutes(s, x, cmp);
    assert y in multiset(Insert(s, x, cmp));
  }

  lemma SortedAppend<T>(s: seq<T>, x: T, cmp: (T, T) -> int)
    requires SortedBy(s, cmp) && forall y :: y in s ==> cmp(y, x) <= 0
    ensures SortedBy(s + [x], cmp)
  {
  }

  lemma {:induction false} InsertSorts<T(!new)>(s: seq<T>, x: T, cmp: (T, T) -> int)
    requires Consistent(cmp) && SortedBy(s, cmp)
    ensures SortedBy(Insert(s, x, cmp), cmp)
  {
    if s == [] {
    } else if cmp(s[|s| - 1], x) <= 0 {
      assert forall y :: y in s ==> cmp(y, s[|s| - 1]) <= 0 || y == s[|s| - 1];
      SortedAppend(s, x, cmp);
    } else {
      var front, last := s[..|s| - 1], s[|s| - 1];
      InsertSorts(front, x, cmp);
      forall y | y in Insert(front, x, cmp)
        ensures cmp(y, last) <= 0
      {
        InsertMembers(front, x, cmp, y);
      }
      SortedAppend(Insert(front, x, cmp), last, cmp);
    }
  }

  lemma {:induction false} SortSorts<T(!new)>(s: seq<T>, cmp: (T, T) -> int)
    requires Consistent(cmp)
    ensures SortedBy(Sort(s, cmp), cmp)
  {
    if s != [] {
      SortSorts(s[..|s| - 1], cmp);
      InsertSorts(Sort(s[..|s| - 1], cmp), s[|s| - 1], cmp);
    }
  }

  /** Among elements the comparator holds equal, sorting changes no order. */
  lemma {:induction false} SortIsStable<T>(s: seq<T>, cmp: (T, T) -> int, p: T -> bool)
    requires forall a, b :: a in s && b in s && p(a) && p(b) ==> cmp(a, b) <= 0
    ensures Filter(Sort(s, cmp), p) == Filter(s, p)
  {
    if s != [] {
      var front, x := s[..|s| - 1], s[|s| - 1];
      SortIsStable(front, cmp, p);
      SortPermutes(front, cmp);
      forall a | a in Sort(front, cmp)
        ensures a in s
      {
        assert a in multiset(front);
      }
      InsertIsStable(Sort(front, cmp), x, cmp, p);
    }
  }

  lemma {:induction false} InsertIsStable<T>(s: seq<T>, x: T, cmp: (T, T) -> int, p: T -> bool)
    requires forall a :: a in s && p(a) && p(x) ==> cmp(a, x) <= 0
    ensures Filter(Insert(s, x, cmp), p) == Filter(s, p) + (if p(x) then [x] else [])
  {
    if s == [] || cmp(s[|s| - 1], x) <= 0 {
      assert (s + [x])[..|s|] == s;
    } else {
      var front, last := s[..|s| - 1], s[|s| - 1];
      InsertIsStable(front, x, cmp, p);
      var inserted := Insert(front, x, cmp);
      assert (inserted + [last])[..|inserted|] == inserted;
      assert last in s;
    }
  }

  lemma {:induction false} SortedIsFixed<T>(s: seq<T>, cmp: (T, T) -> int)
    requires SortedBy(s, cmp)
    ensures Sort(s, cmp) == s
  {
    if s != [] {
      SortedIsFixed(s[..|s| - 1], cmp);
    }
  }
}
