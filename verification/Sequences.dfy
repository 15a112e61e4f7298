/** Filtering, and the facts about it that several modules need. */
module Sequences {
  function Filter<T>(s: seq<T>, p: T -> bool): (r: seq<T>)
    ensures |r| <= |s|
  {
    if s == [] then []
    else
      var last := |s| - 1;
      Filter(s[..last], p) + (if p(s[last]) then [s[last]] else [])
  }

  lemma {:induction false} FilterFinds<T>(s: seq<T>, p: T -> bool, x: T)
    ensures x in Filter(s, p) <==> x in s && p(x)
  {
    if s != [] {
      var last := |s| - 1;
      FilterFinds(s[..last], p, x);
      assert x in s <==> x in s[..last] || x == s[last];
    }
  }

  lemma {:induction false} FilterNone<T>(s: seq<T>, p: T -> bool)
    requires forall x :: x in s ==> !p(x)
    ensures Filter(s, p) == []
  {
    if s != [] {
      FilterNone(s[..|s| - 1], p);
    }
  }

  lemma {:induction false} FilterAppend<T>(s: seq<T>, t: seq<T>, p: T -> bool)
    ensures Filter(s + t, p) == Filter(s, p) + Filter(t, p)
  {
    if t == [] {
      assert s + t == s;
    } else {
      var last := |t| - 1;
      FilterAppend(s, t[..last], p);
      assert (s + t)[..|s + t| - 1] == s + t[..last];
    }
  }

  lemma FilterFirst<T>(x: T, rest: seq<T>, p: T -> bool)
    ensures Filter([x] + rest, p) == (if p(x) then [x] else []) + Filter(rest, p)
  {
    FilterAppend([x], rest, p);
    assert Filter([x], p) == Filter([], p) + (if p(x) then [x] else []) by {
      assert [x][..0] == [];
    }
  }

  /** The last step of a filtering loop over `s[..i + 1]`. */
  lemma FilterStep<T>(s: seq<T>, i: nat, p: T -> bool)
    requires i < |s|
    ensures Filter(s[..i + 1], p) == Filter(s[..i], p) + (if p(s[i]) then [s[i]] else [])
  {
    assert s[..i + 1][..i] == s[..i];
  }
}
