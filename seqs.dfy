/**
 * The array operations the pages chain together: `filter`, `map`, and a
 * `sort` driven by a comparator that returns a number, as `Array.prototype.sort`
 * takes one. Each is a function on sequences with the facts the pages rely on.
 */
module Seqs {

  // ---------------------------------------------------------------------------
  // filter
  // ---------------------------------------------------------------------------

  /** `s.filter(p)`: the elements of `s` that satisfy `p`, in their order. */
  function Filter<T>(s: seq<T>, p: T -> bool): (r: seq<T>)
    ensures |r| <= |s|
    ensures forall i :: 0 <= i < |r| ==> p(r[i])
    ensures multiset(r) <= multiset(s)
    ensures forall x :: x in s && p(x) ==> x in r
  {
    if s == [] then []
    else
      assert s == [s[0]] + s[1..];
      if p(s[0]) then [s[0]] + Filter(s[1..], p) else Filter(s[1..], p)
  }

  /** `r` is `s` with some elements left out, the rest in the same order. */
  ghost predicate IsSubsequence<T>(r: seq<T>, s: seq<T>)
    decreases |s|
  {
    r == [] || (s != [] && ((r[0] == s[0] && IsSubsequence(r[1..], s[1..])) || IsSubsequence(r, s[1..])))
  }

  /** `filter` keeps the order of what it keeps. */
  lemma {:induction false} FilterIsSubsequence<T>(s: seq<T>, p: T -> bool)
    ensures IsSubsequence(Filter(s, p), s)
  {
    if s != [] {
      FilterIsSubsequence(s[1..], p);
      if p(s[0]) {
        assert Filter(s, p)[1..] == Filter(s[1..], p);
      }
    }
  }

  /** When every element passes, `filter` returns the whole sequence. */
  lemma {:induction false} FilterAllPass<T>(s: seq<T>, p: T -> bool)
    requires forall i :: 0 <= i < |s| ==> p(s[i])
    ensures Filter(s, p) == s
  {
    if s != [] {
      FilterAllPass(s[1..], p);
      assert [s[0]] + s[1..] == s;
    }
  }

  /** When no element passes, `filter` returns nothing. */
  lemma {:induction false} FilterNonePass<T>(s: seq<T>, p: T -> bool)
    requires forall i :: 0 <= i < |s| ==> !p(s[i])
    ensures Filter(s, p) == []
  {
    if s != [] {
      FilterNonePass(s[1..], p);
    }
  }

  /** Filtering with `p` and then with `q` is filtering with both, so a count over a filtered list is a count over the input. */
  lemma {:induction false} FilterFilter<T>(s: seq<T>, p: T -> bool, q: T -> bool, pq: T -> bool)
    requires forall x :: pq(x) == (p(x) && q(x))
    ensures Filter(Filter(s, p), q) == Filter(s, pq)
  {
    if s != [] {
      FilterFilter(s[1..], p, q, pq);
      if p(s[0]) {
        assert Filter(s, p) == [s[0]] + Filter(s[1..], p);
        assert Filter(s, p)[1..] == Filter(s[1..], p);
      }
    }
  }

  /** Two callbacks that agree everywhere keep the same elements. */
  lemma {:induction false} FilterSamePredicate<T>(s: seq<T>, p: T -> bool, q: T -> bool)
    requires forall x :: p(x) == q(x)
    ensures Filter(s, p) == Filter(s, q)
  {
    if s != [] {
      FilterSamePredicate(s[1..], p, q);
    }
  }

  /** The number of elements that satisfy `p` (the `filter(p).length` idiom). */
  function Count<T>(s: seq<T>, p: T -> bool): nat
  {
    |Filter(s, p)|
  }

  // ---------------------------------------------------------------------------
  // map
  // ---------------------------------------------------------------------------

  /** `s.map(f)`: `f` applied to each element, in place. */
  function Map<T, U>(s: seq<T>, f: T -> U): (r: seq<U>)
    ensures |r| == |s|
    ensures forall i :: 0 <= i < |s| ==> r[i] == f(s[i])
  {
    if s == [] then [] else [f(s[0])] + Map(s[1..], f)
  }

  // ---------------------------------------------------------------------------
  // sort
  // ---------------------------------------------------------------------------

  /**
   * Places `x` in front of the first element of `s` that `cmp` says must
   * come after it, so that equal elements keep their order.
   */
  function Insert<T>(x: T, s: seq<T>, cmp: (T, T) -> int): (r: seq<T>)
    ensures |r| == |s| + 1
    ensures multiset(r) == multiset(s) + multiset{x}
    ensures r[0] == x || (s != [] && r[0] == s[0])
  {
    if s == [] then [x]
    else if cmp(s[0], x) > 0 then [x] + s
    else
      var t := Insert(x, s[1..], cmp);
      assert s == [s[0]] + s[1..];
      [s[0]] + t
  }

  /**
   * `s.sort(cmp)`. The language promises a stable sort whose result is
   * ordered by `cmp` when `cmp` is consistent; a stable insertion sort
   * computes that result. For an inconsistent comparator the language only
   * promises some permutation, and this picks one of them.
   */
  function SortWith<T>(s: seq<T>, cmp: (T, T) -> int): (r: seq<T>)
    ensures |r| == |s|
    ensures multiset(r) == multiset(s)
  {
    if s == [] then []
    else
      var init := s[..|s| - 1];
      assert s == init + [s[|s| - 1]];
      Insert(s[|s| - 1], SortWith(init, cmp), cmp)
  }

  /** Neighbours are in the order `cmp` asks for. */
  ghost predicate SortedBy<T>(s: seq<T>, cmp: (T, T) -> int)
  {
    forall i :: 0 < i < |s| ==> cmp(s[i - 1], s[i]) <= 0
  }

  /** A comparator that never asks for both `a` after `b` and `b` after `a`. */
  ghost predicate Consistent<T(!new)>(cmp: (T, T) -> int)
  {
    forall a, b :: cmp(a, b) > 0 ==> cmp(b, a) <= 0
  }

  /** "No later than" under `cmp` is transitive. */
  ghost predicate Transitive<T(!new)>(cmp: (T, T) -> int)
  {
    forall a, b, c :: cmp(a, b) <= 0 && cmp(b, c) <= 0 ==> cmp(a, c) <= 0
  }

  /** A comparator that never asks to move anything (`default: return 0`). */
  ghost predicate NeverReorders<T(!new)>(cmp: (T, T) -> int)
  {
    forall a, b :: cmp(a, b) <= 0
  }

  lemma {:induction false} InsertSorted<T(!new)>(x: T, s: seq<T>, cmp: (T, T) -> int)
    requires Consistent(cmp) && SortedBy(s, cmp)
    ensures SortedBy(Insert(x, s, cmp), cmp)
  {
    if s != [] && cmp(s[0], x) <= 0 {
      var t := s[1..];
      assert SortedBy(t, cmp) by {
        forall i | 0 < i < |t| ensures cmp(t[i - 1], t[i]) <= 0 {
          assert t[i - 1] == s[i] && t[i] == s[i + 1];
        }
      }
      InsertSorted(x, t, cmp);
      var r := Insert(x, s, cmp);
      assert r == [s[0]] + Insert(x, t, cmp);
      forall i | 0 < i < |r| ensures cmp(r[i - 1], r[i]) <= 0 {
        if i == 1 {
          if t != [] {
            assert cmp(s[0], t[0]) <= 0 by { assert s[1] == t[0]; }
          }
        } else {
          assert r[i - 1] == Insert(x, t, cmp)[i - 2] && r[i] == Insert(x, t, cmp)[i - 1];
        }
      }
    }
  }

  /** With a consistent comparator the result of `sort` is in order. */
  lemma {:induction false} SortWithSorted<T(!new)>(s: seq<T>, cmp: (T, T) -> int)
    requires Consistent(cmp)
    ensures SortedBy(SortWith(s, cmp), cmp)
  {
    if s != [] {
      SortWithSorted(s[..|s| - 1], cmp);
      InsertSorted(s[|s| - 1], SortWith(s[..|s| - 1], cmp), cmp);
    }
  }

  /** In a sequence sorted by a transitive comparator every earlier element comes no later than every later one. */
  lemma {:induction false} SortedAllPairs<T(!new)>(s: seq<T>, cmp: (T, T) -> int)
    requires SortedBy(s, cmp) && Transitive(cmp)
    ensures forall i, j :: 0 <= i < j < |s| ==> cmp(s[i], s[j]) <= 0
  {
    forall i, j | 0 <= i < j < |s| ensures cmp(s[i], s[j]) <= 0 {
      var k := i + 1;
      while k < j
        invariant i < k <= j
        invariant cmp(s[i], s[k]) <= 0
      {
        assert cmp(s[k], s[k + 1]) <= 0;
        k := k + 1;
      }
    }
  }

  /** A comparator that never asks to move anything leaves the sequence as it is. */
  lemma {:induction false} SortWithKeepsOrder<T(!new)>(s: seq<T>, cmp: (T, T) -> int)
    requires NeverReorders(cmp)
    ensures SortWith(s, cmp) == s
  {
    if s != [] {
      var init := s[..|s| - 1];
      SortWithKeepsOrder(init, cmp);
      InsertAtEnd(s[|s| - 1], init, cmp);
      assert init + [s[|s| - 1]] == s;
    }
  }

  lemma {:induction false} InsertAtEnd<T(!new)>(x: T, s: seq<T>, cmp: (T, T) -> int)
    requires NeverReorders(cmp)
    ensures Insert(x, s, cmp) == s + [x]
  {
    if s != [] {
      InsertAtEnd(x, s[1..], cmp);
      assert [s[0]] + (s[1..] + [x]) == s + [x];
    }
  }

  // ---------------------------------------------------------------------------
  // slice
  // ---------------------------------------------------------------------------

  /** `s.slice(0, n)`. */
  function Take<T>(s: seq<T>, n: nat): (r: seq<T>)
    ensures |r| == if |s| <= n then |s| else n
    ensures r == s[..|r|]
  {
    if |s| <= n then s else s[..n]
  }
}
