/**
 * Array operations the portal relies on: `filter`, `filter(..).length`,
 * `slice(0, n)` and a stable `sort` with a comparator.
 */
module Seqs {
  import opened Wrappers

  /** `s.filter(p)`: the elements satisfying `p`, in their original order. */
  function Filter<T>(p: T -> bool, s: seq<T>): (r: seq<T>)
    ensures |r| <= |s|
    ensures forall i :: 0 <= i < |r| ==> p(r[i])
    decreases |s|
  {
    if s == [] then [] else (if p(s[0]) then [s[0]] else []) + Filter(p, s[1..])
  }

  /** `a` is obtained from `b` by deleting elements, keeping the order of the rest. */
  ghost predicate IsSubsequence<T>(a: seq<T>, b: seq<T>)
    decreases |b|
  {
    if b == [] then a == []
    else (a != [] && a[0] == b[0] && IsSubsequence(a[1..], b[1..])) || IsSubsequence(a, b[1..])
  }

  lemma {:induction false} FilterMembership<T>(p: T -> bool, s: seq<T>)
    ensures forall x :: x in Filter(p, s) <==> x in s && p(x)
    decreases |s|
  {
    if s != [] {
      FilterMembership(p, s[1..]);
      assert s == [s[0]] + s[1..];
    }
  }

  lemma {:induction false} FilterAppend<T>(p: T -> bool, a: seq<T>, b: seq<T>)
    ensures Filter(p, a + b) == Filter(p, a) + Filter(p, b)
    decreases |a|
  {
    if a == [] {
      assert a + b == b;
    } else {
      assert (a + b)[1..] == a[1..] + b;
      FilterAppend(p, a[1..], b);
    }
  }

  /** Filtering `s + [x]` adds `x` at the end exactly when it satisfies `p`. */
  lemma FilterSnoc<T>(p: T -> bool, s: seq<T>, x: T)
    ensures Filter(p, s + [x]) == Filter(p, s) + (if p(x) then [x] else [])
  {
    FilterAppend(p, s, [x]);
    assert Filter(p, [x]) == (if p(x) then [x] else []) + Filter(p, []);
  }

  lemma {:induction false} FilterKeepsAll<T>(p: T -> bool, s: seq<T>)
    requires forall i :: 0 <= i < |s| ==> p(s[i])
    ensures Filter(p, s) == s
    decreases |s|
  {
    if s != [] {
      FilterKeepsAll(p, s[1..]);
    }
  }

  lemma {:induction false} FilterKeepsNone<T>(p: T -> bool, s: seq<T>)
    requires forall i :: 0 <= i < |s| ==> !p(s[i])
    ensures Filter(p, s) == []
    decreases |s|
  {
    if s != [] {
      FilterKeepsNone(p, s[1..]);
    }
  }

  /** Two predicates that agree everywhere filter alike. */
  lemma {:induction false} FilterExtensional<T>(p: T -> bool, q: T -> bool, s: seq<T>)
    requires forall x :: p(x) == q(x)
    ensures Filter(p, s) == Filter(q, s)
    decreases |s|
  {
    if s != [] {
      FilterExtensional(p, q, s[1..]);
    }
  }

  /** A filter's result is a subsequence of its input: order is preserved. */
  lemma {:induction false} FilterIsSubsequence<T>(p: T -> bool, s: seq<T>)
    ensures IsSubsequence(Filter(p, s), s)
    decreases |s|
  {
    if s != [] {
      FilterIsSubsequence(p, s[1..]);
      if p(s[0]) {
        assert Filter(p, s) == [s[0]] + Filter(p, s[1..]);
      } else {
        assert Filter(p, s) == Filter(p, s[1..]);
      }
    }
  }

  /** Filtering by `p` and by its complement splits the input into its two parts. */
  lemma {:induction false} FilterComplementCount<T>(p: T -> bool, q: T -> bool, s: seq<T>)
    requires forall x :: q(x) == !p(x)
    ensures |Filter(p, s)| + |Filter(q, s)| == |s|
    decreases |s|
  {
    if s != [] {
      FilterComplementCount(p, q, s[1..]);
    }
  }

  /** Filtering by two predicates no element satisfies together keeps at most the input in all. */
  lemma {:induction false} FilterDisjointCount<T>(p: T -> bool, q: T -> bool, s: seq<T>)
    requires forall x :: !(p(x) && q(x))
    ensures |Filter(p, s)| + |Filter(q, s)| <= |s|
    decreases |s|
  {
    if s != [] {
      FilterDisjointCount(p, q, s[1..]);
    }
  }

  lemma {:induction false} FilterComplementMultiset<T>(p: T -> bool, q: T -> bool, s: seq<T>)
    requires forall x :: q(x) == !p(x)
    ensures multiset(Filter(p, s)) + multiset(Filter(q, s)) == multiset(s)
    decreases |s|
  {
    if s != [] {
      FilterComplementMultiset(p, q, s[1..]);
      assert s == [s[0]] + s[1..];
    }
  }

  /** The filter is non-empty exactly when some element satisfies the predicate. */
  lemma FilterNonEmpty<T>(p: T -> bool, s: seq<T>)
    ensures |Filter(p, s)| > 0 <==> exists x :: x in s && p(x)
  {
    FilterMembership(p, s);
    if |Filter(p, s)| > 0 {
      assert Filter(p, s)[0] in Filter(p, s);
    }
  }

  /** `s.slice(0, n)`. */
  function Take<T>(s: seq<T>, n: nat): (r: seq<T>)
    ensures r <= s
    ensures |r| == if |s| < n then |s| else n
  {
    if |s| < n then s else s[..n]
  }

  /** `list?.filter(p).length || 0`: the number of matches, 0 while the list is not there. */
  function CountWhere<T>(p: T -> bool, list: Option<seq<T>>): (n: nat)
    ensures n > 0 <==> list.Some? && exists x :: x in list.value && p(x)
    ensures list.Some? ==> n <= |list.value|
  {
    if list.None? then 0 else
      FilterNonEmpty(p, list.value);
      |Filter(p, list.value)|
  }

  /**
   * `list && list.length > 0 ? list.slice(0, n) : <empty state>`: a non-empty
   * prefix of at most `n` elements, or `None` when there is nothing to show.
   */
  function Preview<T>(list: Option<seq<T>>, n: nat): (r: Option<seq<T>>)
    requires n > 0
    ensures r.None? <==> list.None? || list.value == []
    ensures r.Some? ==> r.value != [] && r.value <= list.value && |r.value| <= n
    ensures r.Some? && |list.value| >= n ==> |r.value| == n
    ensures r.Some? && |list.value| < n ==> r.value == list.value
  {
    if list.Some? && |list.value| > 0 then Some(Take(list.value, n)) else None
  }

  /**
   * One step of a stable insertion sort: `x` goes after every element of
   * `sorted` that does not compare greater than it.
   */
  function InsertStable<T>(cmp: (T, T) -> int, sorted: seq<T>, x: T): seq<T>
    decreases |sorted|
  {
    if sorted == [] then [x]
    else if cmp(sorted[|sorted| - 1], x) > 0 then InsertStable(cmp, sorted[..|sorted| - 1], x) + [sorted[|sorted| - 1]]
    else sorted + [x]
  }

  /** `[...s].sort(cmp)`: a stable sort, so elements comparing equal keep their order. */
  function StableSort<T>(cmp: (T, T) -> int, s: seq<T>): seq<T>
    decreases |s|
  {
    if s == [] then [] else InsertStable(cmp, StableSort(cmp, s[..|s| - 1]), s[|s| - 1])
  }

  /** Inserting `x` skips exactly the trailing block of elements greater than it. */
  lemma {:induction false} InsertStableAfter<T>(cmp: (T, T) -> int, a: seq<T>, b: seq<T>, x: T)
    requires a == [] || cmp(a[|a| - 1], x) <= 0
    requires forall i :: 0 <= i < |b| ==> cmp(b[i], x) > 0
    ensures InsertStable(cmp, a + b, x) == a + [x] + b
    decreases |b|
  {
    if b == [] {
      assert a + b == a;
    } else {
      var s := a + b;
      var b' := b[..|b| - 1];
      assert s[|s| - 1] == b[|b| - 1];
      assert s[..|s| - 1] == a + b';
      InsertStableAfter(cmp, a, b', x);
      assert b == b' + [b[|b| - 1]];
    }
  }
}
