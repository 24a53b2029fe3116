/**
 * Sequence operations the services use: an order-preserving filter (list
 * comprehensions and append loops), Python's `list.remove` (first occurrence),
 * and removing a list of values one after the other.
 */
module Seqs {

  /** The elements of `s` that satisfy `p`, in their order in `s`. */
  function Filter<T(==)>(s: seq<T>, p: T -> bool): (r: seq<T>)
    ensures |r| <= |s|
  {
    if s == [] then []
    else
      var init, last := s[..|s| - 1], s[|s| - 1];
      Filter(init, p) + (if p(last) then [last] else [])
  }

  /**
   * The filter keeps exactly the elements that pass: everything it returns is
   * from `s` and passes, every passing element of `s` is returned, and no
   * element is returned more often than it occurs.
   */
  lemma {:induction false} FilterSpec<T>(s: seq<T>, p: T -> bool)
    ensures forall i :: 0 <= i < |Filter(s, p)| ==> Filter(s, p)[i] in s && p(Filter(s, p)[i])
    ensures forall i :: 0 <= i < |s| && p(s[i]) ==> s[i] in Filter(s, p)
    ensures multiset(Filter(s, p)) <= multiset(s)
  {
    if s != [] {
      var init, last := s[..|s| - 1], s[|s| - 1];
      assert s == init + [last];
      FilterSpec(init, p);
      var r := Filter(s, p);
      assert r == Filter(init, p) + (if p(last) then [last] else []);
      forall i | 0 <= i < |s| && p(s[i]) ensures s[i] in r {
        if i < |init| {
          assert init[i] == s[i];
        }
      }
    }
  }

  /** An element is kept exactly when it occurs in `s` and passes. */
  lemma FilterIn<T>(s: seq<T>, p: T -> bool)
    ensures forall x :: x in Filter(s, p) <==> x in s && p(x)
  {
    FilterSpec(s, p);
    forall x | x in s && p(x) ensures x in Filter(s, p) {
      var i :| 0 <= i < |s| && s[i] == x;
    }
  }

  function Not<T>(p: T -> bool): T -> bool {
    x => !p(x)
  }

  /** Filtering distributes over concatenation: the filter keeps the order of its input. */
  lemma {:induction false} FilterAppend<T>(a: seq<T>, b: seq<T>, p: T -> bool)
    ensures Filter(a + b, p) == Filter(a, p) + Filter(b, p)
  {
    if b == [] {
      assert a + b == a;
    } else {
      var init, last := b[..|b| - 1], b[|b| - 1];
      assert (a + b)[..|a + b| - 1] == a + init;
      assert (a + b)[|a + b| - 1] == last;
      FilterAppend(a, init, p);
      var tail := if p(last) then [last] else [];
      calc {
        Filter(a + b, p);
        Filter(a + init, p) + tail;
        Filter(a, p) + Filter(init, p) + tail;
        Filter(a, p) + Filter(b, p);
      }
    }
  }

  /** Filtering a list extended by one element: the kept prefix, then the element if it passes. */
  lemma FilterSnoc<T>(s: seq<T>, x: T, p: T -> bool)
    ensures Filter(s + [x], p) == Filter(s, p) + (if p(x) then [x] else [])
  {
    assert (s + [x])[..|s|] == s;
  }

  lemma FilterSingleton<T>(x: T, p: T -> bool)
    ensures Filter([x], p) == if p(x) then [x] else []
  {
    assert [x][..0] == [];
  }

  lemma FilterCons<T>(x: T, s: seq<T>, p: T -> bool)
    ensures Filter([x] + s, p) == (if p(x) then [x] else []) + Filter(s, p)
  {
    FilterAppend([x], s, p);
    FilterSingleton(x, p);
  }

  /** Filtering twice with the same predicate is filtering once. */
  lemma {:induction false} FilterIdempotent<T>(s: seq<T>, p: T -> bool)
    ensures Filter(Filter(s, p), p) == Filter(s, p)
  {
    if s != [] {
      var init, last := s[..|s| - 1], s[|s| - 1];
      FilterIdempotent(init, p);
      FilterAppend(Filter(init, p), if p(last) then [last] else [], p);
      if p(last) {
        FilterSingleton(last, p);
      }
    }
  }

  /** Two predicates that agree on the elements of `s` filter it alike. */
  lemma {:induction false} FilterExt<T>(s: seq<T>, p: T -> bool, q: T -> bool)
    requires forall x :: x in s ==> p(x) == q(x)
    ensures Filter(s, p) == Filter(s, q)
  {
    if s != [] {
      FilterExt(s[..|s| - 1], p, q);
    }
  }

  /** A filter that every element passes returns its input. */
  lemma {:induction false} FilterAll<T>(s: seq<T>, p: T -> bool)
    requires forall x :: x in s ==> p(x)
    ensures Filter(s, p) == s
  {
    if s != [] {
      var init := s[..|s| - 1];
      assert s == init + [s[|s| - 1]];
      FilterAll(init, p);
    }
  }

  /** A filter that no element passes returns nothing. */
  lemma {:induction false} FilterNone<T>(s: seq<T>, p: T -> bool)
    requires forall x :: x in s ==> !p(x)
    ensures Filter(s, p) == []
  {
    if s != [] {
      var init := s[..|s| - 1];
      assert s == init + [s[|s| - 1]];
      FilterNone(init, p);
    }
  }

  /** Python's `list.remove(x)`: drop the first occurrence of `x` (it must be present). */
  function RemoveFirst<T(==)>(s: seq<T>, x: T): (r: seq<T>)
    requires x in s
    ensures |r| == |s| - 1
    ensures multiset(r) == multiset(s) - multiset{x}
  {
    if s[0] == x then
      assert s == [s[0]] + s[1..];
      s[1..]
    else
      assert s == [s[0]] + s[1..];
      [s[0]] + RemoveFirst(s[1..], x)
  }

  /** `for x in xs: s.remove(x)`: every value of `xs` must still be present when its turn comes. */
  function RemoveEach<T(==)>(s: seq<T>, xs: seq<T>): (r: seq<T>)
    requires multiset(xs) <= multiset(s)
    ensures |r| == |s| - |xs|
    ensures multiset(r) == multiset(s) - multiset(xs)
  {
    if xs == [] then s
    else
      var init, last := xs[..|xs| - 1], xs[|xs| - 1];
      assert xs == init + [last];
      var rest := RemoveEach(s, init);
      assert last in multiset(rest);
      RemoveFirst(rest, last)
  }

  /** The list after the first `k` removals of `for x in xs: s.remove(x)`. */
  function RemovePrefix<T(==)>(s: seq<T>, xs: seq<T>, k: nat): (r: seq<T>)
    requires multiset(xs) <= multiset(s)
    requires k <= |xs|
    ensures k == |xs| ==> r == RemoveEach(s, xs)
  {
    assert xs == xs[..k] + xs[k..];
    assert multiset(xs) == multiset(xs[..k]) + multiset(xs[k..]);
    assert xs[..|xs|] == xs;
    RemoveEach(s, xs[..k])
  }

  /** One step of `for x in xs: s.remove(x)`: the next value is still present, and removing it extends the run. */
  lemma RemoveEachStep<T>(s: seq<T>, xs: seq<T>, k: nat)
    requires multiset(xs) <= multiset(s)
    requires k < |xs|
    ensures xs[k] in RemovePrefix(s, xs, k)
    ensures RemovePrefix(s, xs, k + 1) == RemoveFirst(RemovePrefix(s, xs, k), xs[k])
  {
    var pre, next := xs[..k], xs[..k + 1];
    assert xs == next + xs[k + 1..];
    assert multiset(xs) == multiset(next) + multiset(xs[k + 1..]);
    assert next == pre + [xs[k]];
    assert multiset(next) == multiset(pre) + multiset{xs[k]};
    assert next[..|next| - 1] == pre;
    var rest := RemoveEach(s, pre);
    assert multiset(rest) == multiset(s) - multiset(pre);
    assert xs[k] in multiset(rest);
  }

  lemma {:induction false} RemoveFirstAppend<T>(t: seq<T>, a: T, x: T)
    requires x in t
    ensures RemoveFirst(t + [a], x) == RemoveFirst(t, x) + [a]
  {
    if t[0] != x {
      assert (t + [a])[1..] == t[1..] + [a];
      RemoveFirstAppend(t[1..], a, x);
    } else {
      assert (t + [a])[1..] == t[1..] + [a];
    }
  }

  lemma {:induction false} RemoveFirstLast<T>(u: seq<T>, a: T)
    requires a !in u
    ensures RemoveFirst(u + [a], a) == u
  {
    if u != [] {
      assert (u + [a])[1..] == u[1..] + [a];
      RemoveFirstLast(u[1..], a);
      assert u == [u[0]] + u[1..];
    }
  }

  /** Removing values that all occur in `t` never touches an element appended after `t`. */
  lemma {:induction false} RemoveEachAppend<T>(t: seq<T>, a: T, xs: seq<T>)
    requires multiset(xs) <= multiset(t)
    ensures RemoveEach(t + [a], xs) == RemoveEach(t, xs) + [a]
  {
    if xs != [] {
      var init, last := xs[..|xs| - 1], xs[|xs| - 1];
      assert xs == init + [last];
      assert multiset(init) <= multiset(xs);
      RemoveEachAppend(t, a, init);
      var rest := RemoveEach(t, init);
      assert last in multiset(rest);
      RemoveFirstAppend(rest, a, last);
      calc {
        RemoveEach(t + [a], xs);
        RemoveFirst(RemoveEach(t + [a], init), last);
        RemoveFirst(rest + [a], last);
        RemoveFirst(rest, last) + [a];
        RemoveEach(t, xs) + [a];
      }
    }
  }

  /**
   * Removing, one by one, each element of `s` that satisfies `p` leaves exactly
   * the elements that do not, in their order: repeated `list.remove` of a
   * filtered copy is an order-preserving filter.
   */
  lemma {:induction false} RemoveEachFilter<T>(s: seq<T>, p: T -> bool)
    ensures multiset(Filter(s, p)) <= multiset(s)
    ensures RemoveEach(s, Filter(s, p)) == Filter(s, Not(p))
  {
    FilterSpec(s, p);
    if s != [] {
      var init, last := s[..|s| - 1], s[|s| - 1];
      assert s == init + [last];
      RemoveEachFilter(init, p);
      FilterSpec(init, Not(p));
      var kept, left := Filter(init, p), Filter(init, Not(p));
      RemoveEachAppend(init, last, kept);
      assert RemoveEach(s, kept) == left + [last];
      if p(last) {
        assert Filter(s, p) == kept + [last];
        assert Filter(s, Not(p)) == left;
        assert last !in left;
        RemoveFirstLast(left, last);
        assert (kept + [last])[..|kept + [last]| - 1] == kept;
        calc {
          RemoveEach(s, kept + [last]);
          RemoveFirst(RemoveEach(s, kept), last);
          RemoveFirst(left + [last], last);
          left;
        }
      } else {
        assert Filter(s, p) == kept;
        assert Filter(s, Not(p)) == left + [last];
      }
    }
  }

  /** The entities `m` holds for the keys `ids`, in the order of `ids`. */
  function Lookup<K, V>(ids: seq<K>, m: map<K, V>): (r: seq<V>)
    requires forall k :: k in ids ==> k in m
    ensures |r| == |ids|
    ensures forall i :: 0 <= i < |ids| ==> r[i] == m[ids[i]]
  {
    if ids == [] then []
    else
      var init := ids[..|ids| - 1];
      assert forall k :: k in init ==> k in ids;
      Lookup(init, m) + [m[ids[|ids| - 1]]]
  }

  lemma LookupSnoc<K, V>(ids: seq<K>, x: K, m: map<K, V>)
    requires forall k :: k in ids ==> k in m
    requires x in m
    ensures Lookup(ids + [x], m) == Lookup(ids, m) + [m[x]]
  {
    assert (ids + [x])[..|ids|] == ids;
  }
}
