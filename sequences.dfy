/**
 * Generic facts about sequences used by the evaluator: `Array.prototype.flat`,
 * `splice(x, 1)`, picking elements by a list of positions, and a counting
 * bound on lists of distinct positions.
 */
module Sequences {

  /** `groups.flat()`: the groups' elements, in order. */
  function Flatten<T>(groups: seq<seq<T>>): (r: seq<T>)
    ensures |groups| == 0 ==> r == []
  {
    if groups == [] then [] else Flatten(groups[..|groups| - 1]) + groups[|groups| - 1]
  }

  lemma FlattenPush<T>(groups: seq<seq<T>>, g: seq<T>)
    ensures Flatten(groups + [g]) == Flatten(groups) + g
  {
    assert (groups + [g])[..|groups|] == groups;
  }

  lemma {:induction false} FlattenAppend<T>(a: seq<seq<T>>, b: seq<seq<T>>)
    ensures Flatten(a + b) == Flatten(a) + Flatten(b)
    decreases |b|
  {
    if b == [] {
      assert a + b == a;
    } else {
      var b' := b[..|b| - 1];
      assert a + b == (a + b') + [b[|b| - 1]];
      assert b == b' + [b[|b| - 1]];
      FlattenPush(a + b', b[|b| - 1]);
      FlattenPush(b', b[|b| - 1]);
      FlattenAppend(a, b');
    }
  }

  /** `s.splice(x, 1)`: `s` without its element at position `x`. */
  function RemoveAt<T>(s: seq<T>, x: nat): (r: seq<T>)
    requires x < |s|
    ensures |r| == |s| - 1
    ensures multiset(r) + multiset{s[x]} == multiset(s)
    ensures forall y :: 0 <= y < x ==> r[y] == s[y]
    ensures forall y :: x <= y < |r| ==> r[y] == s[y + 1]
  {
    assert s == s[..x] + [s[x]] + s[x + 1..];
    s[..x] + s[x + 1..]
  }

  /** No value occurs twice. */
  predicate Distinct(xs: seq<nat>) {
    forall a, b :: 0 <= a < b < |xs| ==> xs[a] != xs[b]
  }

  predicate AllBelow(xs: seq<nat>, m: nat) {
    forall a :: 0 <= a < |xs| ==> xs[a] < m
  }

  /** The elements of `t` at the positions `idx`, in the order of `idx`. */
  function Pick<T>(t: seq<T>, idx: seq<nat>): (r: seq<T>)
    requires AllBelow(idx, |t|)
    ensures |r| == |idx|
    ensures forall a :: 0 <= a < |idx| ==> r[a] == t[idx[a]]
  {
    seq(|idx|, a requires 0 <= a < |idx| => t[idx[a]])
  }

  /** Removing a position keeps a list of positions distinct and below the same bound. */
  lemma RemoveAtDistinct(xs: seq<nat>, q: nat, m: nat)
    requires q < |xs| && Distinct(xs) && AllBelow(xs, m)
    ensures Distinct(RemoveAt(xs, q)) && AllBelow(RemoveAt(xs, q), m)
    ensures forall a :: 0 <= a < |RemoveAt(xs, q)| ==> RemoveAt(xs, q)[a] != xs[q]
  {
    var r := RemoveAt(xs, q);
    forall a, b | 0 <= a < b < |r|
      ensures r[a] != r[b]
    {
      var a' := if a < q then a else a + 1;
      var b' := if b < q then b else b + 1;
      assert r[a] == xs[a'] && r[b] == xs[b'] && a' < b';
    }
    forall a | 0 <= a < |r|
      ensures r[a] != xs[q]
    {
      var a' := if a < q then a else a + 1;
      assert r[a] == xs[a'] && a' != q;
    }
  }

  /** Pigeonhole: a list of distinct naturals below `m` has at most `m` elements. */
  lemma {:induction false} DistinctBelowBound(xs: seq<nat>, m: nat)
    requires Distinct(xs) && AllBelow(xs, m)
    ensures |xs| <= m
    decreases m
  {
    if |xs| == 0 {
    } else if q :| 0 <= q < |xs| && xs[q] == m - 1 {
      var r := RemoveAt(xs, q);
      RemoveAtDistinct(xs, q, m);
      assert AllBelow(r, m - 1);
      DistinctBelowBound(r, m - 1);
    } else {
      assert xs[0] < m;
      assert AllBelow(xs, m - 1);
      DistinctBelowBound(xs, m - 1);
    }
  }

  /**
   * Picking every position of `t` exactly once, in any order, yields a
   * permutation of `t`.
   */
  lemma {:induction false} PickAllIsPermutation<T>(t: seq<T>, idx: seq<nat>)
    requires |idx| == |t| && Distinct(idx) && AllBelow(idx, |t|)
    ensures multiset(Pick(t, idx)) == multiset(t)
    decreases |t|
  {
    if |t| > 0 {
      var n := |t| - 1;
      if q :| 0 <= q < |idx| && idx[q] == n {
        var rest := RemoveAt(idx, q);
        RemoveAtDistinct(idx, q, |t|);
        assert AllBelow(rest, n);
        PickAllIsPermutation(t[..n], rest);
        var all := Pick(t, idx);
        assert Pick(t[..n], rest) == RemoveAt(all, q);
        assert all[q] == t[n];
        assert t == t[..n] + [t[n]];
      } else {
        assert AllBelow(idx, n);
        DistinctBelowBound(idx, n);
      }
    }
  }

  /** Appending `t` to one group adds exactly `t` to the flattened multiset. */
  lemma FlattenExtendGroup<T>(groups: seq<seq<T>>, x: nat, t: T)
    requires x < |groups|
    ensures multiset(Flatten(groups[x := groups[x] + [t]])) == multiset(Flatten(groups)) + multiset{t}
  {
    var before, after := groups[..x], groups[x + 1..];
    var h := groups[x] + [t];
    assert groups == before + [groups[x]] + after;
    assert groups[x := h] == before + [h] + after;
    FlattenAppend(before + [groups[x]], after);
    FlattenAppend(before + [h], after);
    FlattenPush(before, groups[x]);
    FlattenPush(before, h);
    assert Flatten(groups[x := h]) == Flatten(before) + groups[x] + [t] + Flatten(after);
    assert Flatten(groups) == Flatten(before) + groups[x] + Flatten(after);
  }
}
