/**
 * The painter's order of pointcloud: the point indices sorted by view-space depth, farthest
 * first (numpy's argsort of the depths, reversed).
 */
module Painter {

  /** The indices 0 .. n-1 in order. */
  function Iota(n: nat): (r: seq<nat>)
    ensures |r| == n && forall k :: 0 <= k < n ==> r[k] == k
  {
    if n == 0 then [] else Iota(n - 1) + [n - 1]
  }

  /** Every index of s is a valid index of zs. */
  predicate Indexes(s: seq<nat>, n: nat) {
    forall k :: 0 <= k < |s| ==> s[k] < n
  }

  /** Along s the depths never increase: farther points come first. */
  predicate DescendingBy(zs: seq<real>, s: seq<nat>)
    requires Indexes(s, |zs|)
  {
    forall a, b :: 0 <= a < b < |s| ==> zs[s[a]] >= zs[s[b]]
  }

  /** Inserts index i into s, which is descending by depth, ahead of the first index no deeper than i. */
  function Insert(zs: seq<real>, i: nat, s: seq<nat>): (r: seq<nat>)
    requires i < |zs| && Indexes(s, |zs|) && DescendingBy(zs, s)
    ensures Indexes(r, |zs|) && DescendingBy(zs, r)
    ensures multiset(r) == multiset(s) + multiset{i}
    ensures |r| == |s| + 1 && (r[0] == i || (s != [] && r[0] == s[0]))
  {
    if s == [] || zs[s[0]] <= zs[i] then
      var one: seq<nat> := [i];
      Prepend(zs, i, s);
      one + s
    else
      var head: seq<nat> := [s[0]];
      var rest := Insert(zs, i, s[1..]);
      assert s == head + s[1..];
      Prepend(zs, s[0], rest);
      head + rest
  }

  /** Putting an index no shallower than the first in front keeps the order descending. */
  lemma Prepend(zs: seq<real>, x: nat, t: seq<nat>)
    requires x < |zs| && Indexes(t, |zs|) && DescendingBy(zs, t)
    requires t != [] ==> zs[t[0]] <= zs[x]
    ensures Indexes([x] + t, |zs|) && DescendingBy(zs, [x] + t)
  {
    var r: seq<nat> := [x] + t;
    assert forall b :: 0 < b < |r| ==> r[b] == t[b - 1];
    assert forall b :: 0 < b < |r| ==> zs[r[b]] <= zs[t[0]];
  }

  /** The first n indices sorted by decreasing depth (insertion sort). */
  function SortPrefix(zs: seq<real>, n: nat): (r: seq<nat>)
    requires n <= |zs|
    ensures |r| == n && Indexes(r, |zs|) && DescendingBy(zs, r)
    ensures multiset(r) == multiset(Iota(n))
  {
    if n == 0 then []
    else
      var r := Insert(zs, n - 1, SortPrefix(zs, n - 1));
      assert Iota(n) == Iota(n - 1) + [n - 1];
      r
  }

  /** argsort()[::-1]: all indices of zs, farthest first. */
  function ArgsortDescending(zs: seq<real>): (s: seq<nat>)
    ensures |s| == |zs| && Indexes(s, |zs|) && DescendingBy(zs, s)
    ensures multiset(s) == multiset(Iota(|zs|))
  {
    SortPrefix(zs, |zs|)
  }

  /** Applying s to a sequence: numpy's fancy indexing a[s]. */
  function Permute<T>(a: seq<T>, s: seq<nat>): (r: seq<T>)
    requires Indexes(s, |a|)
    ensures |r| == |s| && forall k :: 0 <= k < |s| ==> r[k] == a[s[k]]
  {
    seq(|s|, k requires 0 <= k < |s| => a[s[k]])
  }

  /** A permutation of 0 .. n-1 visits every index exactly once. */
  lemma {:induction false} PermutationVisitsAll(s: seq<nat>, n: nat)
    requires multiset(s) == multiset(Iota(n))
    ensures |s| == n
    ensures forall i :: 0 <= i < n ==> multiset(s)[i] == 1
    ensures Indexes(s, n)
  {
    assert |s| == |multiset(s)| == |multiset(Iota(n))| == |Iota(n)|;
    forall i | 0 <= i < n
      ensures multiset(s)[i] == 1
    {
      IotaCounts(n, i);
    }
    forall k | 0 <= k < |s|
      ensures s[k] < n
    {
      assert s[k] in multiset(s);
      assert s[k] in multiset(Iota(n));
      assert s[k] in Iota(n);
    }
  }

  lemma {:induction false} IotaCounts(n: nat, i: nat)
    requires i < n
    ensures multiset(Iota(n))[i] == 1
  {
    var before: seq<nat>, last: seq<nat> := Iota(n - 1), [n - 1];
    assert Iota(n) == before + last;
    assert multiset(Iota(n))[i] == multiset(before)[i] + multiset(last)[i];
    if i < n - 1 {
      IotaCounts(n - 1, i);
    } else {
      assert i !in before;
    }
  }
}
