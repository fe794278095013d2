/** Sequence operations shared by the arrays of the node. */
module Seqs {
  import opened Types

  /** The array after moving elements k+1..n one place down; the slot n-1 keeps its old content. */
  function ShiftDown<T>(xs: seq<T>, k: nat, n: nat): (r: seq<T>)
    requires k < n <= |xs|
    ensures |r| == |xs|
    ensures forall i :: 0 <= i < |r| ==> r[i] == if k <= i < n - 1 then xs[i + 1] else xs[i]
  {
    xs[..k] + xs[k + 1..n] + xs[n - 1..]
  }

  function RemoveAt<T>(xs: seq<T>, k: nat): (r: seq<T>)
    requires k < |xs|
    ensures |r| == |xs| - 1
    ensures forall i :: 0 <= i < |r| ==> r[i] == if i < k then xs[i] else xs[i + 1]
    ensures forall x :: x in r ==> x in xs
  {
    xs[..k] + xs[k + 1..]
  }

  /** The least index whose element satisfies p. */
  function First<T>(xs: seq<T>, p: T -> bool): (r: Option<nat>)
    ensures r.Some? ==> r.value < |xs| && p(xs[r.value]) && forall i :: 0 <= i < r.value ==> !p(xs[i])
    ensures r.None? ==> forall i :: 0 <= i < |xs| ==> !p(xs[i])
  {
    if xs == [] then None
    else
      var r := First(xs[..|xs| - 1], p);
      if r.Some? then r
      else if p(xs[|xs| - 1]) then Some(|xs| - 1) else None
  }

  lemma {:induction false} FirstIs<T>(xs: seq<T>, p: T -> bool, i: nat)
    requires i < |xs| && p(xs[i]) && forall j :: 0 <= j < i ==> !p(xs[j])
    ensures First(xs, p) == Some(i)
  {
    var r := First(xs, p).value;
    assert r == i;
  }

  lemma FirstNone<T>(xs: seq<T>, p: T -> bool)
    requires forall j :: 0 <= j < |xs| ==> !p(xs[j])
    ensures First(xs, p) == None
  {
  }

  /** The first n entries are a permutation of 0..n. */
  ghost predicate Perm(xs: seq<nat>, n: nat) {
    && n <= |xs|
    && (forall i :: 0 <= i < n ==> xs[i] < n)
    && (forall i, j :: 0 <= i < j < n ==> xs[i] != xs[j])
  }

  function Range(n: nat): (r: set<nat>)
    ensures |r| == n
    ensures forall x: nat :: x in r <==> x < n
  {
    if n == 0 then {} else Range(n - 1) + {n - 1}
  }

  /** A repetition-free sequence with values in a set is no longer than the set. */
  lemma {:induction false} Pigeonhole<T>(xs: seq<T>, box: set<T>)
    requires Distinct(xs)
    requires forall i :: 0 <= i < |xs| ==> xs[i] in box
    ensures |xs| <= |box|
    ensures |xs| == |box| ==> forall x :: x in box ==> x in xs
  {
    if xs == [] {
    } else {
      var n := |xs| - 1;
      Pigeonhole(xs[..n], box - {xs[n]});
      assert xs == xs[..n] + [xs[n]];
    }
  }

  /** A permutation hits every value. */
  lemma PermHits(xs: seq<nat>, n: nat, v: nat) returns (p: nat)
    requires Perm(xs, n) && v < n
    ensures p < n && xs[p] == v
  {
    Pigeonhole(xs[..n], Range(n));
    assert v in xs[..n];
    p :| p < n && xs[..n][p] == v;
  }
}
