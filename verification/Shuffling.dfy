/** What the random numbers can do to the ring: every order can come out of the shuffle, every place can be drawn. */
module Shuffling {
  import opened Types
  import opened Seqs
  import opened Tables

  /** The shuffle reads only the numbers it has not read yet. */
  lemma {:induction false} ShuffleReads(r: nat -> nat, q: nat -> nat, xs: seq<nat>, i: nat, draws: nat)
    requires (i < |xs| || i == 0) && forall d :: d >= draws ==> r(d) == q(d)
    ensures Shuffle(r, xs, i, draws) == Shuffle(q, xs, i, draws)
    decreases i
  {
    if i == 0 {
    } else {
      var j := r(draws) % (i + 1);
      ShuffleReads(r, q, xs[i := xs[j]][j := xs[i]], i - 1, draws + 1);
    }
  }

  lemma Below(j: nat, n: nat)
    requires j < n
    ensures j % n == j
  {
  }

  lemma SwapPermutes(xs: seq<nat>, i: nat, j: nat)
    requires j <= i < |xs|
    ensures var ys := xs[i := xs[j]][j := xs[i]];
      ys[i] == xs[j] && multiset(ys[..i + 1]) == multiset(xs[..i + 1])
  {
    var a, b := xs[..i + 1], xs[i := xs[j]][j := xs[i]][..i + 1];
    assert b == a[i := a[j]][j := a[i]];
  }

  /** The number j at tick `draws`, and q otherwise. */
  function Drawing(j: nat, draws: nat, q: nat -> nat): nat -> nat {
    d => if d == draws then j else q(d)
  }

  lemma FirstDraw(xs: seq<nat>, i: nat, draws: nat, j: nat, q: nat -> nat)
    requires 0 < i < |xs| && j <= i
    ensures Shuffle(Drawing(j, draws, q), xs, i, draws).0 ==
      Shuffle(q, xs[i := xs[j]][j := xs[i]], i - 1, draws + 1).0
  {
    hide Shuffle;
    Below(j, i + 1);
    OneDraw(Drawing(j, draws, q), xs, i, draws, j);
    ShuffleReads(Drawing(j, draws, q), q, xs[i := xs[j]][j := xs[i]], i - 1, draws + 1);
  }

  lemma OneDraw(r: nat -> nat, xs: seq<nat>, i: nat, draws: nat, j: nat)
    requires 0 < i < |xs| && r(draws) % (i + 1) == j <= i
    ensures Shuffle(r, xs, i, draws) == Shuffle(r, xs[i := xs[j]][j := xs[i]], i - 1, draws + 1)
  {
  }

  lemma OneEntry(xs: seq<nat>, ys: seq<nat>)
    requires 0 < |xs| == |ys| && xs[1..] == ys[1..] && multiset(xs[..1]) == multiset(ys[..1])
    ensures xs == ys
  {
    assert xs[..1] == [xs[0]] && ys[..1] == [ys[0]];
    assert ys[0] in multiset(xs[..1]);
    assert xs == [xs[0]] + xs[1..] && ys == [ys[0]] + ys[1..];
  }

  lemma WhereIs(xs: seq<nat>, ys: seq<nat>, i: nat) returns (j: nat)
    requires i < |xs| == |ys| && multiset(xs[..i + 1]) == multiset(ys[..i + 1])
    ensures j <= i && xs[j] == ys[i]
  {
    assert ys[..i + 1][i] == ys[i];
    assert ys[i] in multiset(xs[..i + 1]);
    j :| 0 <= j <= i && xs[..i + 1][j] == ys[i];
  }

  /** The same entries among the first i + 1, in any order, and the same behind. */
  ghost predicate Rearranged(xs: seq<nat>, ys: seq<nat>, i: nat) {
    i < |xs| == |ys| && xs[i + 1..] == ys[i + 1..] && multiset(xs[..i + 1]) == multiset(ys[..i + 1])
  }

  lemma FirstTaken(xs: seq<nat>, ys: seq<nat>, i: nat) returns (j: nat)
    requires 0 < i && Rearranged(xs, ys, i)
    ensures i < |xs| && j <= i && Rearranged(xs[i := xs[j]][j := xs[i]], ys, i - 1)
  {
    j := WhereIs(xs, ys, i);
    SwapPermutes(xs, i, j);
    LastTaken(xs[i := xs[j]][j := xs[i]], ys, i);
  }

  /** Every rearrangement of the first i + 1 entries comes out for some random numbers. */
  lemma {:induction false} EveryOrderComesOut(xs: seq<nat>, ys: seq<nat>, i: nat, draws: nat) returns (r: nat -> nat)
    requires Rearranged(xs, ys, i)
    ensures Shuffle(r, xs, i, draws).0 == ys
    decreases i
  {
    if i == 0 {
      OneEntry(xs, ys);
      r := _ => 0;
    } else {
      hide Shuffle, Drawing, Rearranged;
      var j := FirstTaken(xs, ys, i);
      var q := EveryOrderComesOut(xs[i := xs[j]][j := xs[i]], ys, i - 1, draws + 1);
      r := Drawing(j, draws, q);
      FirstDraw(xs, i, draws, j, q);
    }
  }

  lemma LastTaken(zs: seq<nat>, ys: seq<nat>, i: nat)
    requires 0 < i < |zs| == |ys| && zs[i] == ys[i] && zs[i + 1..] == ys[i + 1..]
    requires multiset(zs[..i + 1]) == multiset(ys[..i + 1])
    ensures zs[i..] == ys[i..] && multiset(zs[..i]) == multiset(ys[..i])
  {
    LastOut(zs, i);
    LastOut(ys, i);
    assert zs[i..] == [zs[i]] + zs[i + 1..] && ys[i..] == [ys[i]] + ys[i + 1..];
  }

  lemma LastOut(xs: seq<nat>, i: nat)
    requires i < |xs|
    ensures multiset(xs[..i]) == multiset(xs[..i + 1]) - multiset{xs[i]}
  {
    assert xs[..i + 1] == xs[..i] + [xs[i]];
  }

  /** When the cursor comes round, the next pass may go in any order, as the random numbers will have it. */
  lemma AnyPassMayFollow(env: Env, s: State, ys: seq<nat>) returns (r: nat -> nat)
    requires 0 < s.mc && s.rr == s.mc - 1 && Rearranged(s.indices, ys, s.mc - 1)
    ensures var (t, x) := Advance(env.(rand := r), s);
      t.indices == ys && t.rr == 0 && x == s.indices[s.rr]
  {
    hide Shuffle;
    r := EveryOrderComesOut(s.indices, ys, s.mc - 1, s.draws);
    assert (s.rr + 1) % s.mc == 0;
  }

  /** The newest slot is slipped in at the place drawn, any place can be drawn, and the others stay in order. */
  lemma NewestIsSlippedIn(env: Env, s: State, p: nat)
    requires 0 < s.mc && p < s.mc && env.rand(s.draws) == p
    ensures var xs, ys, n := s.indices, IndexAdd(env, s).indices, s.mc - 1;
      && ys[p] == n && ys[..p] + ys[p + 1..s.mc] == xs[..n] && ys[s.mc..] == xs[s.mc..]
      && IndexAdd(env, s).draws == s.draws + 1
  {
    var xs, n := s.indices, s.mc - 1;
    Below(p, s.mc);
    var ys := xs[..p] + [n] + xs[p..n] + xs[s.mc..];
    assert IndexAdd(env, s).indices == ys;
    assert ys[..p] == xs[..p] && ys[p + 1..s.mc] == xs[p..n] && ys[s.mc..] == xs[s.mc..];
    assert xs[..p] + xs[p..n] == xs[..n];
  }

  /** When the live count has fallen, the highest slot leaves the ring and the others stay in order. */
  lemma HighestLeaves(s: State, p: nat)
    requires Perm(s.indices, s.mc + 1) && p <= s.mc && s.indices[p] == s.mc
    ensures IndexRemove(s).indices[..s.mc] == s.indices[..p] + s.indices[p + 1..s.mc + 1]
    ensures IndexRemove(s) == s.(indices := IndexRemove(s).indices)
  {
    hide ShiftDown;
    var q := MaxPos(s.indices, s.mc + 1);
    assert s.indices[q] >= s.indices[p];
    assert q == p;
    GapCloses(s.indices, p, s.mc);
  }

  lemma GapCloses(xs: seq<nat>, p: nat, n: nat)
    requires p <= n < |xs|
    ensures ShiftDown(xs, p, n + 1)[..n] == xs[..p] + xs[p + 1..n + 1]
  {
    var ys, zs := ShiftDown(xs, p, n + 1)[..n], xs[..p] + xs[p + 1..n + 1];
    forall i | 0 <= i < n ensures ys[i] == zs[i] {}
  }
}
