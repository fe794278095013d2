/** The index ring in place (src/microswim.c) and the search that turns it (src/member.c). */
module RingOps {
  import opened Types
  import opened Tables
  import opened RoundRobin
  import opened Node
  import opened ArrayOps

  lemma ShuffleStep(rand: nat -> nat, xs: seq<nat>, i: nat, draws: nat, j: nat)
    requires 0 < i < |xs| && j == rand(draws) % (i + 1) && j <= i
    ensures Shuffle(rand, xs, i, draws) == Shuffle(rand, xs[i := xs[j]][j := xs[i]], i - 1, draws + 1)
  {
  }

  method IndicesShuffle(ms: Microswim)
    requires ms.Fits() && ms.memberCount > 0
    modifies ms`draws, ms.indices
    ensures ms.Fits()
    ensures var (xs, d) := Shuffle(ms.env.rand, old(ms.indices[..]), ms.memberCount - 1, old(ms.draws));
      ms.Value() == old(ms.Value()).(indices := xs, draws := d)
  {
    hide Shuffle;
    var i := ms.memberCount - 1;
    while i > 0
      invariant 0 <= i < ms.memberCount
      invariant Shuffle(ms.env.rand, ms.indices[..], i, ms.draws)
             == Shuffle(ms.env.rand, old(ms.indices[..]), ms.memberCount - 1, old(ms.draws))
    {
      ghost var xs, d := ms.indices[..], ms.draws;
      var j := ms.RandBelow(i + 1);
      ShuffleStep(ms.env.rand, xs, i, d, j);
      Exchange(ms.indices, i, j);
      i := i - 1;
    }
    ShuffleEnds(ms.env.rand, ms.indices[..], ms.draws);
  }

  lemma ShuffleEnds(rand: nat -> nat, xs: seq<nat>, draws: nat)
    ensures Shuffle(rand, xs, 0, draws) == (xs, draws)
  {
  }

  /** Entries index..mc - 1 repeated one place higher, the top one falling out. */
  function Gapped(xs: seq<nat>, index: nat, mc: nat): (r: seq<nat>)
    requires index < mc <= |xs|
    ensures |r| == |xs|
    ensures forall p :: 0 <= p < |xs| ==> r[p] == xs[if index < p < mc then p - 1 else p]
  {
    xs[..index + 1] + xs[index..mc - 1] + xs[mc..]
  }

  /** Make room at `index`: every later entry of the ring moves one place up. */
  method IndicesShift(ms: Microswim, index: nat)
    requires ms.Fits() && index < ms.memberCount
    modifies ms.indices
    ensures ms.indices[..] == Gapped(old(ms.indices[..]), index, ms.memberCount)
  {
    ghost var xs := ms.indices[..];
    var i := ms.memberCount - 1;
    while i > index
      invariant index <= i < ms.memberCount
      invariant forall p :: 0 <= p <= i ==> ms.indices[p] == xs[p]
      invariant forall p :: i < p < ms.memberCount ==> ms.indices[p] == xs[p - 1]
      invariant forall p :: ms.memberCount <= p < |xs| ==> ms.indices[p] == xs[p]
    {
      ms.indices[i] := ms.indices[i - 1];
      i := i - 1;
    }
    assert ms.indices[..] == Gapped(xs, index, ms.memberCount);
  }

  lemma GapFilled(env: Env, s: State, p: nat)
    requires s.mc > 0 && p == env.rand(s.draws) % s.mc && p < s.mc
    ensures Tables.IndexAdd(env, s) ==
      s.(indices := Gapped(s.indices, p, s.mc)[p := s.mc - 1], draws := s.draws + 1)
  {
    var xs, top := s.indices, s.mc - 1;
    assert Gapped(xs, p, s.mc)[p := top] == xs[..p] + [top] + xs[p..s.mc - 1] + xs[s.mc..];
  }

  method IndexAdd(ms: Microswim)
    requires ms.Fits() && ms.memberCount > 0
    modifies ms`draws, ms.indices
    ensures ms.Fits()
    ensures ms.Value() == Tables.IndexAdd(ms.env, old(ms.Value()))
  {
    hide Gapped, Tables.IndexAdd;
    ghost var s := ms.Value();
    var index := ms.RandBelow(ms.memberCount);
    GapFilled(ms.env, s, index);
    IndicesShift(ms, index);
    ghost var ys := ms.indices[..];
    var top: nat := ms.memberCount - 1;
    ms.indices[index] := top;
    assert ms.indices[..] == ys[index := top];
  }

  /** The position of the highest of the first n entries. */
  method HighestIndex(ms: Microswim, n: nat) returns (index: nat)
    requires 0 < n <= ms.indices.Length
    ensures index == MaxPos(ms.indices[..], n)
  {
    index := 0;
    var i := 1;
    while i < n
      invariant 1 <= i <= n && index == MaxPos(ms.indices[..], i)
    {
      if ms.indices[i] > ms.indices[index] {
        index := i;
      }
      i := i + 1;
    }
  }

  method IndexRemove(ms: Microswim)
    requires ms.Fits() && ms.memberCount < ms.indices.Length
    modifies ms.indices
    ensures ms.Fits()
    ensures ms.Value() == Tables.IndexRemove(old(ms.Value()))
  {
    hide MaxPos;
    var index := HighestIndex(ms, ms.memberCount + 1);
    CloseGap(ms.indices, index, ms.memberCount + 1);
  }

  /** Read the ring under the cursor and move the cursor on. */
  method NextIndex(ms: Microswim) returns (index: nat)
    requires ms.Fits() && ms.memberCount > 0 && ms.roundRobinIndex < ms.indices.Length
    modifies ms`roundRobinIndex, ms`draws, ms.indices
    ensures ms.Fits()
    ensures (ms.Value(), index) == Advance(ms.env, old(ms.Value()))
  {
    index := ms.indices[ms.roundRobinIndex];
    ms.roundRobinIndex := (ms.roundRobinIndex + 1) % ms.memberCount;
    if ms.roundRobinIndex == 0 {
      IndicesShuffle(ms);
    }
  }

  lemma TurningInRange(s: State, n: nat)
    requires s.mc > 0 && Turning(s, n)
    ensures s.rr < n <= |s.indices|
  {
  }

  /**
   * The next member in turn. The search needs the ring to be a permutation of 0..n, where n is
   * the live count or, in the middle of a confirmation, one more; that is also why it ends.
   */
  method MemberRetrieve(ms: Microswim, ghost n: nat) returns (r: Option<nat>)
    requires ms.Fits() && Turning(ms.Value(), n)
    modifies ms`roundRobinIndex, ms`draws, ms.indices
    ensures ms.Fits()
    ensures (ms.Value(), r) == Retrieve(ms.env, old(ms.Value()))
  {
    hide Advance, Turning;
    if ms.memberCount == 0 {
      return None;
    }
    ghost var s := ms.Value();
    ghost var fuel := 3;
    var original := ms.roundRobinIndex;
    while true
      invariant ms.Fits() && 1 <= fuel <= 3
      invariant ms.memberCount == s.mc && ms.members[..] == s.members && ms.self == s.self
      invariant Turning(ms.Value(), n)
      invariant RetrieveFrom(ms.env, ms.Value(), original, fuel) == Retrieve(ms.env, s)
      invariant fuel == 3 ==> ms.Value() == s
      invariant fuel <= 2 ==> IsSelf(s, Advance(ms.env, s).1) && Advance(ms.env, s).0.rr != original
      invariant fuel == 2 ==> ms.Value() == Advance(ms.env, s).0
      invariant fuel == 1 ==> IsSelf(s, Advance(ms.env, Advance(ms.env, s).0).1)
      invariant fuel == 1 ==> ms.Value() == Advance(ms.env, Advance(ms.env, s).0).0
      decreases fuel
    {
      ghost var s0 := ms.Value();
      TurningInRange(s0, n);
      AdvanceFacts(ms.env, s0, n);
      if fuel == 1 { ThirdIsNotSelf(ms.env, s, n); }
      var index := NextIndex(ms);
      if ms.self.uuid != ms.members[index].entry.uuid {
        return Some(index);
      }
      if ms.roundRobinIndex == original {
        return None;
      }
      fuel := fuel - 1;
    }
  }
}
