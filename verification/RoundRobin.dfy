/** The round-robin choice of the next member to contact (src/member.c, src/microswim.c). */
module RoundRobin {
  import opened Types
  import opened Seqs
  import opened Tables
  import opened Invariant

  /** Only slot 0 of the first n can be our own. */
  ghost predicate SelfOnlyFirst(s: State, n: nat) {
    n <= |s.members| && forall i :: 0 < i < n ==> s.members[i].entry.uuid != s.self.uuid
  }

  /** The ring between steps (n == mc) or in the middle of a confirmation (n == mc + 1). */
  ghost predicate Turning(s: State, n: nat) {
    && s.mc <= n <= s.mc + 1
    && Ring(s.indices, s.rr, n)
    && SelfOnlyFirst(s, n)
  }

  lemma InvTurning(s: State, k: Knowledge)
    requires Core(s, k) && Ring(s.indices, s.rr, s.mc)
    ensures Turning(s, s.mc)
  {
  }

  /** k ring positions in a row: the state after them and the slots they name. */
  function AdvanceN(env: Env, s: State, k: nat): (r: (State, seq<nat>))
    requires s.mc > 0
    ensures |r.1| == k
    ensures r.0 == s.(indices := r.0.indices, rr := r.0.rr, draws := r.0.draws)
  {
    if k == 0 then (s, [])
    else
      var (s1, xs) := AdvanceN(env, s, k - 1);
      var (s2, x) := Advance(env, s1);
      (s2, xs + [x])
  }

  // ----- one position -----

  function NextCursor(rr: nat, mc: nat): nat
    requires mc > 0
  {
    if rr + 1 < mc then rr + 1 else if rr + 1 == mc || mc == 1 then 0 else 1
  }

  lemma CursorWraps(rr: nat, mc: nat)
    requires 0 < mc && rr <= mc
    ensures (rr + 1) % mc == NextCursor(rr, mc)
  {
    if rr + 1 >= mc { OnceRound(rr + 1, mc); }
  }

  lemma OnceRound(a: nat, m: nat)
    requires 0 < m <= a <= m + 1
    ensures a % m == if m == 1 then 0 else a - m
  {
  }

  /** One position: the slot under the cursor; only a wrap-around touches the ring, and only its first mc entries. */
  lemma AdvanceFacts(env: Env, s: State, n: nat)
    requires s.mc > 0 && Turning(s, n)
    ensures var (t, x) := Advance(env, s);
      && x == s.indices[s.rr] < n
      && t.rr == NextCursor(s.rr, s.mc)
      && (t.rr != 0 ==> t.indices == s.indices && t.draws == s.draws)
      && (forall p :: s.mc <= p < |s.indices| ==> t.indices[p] == s.indices[p])
      && t == s.(indices := t.indices, rr := t.rr, draws := t.draws)
      && Turning(t, n)
  {
    CursorWraps(s.rr, s.mc);
    ShuffleKeepsPerm(env.rand, s.indices, s.mc - 1, s.draws, s.mc, n);
  }

  /** Being our own is a matter of the members alone, which the search leaves as they are. */
  lemma OwnSlot(s: State, n: nat, x: nat)
    requires Turning(s, n) && x < n
    ensures IsSelf(s, x) ==> x == 0
  {
  }

  // ----- termination of the search -----

  /**
   * If the first two positions are our own and the search goes on, the third is not: we can be
   * met twice only when the reshuffle between the two puts us first.
   */
  lemma ThirdIsNotSelf(env: Env, s: State, n: nat)
    requires s.mc > 0 && Turning(s, n)
    requires IsSelf(s, Advance(env, s).1) && Advance(env, s).0.rr != s.rr
    requires IsSelf(s, Advance(env, Advance(env, s).0).1)
    ensures !IsSelf(s, Advance(env, Advance(env, Advance(env, s).0).0).1)
    ensures s.mc >= 2 && s.rr == s.mc - 1
    ensures Advance(env, Advance(env, s).0).0.rr == 1
  {
    hide Advance, IsSelf;
    var (s1, a) := Advance(env, s);
    AdvanceFacts(env, s, n);
    var (s2, b) := Advance(env, s1);
    AdvanceFacts(env, s1, n);
    AdvanceFacts(env, s2, n);
    OwnSlot(s, n, a);
    OwnSlot(s, n, b);
    assert a == 0 && b == 0;
    assert s1.rr == 0;
    assert s2.rr == 1;
    if IsSelf(s, Advance(env, s2).1) { OwnSlot(s, n, Advance(env, s2).1); }
  }

  lemma LastTry(env: Env, s: State, origin: nat, fuel: nat)
    requires s.mc > 0 && fuel > 0
    requires !IsSelf(s, Advance(env, s).1) || Advance(env, s).0.rr == origin
    ensures RetrieveFrom(env, s, origin, fuel).0 == Advance(env, s).0
    ensures RetrieveFrom(env, s, origin, fuel).1 ==
            if IsSelf(s, Advance(env, s).1) then None else Some(Advance(env, s).1)
  {
  }

  lemma NextTry(env: Env, s: State, origin: nat, fuel: nat)
    requires s.mc > 0 && fuel > 0
    requires IsSelf(s, Advance(env, s).1) && Advance(env, s).0.rr != origin
    ensures RetrieveFrom(env, s, origin, fuel) == RetrieveFrom(env, Advance(env, s).0, origin, fuel - 1)
  {
  }

  /**
   * A search with room for three or more positions consumes one to three: all are our own,
   * except the last one when it is the member returned.
   */
  lemma SearchConsumes(env: Env, s: State, n: nat, fuel: nat) returns (k: nat)
    requires s.mc > 0 && Turning(s, n) && fuel >= 3
    ensures 1 <= k <= 3
    ensures RetrieveFrom(env, s, s.rr, fuel).0 == AdvanceN(env, s, k).0
    ensures forall i :: 0 <= i < k - 1 ==> IsSelf(s, AdvanceN(env, s, k).1[i])
    ensures var x := AdvanceN(env, s, k).1[k - 1];
      x < n && RetrieveFrom(env, s, s.rr, fuel).1 == if IsSelf(s, x) then None else Some(x)
    ensures k == if !IsSelf(s, Advance(env, s).1) || Advance(env, s).0.rr == s.rr then 1
                 else var s1 := Advance(env, s).0;
                   if !IsSelf(s, Advance(env, s1).1) || Advance(env, s1).0.rr == s.rr then 2 else 3
  {
    hide Advance, IsSelf, RetrieveFrom;
    var (s1, a) := Advance(env, s);
    AdvanceFacts(env, s, n);
    assert AdvanceN(env, s, 0) == (s, []);
    assert AdvanceN(env, s, 1).0 == s1 && AdvanceN(env, s, 1).1 == [a];
    SelfStays(s, s1, a);
    if !IsSelf(s, a) || s1.rr == s.rr {
      LastTry(env, s, s.rr, fuel);
      return 1;
    }
    NextTry(env, s, s.rr, fuel);
    var (s2, b) := Advance(env, s1);
    AdvanceFacts(env, s1, n);
    assert AdvanceN(env, s, 2).0 == s2 && AdvanceN(env, s, 2).1 == [a, b];
    SelfStays(s, s1, b);
    if !IsSelf(s, b) || s2.rr == s.rr {
      LastTry(env, s1, s.rr, fuel - 1);
      return 2;
    }
    NextTry(env, s1, s.rr, fuel - 1);
    ThirdIsNotSelf(env, s, n);
    var (s3, c) := Advance(env, s2);
    AdvanceFacts(env, s2, n);
    assert AdvanceN(env, s, 3).0 == s3 && AdvanceN(env, s, 3).1 == [a, b, c];
    SelfStays(s, s2, c);
    LastTry(env, s2, s.rr, fuel - 2);
    return 3;
  }

  lemma SelfStays(s: State, t: State, x: nat)
    requires t.members == s.members && t.self == s.self
    ensures IsSelf(t, x) == IsSelf(s, x)
  {
  }

  /** Looking further than three positions never changes the outcome of a search. */
  lemma ThreePositionsSuffice(env: Env, s: State, n: nat, fuel: nat)
    requires s.mc > 0 && Turning(s, n) && fuel >= 3
    ensures RetrieveFrom(env, s, s.rr, fuel) == Retrieve(env, s)
  {
    hide Advance, IsSelf, RetrieveFrom;
    var k := SearchConsumes(env, s, n, fuel);
    var j := SearchConsumes(env, s, n, 3);
  }

  // ----- when nobody is returned -----

  lemma PairShuffle(env: Env, s: State)
    requires s.mc == 2 && Turning(s, 2) && s.rr == 1
    ensures Advance(env, s).0.indices[0] == s.indices[if env.rand(s.draws) % 2 == 0 then 1 else 0]
    ensures Advance(env, s).0.indices[1] == s.indices[if env.rand(s.draws) % 2 == 0 then 0 else 1]
  {
    var j := env.rand(s.draws) % 2;
    var xs := s.indices[1 := s.indices[j]][j := s.indices[1]];
    assert Shuffle(env.rand, xs, 0, s.draws + 1) == (xs, s.draws + 1);
    assert Shuffle(env.rand, s.indices, 1, s.draws) == (xs, s.draws + 1);
  }

  /**
   * Between steps a retrieve comes back empty exactly when nobody else is live, or when we
   * have a single peer and the reshuffle falls in mid-search and puts us in front again.
   */
  lemma RetrieveEmptyIff(env: Env, s: State)
    requires Turning(s, s.mc)
    ensures Retrieve(env, s).1.None? <==>
      || s.mc == 0
      || (s.mc == 1 && IsSelf(s, 0))
      || (s.mc == 2 && IsSelf(s, 0) && s.rr == 1 && s.indices[1] == 0 && env.rand(s.draws) % 2 == 0)
  {
    hide Advance, IsSelf, RetrieveFrom, AdvanceN, Ring;
    if s.mc > 0 {
      var n := s.mc;
      var k := SearchConsumes(env, s, n, 3);
      var (s1, a) := Advance(env, s);
      RingMeaning(s, n);
      AdvanceFacts(env, s, n);
      OwnSlot(s, n, a);
      NamesInOrder(env, s, k);
      if k > 1 {
        var (s2, b) := Advance(env, s1);
        RingMeaning(s1, n);
        AdvanceFacts(env, s1, n);
        OwnSlot(s, n, b);
        if s.mc == 2 && s.rr == 1 { PairShuffle(env, s); }
        if k == 3 { ThirdIsNotSelf(env, s, n); }
      }
    }
  }

  lemma RingMeaning(s: State, n: nat)
    requires s.mc > 0 && Turning(s, n)
    ensures s.rr < n <= |s.indices| && forall i, j :: 0 <= i < j < n ==> s.indices[i] != s.indices[j]
  {
  }

  lemma NamesInOrder(env: Env, s: State, k: nat)
    requires s.mc > 0 && 1 <= k <= 3
    ensures AdvanceN(env, s, k).1[k - 1] ==
      if k == 1 then Advance(env, s).1
      else if k == 2 then Advance(env, Advance(env, s).0).1
      else Advance(env, Advance(env, Advance(env, s).0).0).1
  {
    hide Advance;
    assert AdvanceN(env, s, 0).0 == s;
    assert AdvanceN(env, s, 1).0 == Advance(env, s).0;
    assert AdvanceN(env, s, 2).0 == Advance(env, Advance(env, s).0).0;
  }

  // ----- completeness -----

  function Times(n: nat, m: nat): nat {
    n * m
  }

  lemma TimesZero(m: nat)
    ensures Times(0, m) == 0
  {
  }

  lemma TimesNext(n: nat, m: nat)
    ensures Times(n + 1, m) == Times(n, m) + m
  {
  }

  /** Inside a pass the ring stands still and is read in order. */
  lemma {:induction false} WithinPass(env: Env, s: State, k: nat)
    requires s.mc > 0 && Turning(s, s.mc) && s.rr + k < s.mc
    ensures AdvanceN(env, s, k).0 == s.(rr := s.rr + k)
    ensures AdvanceN(env, s, k).1 == s.indices[s.rr..s.rr + k]
  {
    hide Advance;
    if k == 0 {
    } else {
      hide Turning;
      WithinPass(env, s, k - 1);
      AdvanceFacts(env, s.(rr := s.rr + k - 1), s.mc);
      assert s.indices[s.rr..s.rr + k] == s.indices[s.rr..s.rr + k - 1] + [s.indices[s.rr + k - 1]];
    }
  }

  /** The rest of a pass reads the rest of the ring and leaves the cursor at the start of the next. */
  lemma RestOfPass(env: Env, s: State)
    requires s.mc > 0 && Turning(s, s.mc)
    ensures AdvanceN(env, s, s.mc - s.rr).1 == s.indices[s.rr..s.mc]
    ensures AdvanceN(env, s, s.mc - s.rr).0.rr == 0
    ensures Turning(AdvanceN(env, s, s.mc - s.rr).0, s.mc)
  {
    hide Advance;
    var k := s.mc - s.rr - 1;
    WithinPass(env, s, k);
    AdvanceFacts(env, s.(rr := s.mc - 1), s.mc);
    assert s.indices[s.rr..s.mc] == s.indices[s.rr..s.rr + k] + [s.indices[s.mc - 1]];
  }

  /** From cursor 0 every pass names every live slot exactly once, whatever the shuffles do. */
  lemma EveryPassIsComplete(env: Env, s: State, passes: nat)
    requires s.mc > 0 && Turning(s, s.mc) && s.rr == 0
    ensures var t := AdvanceN(env, s, Times(passes, s.mc)).0;
      && t.rr == 0 && Turning(t, s.mc)
      && Perm(AdvanceN(env, t, s.mc).1, s.mc)
    decreases passes
  {
    hide AdvanceN, Turning, Perm, Times;
    RestOfPass(env, s);
    if passes == 0 {
      OnePass(env, s);
    } else {
      var t := AdvanceN(env, s, s.mc).0;
      EveryPassIsComplete(env, t, passes - 1);
      AdvancesAddUp(env, s, s.mc, Times(passes - 1, s.mc));
      TimesNext(passes - 1, s.mc);
    }
  }

  /** A single pass from cursor 0 reads the whole ring. */
  lemma OnePass(env: Env, s: State)
    requires s.mc > 0 && Turning(s, s.mc) && s.rr == 0
    ensures AdvanceN(env, s, Times(0, s.mc)).0 == s
    ensures Perm(AdvanceN(env, s, s.mc).1, s.mc)
  {
    hide Advance;
    RestOfPass(env, s);
    assert AdvanceN(env, s, 0).0 == s;
    assert AdvanceN(env, s, s.mc).1 == s.indices[..s.mc];
  }

  lemma {:induction false} AdvancesAddUp(env: Env, s: State, a: nat, b: nat)
    requires s.mc > 0
    ensures AdvanceN(env, s, a + b).0 == AdvanceN(env, AdvanceN(env, s, a).0, b).0
    ensures AdvanceN(env, s, a + b).1 == AdvanceN(env, s, a).1 + AdvanceN(env, AdvanceN(env, s, a).0, b).1
  {
    hide Advance;
    if b == 0 {
    } else {
      AdvancesAddUp(env, s, a, b - 1);
    }
  }

  lemma NthOfPass(env: Env, s: State, q: nat)
    requires s.mc > 0 && Turning(s, s.mc) && s.rr + q < s.mc
    ensures AdvanceN(env, s, q + 1).1[q] == s.indices[s.rr + q] < s.mc
  {
    hide Advance;
    WithinPass(env, s, q);
    AdvanceFacts(env, s.(rr := s.rr + q), s.mc);
  }

  lemma TurningPerm(s: State)
    requires s.mc > 0 && Turning(s, s.mc)
    ensures Perm(s.indices, s.mc) && s.rr < s.mc
  {
  }

  /** A slot named now is named again after at most 2n - 1 further positions. */
  lemma NamedAgainSoon(env: Env, s: State) returns (d: nat)
    requires s.mc > 0 && Turning(s, s.mc)
    ensures 1 <= d <= 2 * s.mc - 1
    ensures AdvanceN(env, s, d + 1).1[d] == AdvanceN(env, s, 1).1[0]
  {
    hide AdvanceN, Turning, Perm;
    var n, p := s.mc, s.rr;
    TurningPerm(s);
    NthOfPass(env, s, 0);
    RestOfPass(env, s);
    var t := AdvanceN(env, s, n - p).0;
    TurningPerm(t);
    var q := PermHits(t.indices, n, AdvanceN(env, s, 1).1[0]);
    d := n - p + q;
    NthOfPass(env, t, q);
    AdvancesAddUp(env, s, n - p, q + 1);
    assert n - p + (q + 1) == d + 1;
  }

  // ----- what callers see: successive retrievals -----

  /** n retrievals in a row: the state after them and the members they return, in order. */
  function RetrieveN(env: Env, s: State, n: nat): (r: (State, seq<nat>))
    ensures r.0 == s.(indices := r.0.indices, rr := r.0.rr, draws := r.0.draws)
    ensures |r.1| <= n
    decreases n
  {
    if n == 0 then (s, [])
    else
      var (s1, x) := Retrieve(env, s);
      var (t, xs) := RetrieveN(env, s1, n - 1);
      (t, (if x.Some? then [x.value] else []) + xs)
  }

  /** The slots of xs that are not our own. */
  function Others(s: State, xs: seq<nat>): (r: seq<nat>)
    ensures |r| <= |xs|
  {
    if xs == [] then [] else (if IsSelf(s, xs[0]) then [] else [xs[0]]) + Others(s, xs[1..])
  }

  lemma {:induction false} OthersAddUp(s: State, xs: seq<nat>, ys: seq<nat>)
    ensures Others(s, xs + ys) == Others(s, xs) + Others(s, ys)
    decreases |xs|
  {
    hide IsSelf;
    if xs == [] {
      assert xs + ys == ys;
    } else {
      assert (xs + ys)[1..] == xs[1..] + ys;
      OthersAddUp(s, xs[1..], ys);
    }
  }

  lemma {:induction false} NoOthers(s: State, xs: seq<nat>)
    requires forall i :: 0 <= i < |xs| ==> IsSelf(s, xs[i])
    ensures Others(s, xs) == []
  {
    hide IsSelf;
    if xs == [] {
    } else {
      NoOthers(s, xs[1..]);
    }
  }

  lemma {:induction false} SameOthers(s: State, t: State, xs: seq<nat>)
    requires t.members == s.members && t.self == s.self
    ensures Others(t, xs) == Others(s, xs)
  {
    hide IsSelf;
    if xs == [] {
    } else {
      SelfStays(s, t, xs[0]);
      SameOthers(s, t, xs[1..]);
    }
  }

  /** A single retrieval reads one to three positions and returns the one among them that is not our own, if any. */
  lemma RetrievalReads(env: Env, s: State) returns (k: nat)
    requires s.mc > 0 && Turning(s, s.mc)
    ensures 1 <= k <= 3
    ensures Retrieve(env, s).0 == AdvanceN(env, s, k).0 && Turning(Retrieve(env, s).0, s.mc)
    ensures forall i :: 0 <= i < k - 1 ==> IsSelf(s, AdvanceN(env, s, k).1[i])
    ensures var x := AdvanceN(env, s, k).1[k - 1]; Retrieve(env, s).1 == if IsSelf(s, x) then None else Some(x)
    ensures Others(s, AdvanceN(env, s, k).1) == if Retrieve(env, s).1.Some? then [Retrieve(env, s).1.value] else []
  {
    hide IsSelf, RetrieveFrom, AdvanceN, Turning, Others;
    k := SearchConsumes(env, s, s.mc, 3);
    AdvancesTurn(env, s, k);
    LastOther(s, AdvanceN(env, s, k).1);
  }

  lemma LastOther(s: State, xs: seq<nat>)
    requires xs != [] && forall i :: 0 <= i < |xs| - 1 ==> IsSelf(s, xs[i])
    ensures var x := xs[|xs| - 1]; Others(s, xs) == if IsSelf(s, x) then [] else [x]
  {
    hide IsSelf;
    var n := |xs| - 1;
    assert xs == xs[..n] + [xs[n]];
    OthersAddUp(s, xs[..n], [xs[n]]);
    NoOthers(s, xs[..n]);
  }

  lemma {:induction false} AdvancesTurn(env: Env, s: State, k: nat)
    requires s.mc > 0 && Turning(s, s.mc)
    ensures Turning(AdvanceN(env, s, k).0, s.mc)
  {
    hide Advance, Turning;
    if k == 0 {
    } else {
      AdvancesTurn(env, s, k - 1);
      AdvanceFacts(env, AdvanceN(env, s, k - 1).0, s.mc);
    }
  }

  /** n retrievals read n to 3n ring positions and return exactly those that are not our own, in order. */
  lemma {:induction false} RetrievalsConsume(env: Env, s: State, n: nat) returns (k: nat)
    requires s.mc > 0 && Turning(s, s.mc)
    ensures n <= k <= 3 * n
    ensures RetrieveN(env, s, n).0 == AdvanceN(env, s, k).0
    ensures RetrieveN(env, s, n).1 == Others(s, AdvanceN(env, s, k).1)
    decreases n
  {
    hide IsSelf, Retrieve, Advance, Turning, Others;
    if n == 0 {
      k := 0;
      NoOthers(s, []);
    } else {
      var j := RetrievalReads(env, s);
      var s1 := Retrieve(env, s).0;
      k := RetrievalsConsume(env, s1, n - 1);
      AdvancesAddUp(env, s, j, k);
      OthersAddUp(s, AdvanceN(env, s, j).1, AdvanceN(env, s1, k).1);
      SameOthers(s, s1, AdvanceN(env, s1, k).1);
      k := j + k;
    }
  }

  // ----- every peer once per round -----

  function SelfCount(s: State): nat {
    if s.mc > 0 && IsSelf(s, 0) then 1 else 0
  }

  /** How many other members are live. */
  function Peers(s: State): nat {
    s.mc - SelfCount(s)
  }

  /** xs names each live member but ourselves, once. */
  ghost predicate EveryPeerOnce(s: State, xs: seq<nat>) {
    && Distinct(xs)
    && forall x: nat :: x in xs <==> x < s.mc && !IsSelf(s, x)
  }

  lemma {:induction false} OthersOfDistinct(s: State, xs: seq<nat>)
    requires Distinct(xs)
    ensures Distinct(Others(s, xs))
    ensures forall x :: x in Others(s, xs) <==> x in xs && !IsSelf(s, x)
    ensures 0 in xs && (forall x :: x in xs && IsSelf(s, x) ==> x == 0) ==>
      |Others(s, xs)| == |xs| - if IsSelf(s, 0) then 1 else 0
    ensures (forall x :: x in xs ==> !IsSelf(s, x)) ==> Others(s, xs) == xs
  {
    hide IsSelf;
    if xs == [] {
    } else {
      assert xs == [xs[0]] + xs[1..];
      OthersOfDistinct(s, xs[1..]);
      if xs[0] == 0 { assert 0 !in xs[1..]; }
    }
  }

  lemma PassHasEveryPeer(env: Env, s: State)
    requires s.mc > 0 && Turning(s, s.mc) && s.rr == 0
    ensures EveryPeerOnce(s, Others(s, AdvanceN(env, s, s.mc).1))
    ensures |Others(s, AdvanceN(env, s, s.mc).1)| == Peers(s)
  {
    hide AdvanceN, IsSelf, Others;
    var xs := AdvanceN(env, s, s.mc).1;
    OnePass(env, s);
    forall x | x in xs && IsSelf(s, x) ensures x == 0 { OwnSlot(s, s.mc, x); }
    assert xs[..s.mc] == xs;
    forall v: nat | v < s.mc ensures v in xs { var p := PermHits(xs, s.mc, v); }
    assert 0 in xs;
    OthersOfDistinct(s, xs);
  }

  /** What the first `passes` passes name, up to the next one. */
  lemma PassesAddUp(env: Env, s: State, passes: nat)
    requires s.mc > 0 && Turning(s, s.mc) && s.rr == 0
    ensures var t := AdvanceN(env, s, Times(passes, s.mc)).0;
      && t.mc == s.mc && t.members == s.members && t.self == s.self && t.rr == 0 && Turning(t, s.mc)
      && AdvanceN(env, s, Times(passes + 1, s.mc)).1 ==
           AdvanceN(env, s, Times(passes, s.mc)).1 + AdvanceN(env, t, s.mc).1
  {
    hide AdvanceN, Turning, Perm, Times;
    EveryPassIsComplete(env, s, passes);
    TimesNext(passes, s.mc);
    AdvancesAddUp(env, s, Times(passes, s.mc), s.mc);
  }

  lemma {:induction false} PassesLong(env: Env, s: State, passes: nat)
    requires s.mc > 0 && Turning(s, s.mc) && s.rr == 0
    ensures |Others(s, AdvanceN(env, s, Times(passes, s.mc)).1)| == Times(passes, Peers(s))
  {
    hide AdvanceN, Turning, Others, Peers, Times;
    if passes == 0 {
      TimesZero(s.mc);
      TimesZero(Peers(s));
      NoOthers(s, AdvanceN(env, s, 0).1);
    } else {
      PassesLong(env, s, passes - 1);
      PassesAddUp(env, s, passes - 1);
      var t := AdvanceN(env, s, Times(passes - 1, s.mc)).0;
      PassHasEveryPeer(env, t);
      SameOthers(s, t, AdvanceN(env, t, s.mc).1);
      SamePeers(s, t);
      OthersAddUp(s, AdvanceN(env, s, Times(passes - 1, s.mc)).1, AdvanceN(env, t, s.mc).1);
      TimesNext(passes - 1, Peers(s));
    }
  }

  lemma SamePeers(s: State, t: State)
    requires t.members == s.members && t.self == s.self && t.mc == s.mc
    ensures Peers(t) == Peers(s)
  {
  }

  /** With at least two peers, or with ourselves not live, no retrieval comes back empty. */
  lemma {:induction false} AllReturn(env: Env, s: State, n: nat)
    requires s.mc > 0 && Turning(s, s.mc) && (s.mc >= 3 || !IsSelf(s, 0))
    ensures |RetrieveN(env, s, n).1| == n
    decreases n
  {
    hide IsSelf, Retrieve, Turning;
    if n == 0 {
    } else {
      RetrieveEmptyIff(env, s);
      var k := RetrievalReads(env, s);
      SelfStays(s, Retrieve(env, s).0, 0);
      AllReturn(env, Retrieve(env, s).0, n - 1);
    }
  }

  lemma Prefixes<T>(a: seq<T>, b: seq<T>, c: seq<T>, d: seq<T>)
    requires a + b == c + d && |a| == |c|
    ensures a == c
  {
    assert a == (a + b)[..|a|] && c == (c + d)[..|c|];
  }

  /** As many retrievals as the passes have peers return exactly what the passes name. */
  lemma RetrievalsArePasses(env: Env, s: State, passes: nat)
    requires s.mc > 0 && Turning(s, s.mc) && s.rr == 0
    requires |RetrieveN(env, s, Times(passes, Peers(s))).1| == Times(passes, Peers(s))
    ensures RetrieveN(env, s, Times(passes, Peers(s))).1 == Others(s, AdvanceN(env, s, Times(passes, s.mc)).1)
  {
    hide AdvanceN, Turning, Others, RetrieveN, Peers, Times;
    var k := RetrievalsConsume(env, s, Times(passes, Peers(s)));
    var w := Times(passes, s.mc);
    PassesLong(env, s, passes);
    var a, b := if k < w then k else w, if k < w then w else k;
    AdvancesAddUp(env, s, a, b - a);
    var rest := AdvanceN(env, AdvanceN(env, s, a).0, b - a).1;
    OthersAddUp(s, AdvanceN(env, s, a).1, rest);
    Prefixes(Others(s, AdvanceN(env, s, a).1), Others(s, rest), Others(s, AdvanceN(env, s, b).1), []);
  }

  /**
   * Completeness, as callers see it: from cursor 0, each round of as many retrievals as there are peers
   * returns every peer exactly once, the first round and all later ones, whatever the shuffles do.
   */
  lemma EveryRoundIsComplete(env: Env, s: State, rounds: nat) returns (r: seq<nat>)
    requires s.mc > 0 && Turning(s, s.mc) && s.rr == 0 && (s.mc >= 3 || !IsSelf(s, 0))
    ensures RetrieveN(env, s, Times(rounds + 1, Peers(s))).1 == RetrieveN(env, s, Times(rounds, Peers(s))).1 + r
    ensures EveryPeerOnce(s, r)
  {
    hide AdvanceN, Turning, Others, RetrieveN, Peers, EveryPeerOnce, IsSelf, Times;
    AllReturn(env, s, Times(rounds, Peers(s)));
    AllReturn(env, s, Times(rounds + 1, Peers(s)));
    RetrievalsArePasses(env, s, rounds);
    RetrievalsArePasses(env, s, rounds + 1);
    PassesAddUp(env, s, rounds);
    var t := AdvanceN(env, s, Times(rounds, s.mc)).0;
    PassHasEveryPeer(env, t);
    SameOthers(s, t, AdvanceN(env, t, s.mc).1);
    r := Others(s, AdvanceN(env, t, s.mc).1);
    OthersAddUp(s, AdvanceN(env, s, Times(rounds, s.mc)).1, AdvanceN(env, t, s.mc).1);
    PeersAlike(s, t, r);
  }

  lemma PeersAlike(s: State, t: State, r: seq<nat>)
    requires t.members == s.members && t.self == s.self && t.mc == s.mc && EveryPeerOnce(t, r)
    ensures EveryPeerOnce(s, r)
  {
  }

  /** With a single peer the first retrieval from cursor 0 still returns it; a later one may be empty. */
  lemma OnlyPeerReturned(env: Env, s: State)
    requires s.mc == 2 && Turning(s, 2) && s.rr == 0 && IsSelf(s, 0)
    ensures Retrieve(env, s).1 == Some(1)
  {
    hide Retrieve;
    RetrieveEmptyIff(env, s);
    SomebodyElse(env, s);
  }

  lemma SomebodyElse(env: Env, s: State)
    requires Turning(s, s.mc)
    ensures var r := Retrieve(env, s).1; r.Some? ==> r.value < s.mc && !IsSelf(s, r.value)
  {
    hide RetrieveFrom;
    RetrieveKeepsRing(env, s, s.mc);
  }

  // ----- returned again soon -----

  /** If the d-th position from here is not our own, some number of retrievals ends exactly with it. */
  lemma {:induction false} RetrievalEndsAt(env: Env, s: State, d: nat) returns (n: nat)
    requires s.mc > 0 && Turning(s, s.mc) && d > 0 && !IsSelf(s, AdvanceN(env, s, d).1[d - 1])
    ensures 1 <= n <= d && RetrieveN(env, s, n).0 == AdvanceN(env, s, d).0
    ensures RetrieveN(env, s, n).1 == Others(s, AdvanceN(env, s, d).1)
    decreases d
  {
    hide IsSelf, Retrieve, Advance, AdvanceN, Turning, Others;
    var k := RetrievalReads(env, s);
    var s1 := Retrieve(env, s).0;
    RetrieveOnce(env, s);
    if k > d {
      SamePosition(env, s, d, k);
      assert false;
    } else if k == d {
      n := 1;
    } else {
      AdvancesAddUp(env, s, k, d - k);
      LastOfAll(AdvanceN(env, s, k).1, AdvanceN(env, s1, d - k).1);
      SelfStays(s, s1, AdvanceN(env, s, d).1[d - 1]);
      n := RetrievalEndsAt(env, s1, d - k);
      OthersAddUp(s, AdvanceN(env, s, k).1, AdvanceN(env, s1, d - k).1);
      SameOthers(s, s1, AdvanceN(env, s1, d - k).1);
      RetrieveFirst(env, s, n + 1);
      n := n + 1;
    }
  }

  lemma LastOfAll<T>(xs: seq<T>, ys: seq<T>)
    requires ys != []
    ensures (xs + ys)[|xs + ys| - 1] == ys[|ys| - 1]
  {
  }

  lemma SamePosition(env: Env, s: State, d: nat, k: nat)
    requires s.mc > 0 && 0 < d <= k
    ensures AdvanceN(env, s, k).1[d - 1] == AdvanceN(env, s, d).1[d - 1]
  {
    hide AdvanceN;
    AdvancesAddUp(env, s, d, k - d);
  }

  lemma RetrieveFirst(env: Env, s: State, n: nat)
    requires n > 0
    ensures var (s1, x) := Retrieve(env, s);
      && RetrieveN(env, s, n).0 == RetrieveN(env, s1, n - 1).0
      && RetrieveN(env, s, n).1 == (if x.Some? then [x.value] else []) + RetrieveN(env, s1, n - 1).1
  {
    hide Retrieve;
  }

  lemma RetrieveOnce(env: Env, s: State)
    ensures RetrieveN(env, s, 1).0 == Retrieve(env, s).0
    ensures RetrieveN(env, s, 1).1 == if Retrieve(env, s).1.Some? then [Retrieve(env, s).1.value] else []
  {
    hide Retrieve;
    RetrieveFirst(env, s, 1);
    assert RetrieveN(env, Retrieve(env, s).0, 0) == (Retrieve(env, s).0, []);
  }

  /** A member returned now is returned again by one of the retrievals that read the next 2n - 1 positions. */
  lemma ReturnedAgainSoon(env: Env, s: State) returns (n: nat, d: nat)
    requires s.mc > 0 && Turning(s, s.mc) && Retrieve(env, s).1.Some?
    ensures 1 <= n <= d <= 2 * s.mc - 1
    ensures var (t, x) := Retrieve(env, s);
      && RetrieveN(env, t, n).0 == AdvanceN(env, t, d).0
      && RetrieveN(env, t, n).1 != [] && RetrieveN(env, t, n).1[|RetrieveN(env, t, n).1| - 1] == x.value
  {
    hide IsSelf, Retrieve, Advance, AdvanceN, Turning, Others;
    var k := RetrievalReads(env, s);
    var (t, x) := Retrieve(env, s);
    AdvancesTurn(env, s, k - 1);
    var p := AdvanceN(env, s, k - 1).0;
    d := NamedAgainSoon(env, p);
    AdvancesAddUp(env, s, k - 1, 1);
    AdvancesAddUp(env, p, 1, d);
    assert AdvanceN(env, p, 1).0 == t;
    assert AdvanceN(env, p, 1).1[0] == AdvanceN(env, s, k).1[k - 1] == x.value;
    assert AdvanceN(env, t, d).1[d - 1] == AdvanceN(env, p, d + 1).1[d] == x.value;
    SelfStays(s, t, x.value);
    n := RetrievalEndsAt(env, t, d);
    LastOfOthers(t, AdvanceN(env, t, d).1);
  }

  lemma LastOfOthers(s: State, xs: seq<nat>)
    requires xs != [] && !IsSelf(s, xs[|xs| - 1])
    ensures Others(s, xs) != [] && Others(s, xs)[|Others(s, xs)| - 1] == xs[|xs| - 1]
  {
    hide IsSelf;
    var n := |xs| - 1;
    assert xs == xs[..n] + [xs[n]];
    OthersAddUp(s, xs[..n], [xs[n]]);
    LastOther(s, [xs[n]]);
  }
}
