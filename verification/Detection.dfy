/**
 * Completeness of the failure detector: when nothing more is heard, every named peer is suspected and then
 * confirmed, after a bounded number of turns on an advancing clock.
 */
module Detection {
  import opened Types
  import opened Seqs
  import opened Tables
  import opened Protocol
  import opened Invariant
  import opened Preservation
  import opened RoundRobin
  import opened Views
  import opened Sweeps

  // ----- what is left to do -----

  function Sum<T>(xs: seq<T>, weight: T -> nat): nat {
    if xs == [] then 0 else Sum(xs[..|xs| - 1], weight) + weight(xs[|xs| - 1])
  }

  lemma {:induction false} SumUpdate<T>(xs: seq<T>, weight: T -> nat, i: nat, x: T)
    requires i < |xs|
    ensures Sum(xs[i := x], weight) + weight(xs[i]) == Sum(xs, weight) + weight(x)
    decreases |xs|
  {
    var n := |xs| - 1;
    if i == n {
      assert xs[i := x][..n] == xs[..n];
    } else {
      assert xs[i := x][..n] == xs[..n][i := x];
      SumUpdate(xs[..n], weight, i, x);
    }
  }

  lemma {:induction false} SumRemove<T>(xs: seq<T>, weight: T -> nat, i: nat)
    requires i < |xs|
    ensures Sum(RemoveAt(xs, i), weight) + weight(xs[i]) == Sum(xs, weight)
    decreases |xs|
  {
    var n := |xs| - 1;
    if i == n {
      assert RemoveAt(xs, i) == xs[..n];
    } else {
      assert RemoveAt(xs, i)[..n - 1] == RemoveAt(xs[..n], i);
      SumRemove(xs[..n], weight, i);
    }
  }

  lemma SumAppend<T>(xs: seq<T>, weight: T -> nat, x: T)
    ensures Sum(xs + [x], weight) == Sum(xs, weight) + weight(x)
  {
    assert (xs + [x])[..|xs|] == xs;
  }

  /** The last element moves into the hole. */
  lemma SumReplace<T>(xs: seq<T>, weight: T -> nat, i: nat)
    requires i < |xs|
    ensures Sum(xs[i := xs[|xs| - 1]][..|xs| - 1], weight) + weight(xs[i]) == Sum(xs, weight)
  {
    hide Sum;
    var n := |xs| - 1;
    SumUpdate(xs, weight, i, xs[n]);
    SumLast(xs[i := xs[n]], weight);
  }

  lemma SumLast<T>(xs: seq<T>, weight: T -> nat)
    requires xs != []
    ensures Sum(xs, weight) == Sum(xs[..|xs| - 1], weight) + weight(xs[|xs| - 1])
  {
  }

  lemma {:induction false} SumPositive<T>(xs: seq<T>, weight: T -> nat) returns (i: nat)
    requires Sum(xs, weight) > 0
    ensures i < |xs| && weight(xs[i]) > 0
    decreases |xs|
  {
    var n := |xs| - 1;
    if weight(xs[n]) > 0 {
      i := n;
    } else {
      i := SumPositive(xs[..n], weight);
    }
  }

  lemma {:induction false} SumZero<T>(xs: seq<T>, weight: T -> nat, i: nat)
    requires Sum(xs, weight) == 0 && i < |xs|
    ensures weight(xs[i]) == 0
    decreases |xs|
  {
    var n := |xs| - 1;
    if i >= n {
    } else {
      SumZero(xs[..n], weight, i);
    }
  }

  lemma {:induction false} SumBound<T>(xs: seq<T>, weight: T -> nat, most: nat)
    requires forall i :: 0 <= i < |xs| ==> weight(xs[i]) <= most
    ensures Sum(xs, weight) <= Times(|xs|, most)
    decreases |xs|
  {
    if xs == [] {
      TimesZero(most);
    } else {
      SumBound(xs[..|xs| - 1], weight, most);
      TimesNext(|xs| - 1, most);
    }
  }

  /** How many transitions a live member is away from confirmation: none is due for ourselves and the blank seed. */
  function Due(me: Uuid): Member -> nat {
    (m: Member) =>
      if m.entry.status == Suspect then 1 else if m.entry.uuid == BLANK || m.entry.uuid == me then 0 else 2
  }

  /** A ping that points at no live slot. */
  function Stray(mc: nat): Ping -> nat {
    (p: Ping) => if p.slot >= mc then 1 else 0
  }

  function Load(s: State): nat {
    Sum(Lives(s), Due(s.self.uuid))
  }

  function Strays(s: State): nat {
    Sum(s.pings, Stray(s.mc))
  }

  predicate Lighter(s: State, t: State) {
    Load(t) < Load(s) || (Load(t) == Load(s) && Strays(t) < Strays(s))
  }

  predicate NoHeavier(s: State, t: State) {
    Load(t) < Load(s) || (Load(t) == Load(s) && Strays(t) <= Strays(s))
  }

  // ----- the ring: how far away a slot is -----

  /** Where x stands among the first n entries. */
  function Place(xs: seq<nat>, n: nat, x: nat): (p: nat)
    requires n <= |xs|
    ensures x in xs[..n] ==> p < n && xs[p] == x
  {
    if n == 0 then 0
    else if xs[n - 1] == x then n - 1
    else
      assert xs[..n] == xs[..n - 1] + [xs[n - 1]];
      Place(xs, n - 1, x)
  }

  /** At most so many positions are read before x is, whatever the shuffle in between does. */
  function Distance(s: State, x: nat): nat
    requires s.rr <= s.mc
  {
    var p := Place(s.indices, s.mc, x);
    if p >= s.rr then p - s.rr else 2 * s.mc - 1 - s.rr
  }

  lemma PlaceHolds(s: State, x: nat)
    requires s.mc > 0 && Turning(s, s.mc) && x < s.mc
    ensures s.rr < s.mc
    ensures var p := Place(s.indices, s.mc, x);
      p < s.mc && s.indices[p] == x && forall q :: 0 <= q < s.mc && s.indices[q] == x ==> q == p
    ensures Distance(s, x) < 2 * s.mc
  {
    var p := PermHits(s.indices, s.mc, x);
    assert s.indices[..s.mc][p] == x;
  }

  lemma AdvanceNears(env: Env, s: State, x: nat)
    requires s.mc > 0 && Turning(s, s.mc) && x < s.mc
    ensures var (t, y) := Advance(env, s);
      Turning(t, s.mc) && t.rr < s.mc && (y == x || Distance(t, x) < Distance(s, x))
    ensures s.rr < s.mc
  {
    hide Advance, Turning, Place;
    AdvanceFacts(env, s, s.mc);
    var t := Advance(env, s).0;
    PlaceHolds(s, x);
    PlaceHolds(t, x);
  }

  lemma {:induction false} AdvancesNear(env: Env, s: State, x: nat, k: nat)
    requires s.mc > 0 && Turning(s, s.mc) && x < s.mc && x !in AdvanceN(env, s, k).1
    ensures s.rr < s.mc && AdvanceN(env, s, k).0.rr < s.mc && Turning(AdvanceN(env, s, k).0, s.mc)
    ensures Distance(AdvanceN(env, s, k).0, x) + k <= Distance(s, x)
    decreases k
  {
    hide Advance, Turning, Distance;
    if k == 0 {
      AdvanceNears(env, s, x);
    } else {
      var (t, xs) := AdvanceN(env, s, k - 1);
      assert AdvanceN(env, s, k).1 == xs + [Advance(env, t).1];
      AdvancesNear(env, s, x, k - 1);
      AdvanceNears(env, t, x);
      assert (xs + [Advance(env, t).1])[k - 1] == Advance(env, t).1;
    }
  }

  /** A retrieval returns x or comes nearer to it. */
  lemma RetrieveNears(env: Env, s: State, x: nat)
    requires s.mc > 0 && Turning(s, s.mc) && x < s.mc && !IsSelf(s, x)
    ensures var (t, y) := Retrieve(env, s);
      && s.rr < s.mc && t.rr < s.mc && Turning(t, s.mc) && Distance(s, x) < 2 * s.mc
      && (y == Some(x) || Distance(t, x) < Distance(s, x))
  {
    hide Advance, AdvanceN, Retrieve, Turning, IsSelf, Distance, Others;
    var k := RetrievalReads(env, s);
    var xs := AdvanceN(env, s, k).1;
    PlaceHolds(s, x);
    RetrieveInRange(env, s);
    if x in xs {
      var i :| 0 <= i < k && xs[i] == x;
      assert i == k - 1;
    } else {
      AdvancesNear(env, s, x, k);
    }
  }

  lemma RetrieveInRange(env: Env, s: State)
    requires s.mc > 0 && Turning(s, s.mc)
    ensures Retrieve(env, s).0.rr < s.mc
  {
    hide RetrieveFrom;
    RetrieveKeepsRing(env, s, s.mc);
  }

  // ----- detector turns -----

  /** The slot of a named peer. */
  predicate IsPeer(s: State, x: nat) {
    x < s.mc && s.members[x].entry.uuid != BLANK && !IsSelf(s, x)
  }

  predicate NoSuspect(s: State) {
    forall i :: 0 <= i < s.mc ==> s.members[i].entry.status != Suspect
  }

  lemma BlankNotPinged(s: State, k: Knowledge)
    requires Core(s, k)
    ensures DropPing(s, BLANK) == s
  {
    hide UniqueUuids, Followed, SlotsOk, SeedOk, SelfListed, OutboxOk;
    forall x | 0 <= x < |s.pings| ensures !Targets(s, BLANK)(s.pings[x]) {
      assert PingOk(s.self.uuid, s.members, s.mc, s.pings[x]);
    }
    FirstNone(s.pings, Targets(s, BLANK));
  }

  lemma PingAddLeaves(env: Env, s: State, k: Knowledge, slot: nat)
    requires Core(s, k) && slot < s.mc
    ensures var t := PingAdd(env, s, slot);
      && Sum(t.pings, Stray(s.mc)) <= Sum(s.pings, Stray(s.mc))
      && (s.pings != [] || s.members[slot].entry.uuid != BLANK ==> t.pings != [])
  {
    hide Core, Sum;
    var u := s.members[slot].entry.uuid;
    BlankNotPinged(s, k);
    var p := PingFind(s, u);
    if p.Some? { SumRemove(s.pings, Stray(s.mc), p.value); }
    var ps, t := DropPing(s, u).pings, PingAdd(env, s, slot);
    if t.pings != ps { SumAppend(ps, Stray(s.mc), t.pings[|t.pings| - 1]); }
  }

  /** Nothing but pings, counts, ring and post has changed. */
  predicate Still(s: State, t: State) {
    t.members == s.members && t.mc == s.mc && t.self == s.self && Strays(t) <= Strays(s)
  }

  lemma StillNoHeavier(s: State, t: State)
    requires Still(s, t)
    ensures Load(t) == Load(s) && NoHeavier(s, t)
  {
  }

  lemma ProbeLeaves(env: Env, s: State, k: Knowledge, slot: nat)
    requires Inv(s, k) && slot < s.mc
    ensures var t := Probe(env, s, slot);
      && Still(s, t) && t.indices == s.indices && t.rr == s.rr
      && (s.pings != [] || s.members[slot].entry.uuid != BLANK ==> t.pings != [])
  {
    hide Core, Gossip, PingAdd, Ring, Sum;
    GossipKeeps(env.cfg, s, k, PingMessage);
    var (s1, ping) := Gossip(env.cfg, s, PingMessage);
    var to := Slot(s1, slot).entry.addr;
    SendKeeps(s1, k, to, ping);
    PingAddLeaves(env, Send(s1, to, ping), k, slot);
  }

  lemma SameDistance(s: State, t: State, x: nat)
    requires s.rr <= s.mc && t.indices == s.indices && t.rr == s.rr && t.mc == s.mc
    ensures Distance(t, x) == Distance(s, x)
  {
  }

  /** n probes come n positions nearer to the peer x, unless somebody is pinged. */
  lemma {:induction false} DetectNears(env: Env, s: State, k: Knowledge, x: nat, n: nat)
    requires Inv(s, k) && IsPeer(s, x)
    ensures var t := Detect(env, s, n);
      && Still(s, t) && s.rr < s.mc && t.rr < t.mc
      && (s.pings != [] ==> t.pings != [])
      && (t.pings != [] || Distance(t, x) + n <= Distance(s, x))
    decreases n
  {
    hide Core, Retrieve, Probe, Turning, Ring, Distance, Strays;
    InvTurning(s, k);
    PlaceHolds(s, x);
    if n == 0 {
    } else {
      DetectNears(env, s, k, x, n - 1);
      DetectKeeps(env, s, k, n - 1);
      ProbeNears(env, Detect(env, s, n - 1), k, x);
    }
  }

  /** One probe comes one position nearer to the peer x, unless somebody is pinged. */
  lemma ProbeNears(env: Env, s: State, k: Knowledge, x: nat)
    requires Inv(s, k) && IsPeer(s, x)
    ensures var (s1, to) := Retrieve(env, s);
      var t := if to.Some? then Probe(env, s1, to.value) else s1;
      && Still(s, t) && s.rr < s.mc && t.rr < t.mc
      && (s.pings != [] ==> t.pings != [])
      && (t.pings != [] || Distance(t, x) + 1 <= Distance(s, x))
  {
    hide Core, Retrieve, Probe, Turning, Ring, Distance, Strays;
    InvTurning(s, k);
    RetrieveNears(env, s, x);
    RetrieveKeeps(env, s, k);
    var (s1, to) := Retrieve(env, s);
    SamePings(s, s1);
    if to.Some? {
      ProbeLeaves(env, s1, k, to.value);
      SameDistance(s1, Probe(env, s1, to.value), x);
    }
  }

  lemma SamePings(s: State, t: State)
    requires t.pings == s.pings && t.mc == s.mc
    ensures Strays(t) == Strays(s)
  {
  }

  lemma {:induction false} DetectStill(env: Env, s: State, k: Knowledge, n: nat)
    requires Inv(s, k)
    ensures Still(s, Detect(env, s, n))
    decreases n
  {
    hide Inv, Retrieve, Probe, Strays;
    if n == 0 {
    } else {
      var s0 := Detect(env, s, n - 1);
      DetectStill(env, s, k, n - 1);
      DetectKeeps(env, s, k, n - 1);
      RetrieveKeeps(env, s0, k);
      var (s1, to) := Retrieve(env, s0);
      SamePings(s0, s1);
      if to.Some? { ProbeLeaves(env, s1, k, to.value); }
    }
  }

  // ----- listener turns -----

  /** Not even the ring has moved. */
  predicate Unmoved(s: State, t: State) {
    && t.members == s.members && t.mc == s.mc && t.self == s.self
    && t.indices == s.indices && t.rr == s.rr && Strays(t) == Strays(s)
  }

  lemma PingedIsPeer(s: State, k: Knowledge, i: nat)
    requires Core(s, k) && i < |s.pings| && s.pings[i].slot < s.mc
    ensures var u := s.members[s.pings[i].slot].entry.uuid; u != BLANK && u != s.self.uuid
  {
    hide UniqueUuids, Followed, SlotsOk, SeedOk, OutboxOk;
    assert PingOk(s.self.uuid, s.members, s.mc, s.pings[i]);
  }

  lemma MarkSuspectShape(env: Env, s: State, slot: nat)
    requires slot < |s.members|
    ensures var t := MarkSuspect(env, s, slot);
      && t.pings == s.pings && t.mc == s.mc && t.self == s.self && |t.members| == |s.members|
      && (s.members[slot].entry.status != Alive ==> t == s)
      && (s.members[slot].entry.status == Alive ==>
            && t.members == s.members[slot := t.members[slot]]
            && t.members[slot].entry == s.members[slot].entry.(status := Suspect))
  {
    hide Retrieve;
  }

  /** An expired ping brings its target nearer to confirmation, unless the target is a suspect already. */
  lemma ExpiryWeighs(env: Env, s: State, k: Knowledge, now: nat, i: nat)
    requires Inv(s, k) && i < |s.pings| && s.pings[i].suspectDeadline < now
    ensures var t, slot := PingTurn(env, s, now, i), s.pings[i].slot;
      Lighter(s, t) || (Unmoved(s, t) && slot < s.mc && s.members[slot].entry.status == Suspect)
  {
    hide Core, MarkSuspect, Ring, Sum;
    var t, slot := PingTurn(env, s, now, i), s.pings[i].slot;
    Parts(s, k);
    assert PingOk(s.self.uuid, s.members, s.mc, s.pings[i]);
    MarkSuspectShape(env, s, slot);
    SumReplace(s.pings, Stray(s.mc), i);
    if slot < s.mc {
      PingedIsPeer(s, k, i);
      if s.members[slot].entry.status == Alive {
        assert Lives(t) == Lives(s)[slot := t.members[slot]];
        SumUpdate(Lives(s), Due(s.self.uuid), slot, t.members[slot]);
      }
    } else {
      assert Lives(t) == Lives(s);
    }
  }

  lemma WaitingWeighs(env: Env, s: State, now: nat, i: nat)
    requires i < |s.pings| && s.pings[i].suspectDeadline >= now
    ensures Unmoved(s, PingTurn(env, s, now, i))
  {
    hide AskHelpers, Sum;
    var p := s.pings[i];
    SumUpdate(s.pings, Stray(s.mc), i, p.(pingReq := true));
  }

  lemma LighterThen(s: State, t: State, r: State)
    requires Lighter(s, t) && NoHeavier(t, r)
    ensures Lighter(s, r)
  {
  }

  lemma UnmovedThen(s: State, t: State, r: State)
    requires Unmoved(s, t)
    ensures NoHeavier(s, t)
    ensures Lighter(t, r) ==> Lighter(s, r)
    ensures Unmoved(t, r) ==> Unmoved(s, r)
  {
  }

  /** The sweep over pings makes progress unless no ping, or only pings to suspects, have expired. */
  lemma {:induction false} PingsWeigh(env: Env, s: State, k: Knowledge, now: nat, i: nat)
    requires Inv(s, k)
    ensures var t := PingsFrom(env, s, now, i);
      Lighter(s, t) ||
      (&& Unmoved(s, t)
       && (NoSuspect(s) ==>
             |t.pings| == |s.pings| && forall j :: i <= j < |s.pings| ==> s.pings[j].suspectDeadline >= now))
    decreases |s.pings| - i
  {
    hide Inv, PingTurn, Lighter, Unmoved, NoHeavier;
    if i >= |s.pings| {
      NotMoved(s);
    } else {
      var expired := s.pings[i].suspectDeadline < now;
      var t := PingTurn(env, s, now, i);
      var r := PingsFrom(env, s, now, i);
      PingTurnKeeps(env, s, k, now, i);
      PingTurnPings(env, s, now, i);
      PingsWeigh(env, t, k, now, if expired then i else i + 1);
      if expired { ExpiryWeighs(env, s, k, now, i); } else { WaitingWeighs(env, s, now, i); }
      if Lighter(s, t) {
        if Unmoved(t, r) { UnmovedThen(t, r, r); } else { LighterNoHeavier(t, r); }
        LighterThen(s, t, r);
      } else {
        UnmovedThen(s, t, r);
        SuspectsAlike(s, t);
      }
    }
  }

  lemma NotMoved(s: State)
    ensures Unmoved(s, s)
  {
  }

  lemma LighterNoHeavier(s: State, t: State)
    requires Lighter(s, t)
    ensures NoHeavier(s, t)
  {
  }

  lemma SuspectsAlike(s: State, t: State)
    requires Unmoved(s, t)
    ensures NoSuspect(s) <==> NoSuspect(t)
  {
  }

  /** A confirmation by the sweep is the last transition that was due. */
  lemma ConfirmWeighs(env: Env, s: State, i: nat)
    requires i < s.mc && s.members[i].entry.status == Suspect
    ensures Lighter(s, Confirm(env, s, i))
  {
    hide Confirm, Sum, Strays;
    var t := Confirm(env, s, i);
    ConfirmShape(env, s, i);
    assert Lives(t) == RemoveAt(Lives(s), i);
    SumRemove(Lives(s), Due(s.self.uuid), i);
  }

  lemma SuspectTurnWeighs(env: Env, s: State, i: nat)
    requires i < s.mc
    ensures var t := SuspectTurn(env, s, i); Lighter(s, t) || t == s.(ticks := t.ticks)
  {
    hide Confirm, Lighter;
    if s.members[i].entry.status == Suspect {
      var s1 := s.(ticks := s.ticks + 1);
      ConfirmWeighs(env, s1, i);
      LaterWeighs(s, s.ticks + 1, Confirm(env, s1, i));
    }
  }

  lemma LaterWeighs(s: State, ticks: nat, t: State)
    ensures Lighter(s.(ticks := ticks), t) == Lighter(s, t) && NoHeavier(s.(ticks := ticks), t) == NoHeavier(s, t)
    ensures NoHeavier(s, s.(ticks := ticks))
  {
  }

  lemma {:induction false} SuspectsWeigh(env: Env, s: State, k: Knowledge, i: nat)
    requires Inv(s, k)
    ensures var t := SuspectsFrom(env, s, i); Lighter(s, t) || t == s.(ticks := t.ticks)
    decreases s.mc - i
  {
    hide Inv, SuspectTurn, Lighter, NoHeavier;
    if i >= s.mc {
    } else {
      var t := SuspectTurn(env, s, i);
      var r := SuspectsFrom(env, s, i);
      SuspectTurnKeeps(env, s, k, i);
      SuspectTurnWeighs(env, s, i);
      SuspectsWeigh(env, t, k, i + 1);
      SuspectSteps(s, t, r);
    }
  }

  lemma SuspectSteps(s: State, t: State, r: State)
    requires Lighter(s, t) || t == s.(ticks := t.ticks)
    requires Lighter(t, r) || r == t.(ticks := r.ticks)
    ensures Lighter(s, r) || r == s.(ticks := r.ticks)
  {
  }

  /** An overdue suspect is confirmed, or another one first. */
  lemma {:induction false} OverdueWeighs(env: Env, s: State, k: Knowledge, i: nat, j: nat)
    requires Inv(s, k) && MonotoneClock(env) && i <= j < s.mc
    requires s.members[j].entry.status == Suspect && s.members[j].timeout < env.clock(s.ticks)
    ensures Lighter(s, SuspectsFrom(env, s, i))
    decreases s.mc - i
  {
    hide Inv, SuspectTurn, Lighter, NoHeavier;
    var t := SuspectTurn(env, s, i);
    var r := SuspectsFrom(env, s, i);
    SuspectTurnKeeps(env, s, k, i);
    SuspectTurnWeighs(env, s, i);
    SuspectsWeigh(env, t, k, i + 1);
    if i == j {
      OverdueTurn(env, s, k, i);
      AfterLighter(s, t, r);
    } else if Lighter(s, t) {
      AfterLighter(s, t, r);
    } else {
      TicksRise(env, s, i);
      OverdueWeighs(env, t, k, i + 1, j);
      LaterWeighs(s, t.ticks, r);
    }
  }

  lemma AfterLighter(s: State, t: State, r: State)
    requires Lighter(s, t) && (Lighter(t, r) || r == t.(ticks := r.ticks))
    ensures Lighter(s, r)
  {
  }

  lemma TicksRise(env: Env, s: State, i: nat)
    requires i < s.mc && MonotoneClock(env)
    ensures s.ticks <= SuspectTurn(env, s, i).ticks
    ensures env.clock(s.ticks) <= env.clock(SuspectTurn(env, s, i).ticks)
  {
    hide Confirm;
  }

  lemma OverdueTurn(env: Env, s: State, k: Knowledge, i: nat)
    requires Inv(s, k) && i < s.mc && s.members[i].entry.status == Suspect
    requires s.members[i].timeout < env.clock(s.ticks)
    ensures Lighter(s, SuspectTurn(env, s, i))
  {
    hide Followed, SlotsOk, SeedOk, SelfListed, PingsOk, OutboxOk, StatusOk, Ring, Confirm, Lighter;
    var s1 := s.(ticks := s.ticks + 1);
    LiveNotConfirmed(s, i);
    ConfirmWeighs(env, s1, i);
    LaterWeighs(s, s.ticks + 1, Confirm(env, s1, i));
  }

  /** The listener when nothing is received, sweep by sweep. */
  lemma ListenStages(env: Env, s: State, k: Knowledge)
    requires Inv(s, k)
    ensures var s1 := PingReqsFrom(env, s, 0);
      var s2 := s1.(ticks := s1.ticks + 1);
      var s3 := PingsFrom(env, s2, env.clock(s1.ticks), 0);
      && s2 == s.(pingReqs := s2.pingReqs, ticks := s2.ticks) && s.ticks <= s1.ticks <= s2.ticks <= s3.ticks
      && Inv(s2, k) && Inv(s3, k) && Listen(env, s, None) == SuspectsFrom(env, s3, 0)
  {
    hide Inv, PingReqsFrom, PingsFrom, SuspectsFrom;
    var s1 := PingReqsFrom(env, s, 0);
    PingReqsKeep(env, s, k);
    Ticking(s1, k);
    PingsFromKeeps(env, s1.(ticks := s1.ticks + 1), k, env.clock(s1.ticks), 0);
  }

  lemma Ticking(s: State, k: Knowledge)
    requires Inv(s, k)
    ensures Inv(s.(ticks := s.ticks + 1), k)
  {
    Parts(s, k);
    PingTablesKeep(s, k, s.pings, s.pingReqs, s.draws, s.ticks + 1);
  }

  lemma SameWeight(s: State, t: State, r: State)
    requires t == s.(pingReqs := t.pingReqs, ticks := t.ticks)
    ensures Lighter(t, r) == Lighter(s, r) && Unmoved(t, r) == Unmoved(s, r) && NoSuspect(t) == NoSuspect(s)
  {
  }

  lemma ListenWeighs(env: Env, s: State, k: Knowledge)
    requires Inv(s, k)
    ensures var t := Listen(env, s, None);
      Lighter(s, t) || (Unmoved(s, t) && (NoSuspect(s) ==> |t.pings| == |s.pings|))
  {
    hide Inv, PingReqsFrom, PingsFrom, SuspectsFrom, Listen, Lighter, NoSuspect;
    ListenStages(env, s, k);
    var s1 := PingReqsFrom(env, s, 0);
    var s2 := s1.(ticks := s1.ticks + 1);
    var s3 := PingsFrom(env, s2, env.clock(s1.ticks), 0);
    var t := Listen(env, s, None);
    PingsWeigh(env, s2, k, env.clock(s1.ticks), 0);
    SuspectsWeigh(env, s3, k, 0);
    SameWeight(s, s2, s3);
    if Lighter(s, s3) { AfterLighter(s, s3, t); } else { UnmovedThen(s, s3, t); }
  }

  /** The clock is past every deadline. */
  ghost predicate Late(env: Env, s: State) {
    && (forall x :: 0 <= x < |s.pings| ==> s.pings[x].suspectDeadline < env.clock(s.ticks))
    && (forall i :: 0 <= i < s.mc && s.members[i].entry.status == Suspect ==> s.members[i].timeout < env.clock(s.ticks))
  }

  /** A late listener turn makes progress whenever there is a suspect or a ping. */
  lemma LateListenLightens(env: Env, s: State, k: Knowledge)
    requires Inv(s, k) && MonotoneClock(env) && Late(env, s)
    requires !NoSuspect(s) || s.pings != []
    ensures Lighter(s, Listen(env, s, None))
  {
    hide Inv, PingReqsFrom, PingsFrom, SuspectsFrom, Listen, Lighter;
    ListenStages(env, s, k);
    var s1 := PingReqsFrom(env, s, 0);
    var s2 := s1.(ticks := s1.ticks + 1);
    var now := env.clock(s1.ticks);
    var s3 := PingsFrom(env, s2, now, 0);
    var t := Listen(env, s, None);
    PingsWeigh(env, s2, k, now, 0);
    SuspectsWeigh(env, s3, k, 0);
    SameWeight(s, s2, s3);
    assert env.clock(s.ticks) <= now && env.clock(s.ticks) <= env.clock(s3.ticks);
    assert s.pings != [] ==> s2.pings[0].suspectDeadline < now;
    if Lighter(s, s3) {
      AfterLighter(s, s3, t);
    } else {
      var j :| 0 <= j < s.mc && s.members[j].entry.status == Suspect;
      assert s3.members[j] == s.members[j];
      OverdueWeighs(env, s3, k, 0, j);
      UnmovedThen(s, s3, t);
    }
  }
}
