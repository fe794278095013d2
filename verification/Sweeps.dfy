/**
 * The periodic sweeps. Two of them skip the element after each removal, yet each call removes at
 * least half of what has expired; the third swaps the last ping into the hole and misses nothing.
 */
module Sweeps {
  import opened Types
  import opened Seqs
  import opened Tables
  import opened Protocol
  import opened Invariant
  import opened Preservation
  import opened Views

  // ----- a sweep that skips -----

  /** Remove each hit, but keep whatever follows it unseen. */
  function SkipSweep<T>(xs: seq<T>, hit: T -> bool): seq<T> {
    if xs == [] then []
    else if !hit(xs[0]) then [xs[0]] + SkipSweep(xs[1..], hit)
    else if |xs| == 1 then []
    else [xs[1]] + SkipSweep(xs[2..], hit)
  }

  /** What the sweep removes, in order. */
  function Taken<T>(xs: seq<T>, hit: T -> bool): (r: seq<T>)
    ensures |r| == |xs| - |SkipSweep(xs, hit)|
  {
    if xs == [] then []
    else if !hit(xs[0]) then Taken(xs[1..], hit)
    else [xs[0]] + if |xs| == 1 then [] else Taken(xs[2..], hit)
  }

  /** How many hits stand directly before place i. */
  function HitsBefore<T>(xs: seq<T>, hit: T -> bool, i: nat): nat
    requires i <= |xs|
  {
    if i == 0 || !hit(xs[i - 1]) then 0 else HitsBefore(xs, hit, i - 1) + 1
  }

  /** The sweep removes the hit at place i: an even number of hits stands directly before it. */
  predicate Reached<T>(xs: seq<T>, hit: T -> bool, i: nat)
    requires i < |xs|
  {
    hit(xs[i]) && HitsBefore(xs, hit, i) % 2 == 0
  }

  /** The elements from place i on that are reached, or are not, in order. */
  function Sifted<T>(xs: seq<T>, hit: T -> bool, i: nat, reached: bool): seq<T>
    requires i <= |xs|
    decreases |xs| - i
  {
    if i == |xs| then []
    else (if Reached(xs, hit, i) == reached then [xs[i]] else []) + Sifted(xs, hit, i + 1, reached)
  }

  lemma {:induction false} SiftedFrom<T>(xs: seq<T>, hit: T -> bool, i: nat)
    requires i <= |xs| && HitsBefore(xs, hit, i) % 2 == 0
    ensures Taken(xs[i..], hit) == Sifted(xs, hit, i, true)
    ensures SkipSweep(xs[i..], hit) == Sifted(xs, hit, i, false)
    decreases |xs| - i
  {
    if i == |xs| {
    } else if !hit(xs[i]) {
      assert xs[i..][1..] == xs[i + 1..];
      SiftedFrom(xs, hit, i + 1);
    } else if i + 1 < |xs| {
      assert xs[i..][2..] == xs[i + 2..];
      assert HitsBefore(xs, hit, i + 1) == HitsBefore(xs, hit, i) + 1;
      SiftedFrom(xs, hit, i + 2);
    } else {
      assert Sifted(xs, hit, i + 1, true) == Sifted(xs, hit, i + 1, false) == [];
    }
  }

  /** The skipping sweep, exactly: in each row of hits the first, the third, and so on are removed. */
  lemma SkipSweepExactly<T>(xs: seq<T>, hit: T -> bool)
    ensures Taken(xs, hit) == Sifted(xs, hit, 0, true)
    ensures SkipSweep(xs, hit) == Sifted(xs, hit, 0, false)
  {
    assert xs[0..] == xs;
    SiftedFrom(xs, hit, 0);
  }

  function Hits<T>(xs: seq<T>, hit: T -> bool): nat {
    if xs == [] then 0 else (if hit(xs[0]) then 1 else 0) + Hits(xs[1..], hit)
  }

  function Misses<T>(xs: seq<T>, hit: T -> bool): seq<T> {
    if xs == [] then [] else (if hit(xs[0]) then [] else [xs[0]]) + Misses(xs[1..], hit)
  }

  function Sweeping<T>(xs: seq<T>, hit: T -> bool, calls: nat): seq<T>
    decreases calls
  {
    if calls == 0 then xs else Sweeping(SkipSweep(xs, hit), hit, calls - 1)
  }

  function PowerOfTwo(n: nat): nat {
    if n == 0 then 1 else 2 * PowerOfTwo(n - 1)
  }

  /** One call removes at least half of the hits, rounded up, and keeps the rest in order. */
  lemma {:induction false} SkipSweepHalves<T>(xs: seq<T>, hit: T -> bool)
    ensures 2 * Hits(SkipSweep(xs, hit), hit) <= Hits(xs, hit)
    ensures Misses(SkipSweep(xs, hit), hit) == Misses(xs, hit)
  {
    if xs == [] {
    } else {
      if !hit(xs[0]) {
        SkipSweepHalves(xs[1..], hit);
        assert SkipSweep(xs, hit)[1..] == SkipSweep(xs[1..], hit);
      } else if |xs| > 1 {
        SkipSweepHalves(xs[2..], hit);
        assert SkipSweep(xs, hit)[1..] == SkipSweep(xs[2..], hit);
        assert xs[1..][1..] == xs[2..];
        assert Hits(xs, hit) == 1 + (if hit(xs[1]) then 1 else 0) + Hits(xs[2..], hit);
        assert Misses(xs, hit) == (if hit(xs[1]) then [] else [xs[1]]) + Misses(xs[2..], hit);
      } else {
        assert Hits(xs[1..], hit) == 0 && Misses(xs[1..], hit) == [];
      }
    }
  }

  /** Fewer than 2^n hits are gone after n calls: floor(log2 k) + 1 calls clear k of them. */
  lemma {:induction false} SweepingClears<T>(xs: seq<T>, hit: T -> bool, calls: nat)
    requires Hits(xs, hit) < PowerOfTwo(calls)
    ensures Hits(Sweeping(xs, hit, calls), hit) == 0
    ensures Sweeping(xs, hit, calls) == Misses(xs, hit)
    decreases calls
  {
    if calls == 0 {
      NoHits(xs, hit);
    } else {
      SkipSweepHalves(xs, hit);
      SweepingClears(SkipSweep(xs, hit), hit, calls - 1);
    }
  }

  lemma {:induction false} NoHits<T>(xs: seq<T>, hit: T -> bool)
    requires Hits(xs, hit) == 0
    ensures Misses(xs, hit) == xs
  {
    if xs == [] {
    } else {
      NoHits(xs[1..], hit);
    }
  }

  /** The skipping sweep, one element at a time, in terms of the place it has reached. */
  lemma SkipSweepAt<T>(q: seq<T>, i: nat, hit: T -> bool)
    requires i < |q|
    ensures !hit(q[i]) ==> q[..i] + SkipSweep(q[i..], hit) == q[..i + 1] + SkipSweep(q[i + 1..], hit)
    ensures hit(q[i]) && i + 1 < |q| ==>
      q[..i] + SkipSweep(q[i..], hit) == RemoveAt(q, i)[..i + 1] + SkipSweep(RemoveAt(q, i)[i + 1..], hit)
    ensures hit(q[i]) && i + 1 == |q| ==> q[..i] + SkipSweep(q[i..], hit) == RemoveAt(q, i)
  {
    var r := RemoveAt(q, i);
    assert q[i..][1..] == q[i + 1..];
    if i + 1 < |q| { assert q[i..][2..] == r[i + 1..]; }
  }

  // ----- indirect pings -----

  ghost predicate FixedClock(env: Env, now: nat) {
    forall i: nat :: env.clock(i) == now
  }

  function Stale(now: nat): PingReq -> bool {
    (p: PingReq) => p.timeout < now
  }

  /** At a fixed clock reading the sweep over indirect pings is the skipping sweep. */
  lemma {:induction false} PingReqsSkip(env: Env, s: State, now: nat, i: nat)
    requires FixedClock(env, now) && i <= |s.pingReqs|
    ensures PingReqsFrom(env, s, i).pingReqs == s.pingReqs[..i] + SkipSweep(s.pingReqs[i..], Stale(now))
    decreases |s.pingReqs| - i
  {
    hide SkipSweep, RemoveAt;
    var q := s.pingReqs;
    if i < |q| {
      SkipSweepAt(q, i, Stale(now));
      var t := s.(ticks := s.ticks + 1);
      if Stale(now)(q[i]) {
        if i + 1 < |q| { PingReqsSkip(env, t.(pingReqs := RemoveAt(q, i)), now, i + 1); }
      } else {
        PingReqsSkip(env, t, now, i + 1);
      }
    } else {
      NothingToSweep(q, i, Stale(now));
    }
  }

  lemma NothingToSweep<T>(q: seq<T>, i: nat, hit: T -> bool)
    requires i == |q|
    ensures q[..i] + SkipSweep(q[i..], hit) == q
  {
    assert SkipSweep(q[i..], hit) == [];
  }

  /** The sweep over indirect pings, called n times in a row. */
  function PingReqSweeps(env: Env, s: State, n: nat): State
    decreases n
  {
    if n == 0 then s else PingReqSweeps(env, PingReqsFrom(env, s, 0), n - 1)
  }

  lemma {:induction false} PingReqSweepsAre(env: Env, s: State, now: nat, n: nat)
    requires FixedClock(env, now)
    ensures PingReqSweeps(env, s, n).pingReqs == Sweeping(s.pingReqs, Stale(now), n)
    decreases n
  {
    hide PingReqsFrom, SkipSweep;
    if n == 0 {
    } else {
      PingReqsSkip(env, s, now, 0);
      assert s.pingReqs[..0] == [] && s.pingReqs[0..] == s.pingReqs;
      assert PingReqsFrom(env, s, 0).pingReqs == SkipSweep(s.pingReqs, Stale(now));
      PingReqSweepsAre(env, PingReqsFrom(env, s, 0), now, n - 1);
    }
  }

  /** Fewer than 2^n stale indirect pings are gone after n calls, and only they are. */
  lemma PingReqSweepsClear(env: Env, s: State, now: nat, n: nat)
    requires FixedClock(env, now) && Hits(s.pingReqs, Stale(now)) < PowerOfTwo(n)
    ensures PingReqSweeps(env, s, n).pingReqs == Misses(s.pingReqs, Stale(now))
  {
    PingReqSweepsAre(env, s, now, n);
    SweepingClears(s.pingReqs, Stale(now), n);
  }

  // ----- indirect pings that are answered -----

  /** An indirect ping that waits for an answer from u. */
  function Waiting(s: State, u: Uuid): PingReq -> bool {
    (p: PingReq) => Slot(s, p.target).entry.uuid == u
  }

  lemma {:induction false} SameWaiting(s: State, t: State, u: Uuid, q: seq<PingReq>)
    requires t.members == s.members
    ensures SkipSweep(q, Waiting(t, u)) == SkipSweep(q, Waiting(s, u))
    decreases |q|
  {
    if q == [] {
    } else if !Waiting(s, u)(q[0]) {
      SameWaiting(s, t, u, q[1..]);
    } else if |q| > 1 {
      SameWaiting(s, t, u, q[2..]);
    }
  }

  /** The packet tells who asked, in the name of the one asked about. */
  predicate Answers(s: State, p: Packet, q: PingReq) {
    && p.to == Slot(s, q.source).entry.addr
    && p.message.kind == AckMessage && p.message.sender == Slot(s, q.target).entry
  }

  predicate AllAnswered(s: State, told: seq<Packet>, qs: seq<PingReq>) {
    |told| == |qs| && forall x :: 0 <= x < |qs| ==> Answers(s, told[x], qs[x])
  }

  /** What one answer does: one message in the target's name, and the indirect ping is gone. */
  lemma AnswerShape(env: Env, s: State, u: Uuid, i: nat)
    requires i < |s.pingReqs| && Waiting(s, u)(s.pingReqs[i])
    ensures var t := Relayed(env, s, i);
      && Relay(env, s, u, i) == Relay(env, t, u, i + 1)
      && t.members == s.members && t.pingReqs == RemoveAt(s.pingReqs, i)
      && |t.outbox| == |s.outbox| + 1 && s.outbox <= t.outbox && Answers(s, t.outbox[|s.outbox|], s.pingReqs[i])
  {
    hide Gossip;
  }

  /** The answering loop is the skipping sweep, with one message in u's name for each indirect ping removed. */
  lemma {:induction false} RelaySkips(env: Env, s: State, u: Uuid, i: nat)
    requires i <= |s.pingReqs|
    ensures var t := Relay(env, s, u, i);
      && t.pingReqs == s.pingReqs[..i] + SkipSweep(s.pingReqs[i..], Waiting(s, u))
      && s.outbox <= t.outbox && |t.outbox| - |s.outbox| == |s.pingReqs| - |t.pingReqs|
      && forall x :: |s.outbox| <= x < |t.outbox| ==>
           t.outbox[x].message.kind == AckMessage && t.outbox[x].message.sender.uuid == u
    decreases |s.pingReqs| - i
  {
    hide SkipSweep, RemoveAt, Gossip;
    var q := s.pingReqs;
    if i >= |q| {
      NothingToSweep(q, i, Waiting(s, u));
    } else {
      SkipSweepAt(q, i, Waiting(s, u));
      if Waiting(s, u)(q[i]) {
        hide Relayed, Relay;
        AnswerShape(env, s, u, i);
        var t := Relayed(env, s, i);
        if i + 1 < |q| {
          RelaySkips(env, t, u, i + 1);
          SameWaiting(s, t, u, t.pingReqs[i + 1..]);
        } else {
          RelayOver(env, t, u, i + 1);
        }
        AnswersFollow(s, t, Relay(env, t, u, i + 1), u);
      } else {
        RelaySkips(env, s, u, i + 1);
      }
    }
  }

  lemma {:induction false} SameTaken(s: State, t: State, u: Uuid, q: seq<PingReq>)
    requires t.members == s.members
    ensures Taken(q, Waiting(t, u)) == Taken(q, Waiting(s, u))
    decreases |q|
  {
    if q == [] {
    } else if !Waiting(s, u)(q[0]) {
      SameTaken(s, t, u, q[1..]);
    } else if |q| > 1 {
      SameTaken(s, t, u, q[2..]);
    }
  }

  /** The loop answers, in order, exactly the indirect pings that it removes. */
  lemma {:induction false} RelayAnswers(env: Env, s: State, u: Uuid, i: nat)
    requires i <= |s.pingReqs|
    ensures AllAnswered(s, Relay(env, s, u, i).outbox[|s.outbox|..], Taken(s.pingReqs[i..], Waiting(s, u)))
    decreases |s.pingReqs| - i
  {
    hide SkipSweep, Taken, RemoveAt, Gossip, Relay, Relayed, Answers, AllAnswered;
    var q := s.pingReqs;
    if i >= |q| {
      RelayOver(env, s, u, i);
      TakenNothing(Waiting(s, u));
      NoneAnswered(s);
    } else {
      TakenNext(q[i..], Waiting(s, u));
      assert q[i..][1..] == q[i + 1..];
      if Waiting(s, u)(q[i]) {
        AnswerShape(env, s, u, i);
        var t := Relayed(env, s, i);
        if i + 1 < |q| { RelayAnswers(env, t, u, i + 1); }
        AnswerThen(env, s, t, u, i);
      } else {
        RelayPasses(env, s, u, i);
        RelayAnswers(env, s, u, i + 1);
      }
    }
  }

  /** After one answer: if the rest is answered as it should be, so is the whole. */
  lemma AnswerThen(env: Env, s: State, t: State, u: Uuid, i: nat)
    requires i < |s.pingReqs| && Waiting(s, u)(s.pingReqs[i])
    requires t.members == s.members && t.pingReqs == RemoveAt(s.pingReqs, i)
    requires |t.outbox| == |s.outbox| + 1 && s.outbox <= t.outbox && Answers(s, t.outbox[|s.outbox|], s.pingReqs[i])
    requires i + 1 < |s.pingReqs| ==>
      AllAnswered(t, Relay(env, t, u, i + 1).outbox[|t.outbox|..], Taken(t.pingReqs[i + 1..], Waiting(t, u)))
    ensures AllAnswered(s, Relay(env, t, u, i + 1).outbox[|s.outbox|..], Taken(s.pingReqs[i..], Waiting(s, u)))
  {
    hide Taken, RemoveAt, Relay, Answers, AllAnswered;
    var q, r := s.pingReqs, Relay(env, t, u, i + 1);
    TakenNext(q[i..], Waiting(s, u));
    if i + 1 < |q| {
      RemovedBehind(q, i);
      SameTaken(s, t, u, t.pingReqs[i + 1..]);
      AnsweredFirst(s, t, r, q[i], Taken(t.pingReqs[i + 1..], Waiting(s, u)));
    } else {
      RelayOver(env, t, u, i + 1);
      NoneAnswered(t);
      AnsweredFirst(s, t, r, q[i], []);
    }
  }

  lemma RemovedBehind<T>(xs: seq<T>, i: nat)
    requires i + 1 < |xs|
    ensures RemoveAt(xs, i)[i + 1..] == xs[i..][2..]
  {
  }

  lemma NoneAnswered(s: State)
    ensures AllAnswered(s, s.outbox[|s.outbox|..], [])
  {
  }

  lemma TakenNothing<T>(hit: T -> bool)
    ensures Taken([], hit) == []
  {
  }

  lemma TakenNext<T>(xs: seq<T>, hit: T -> bool)
    requires xs != []
    ensures Taken(xs, hit) ==
      if !hit(xs[0]) then Taken(xs[1..], hit) else [xs[0]] + if |xs| == 1 then [] else Taken(xs[2..], hit)
  {
  }

  lemma RelayPasses(env: Env, s: State, u: Uuid, i: nat)
    requires i < |s.pingReqs| && !Waiting(s, u)(s.pingReqs[i])
    ensures Relay(env, s, u, i) == Relay(env, s, u, i + 1)
  {
  }

  lemma AnsweredFirst(s: State, t: State, r: State, q: PingReq, qs: seq<PingReq>)
    requires t.members == s.members && |t.outbox| == |s.outbox| + 1 && s.outbox <= t.outbox <= r.outbox
    requires Answers(s, t.outbox[|s.outbox|], q) && AllAnswered(t, r.outbox[|t.outbox|..], qs)
    ensures AllAnswered(s, r.outbox[|s.outbox|..], [q] + qs)
  {
    var told, rest := r.outbox[|s.outbox|..], r.outbox[|t.outbox|..];
    forall x | 0 <= x < |qs| + 1 ensures Answers(s, told[x], ([q] + qs)[x]) {
      if x > 0 {
        assert told[x] == rest[x - 1];
        assert Answers(t, rest[x - 1], qs[x - 1]);
      }
    }
  }

  lemma RelayOver(env: Env, s: State, u: Uuid, i: nat)
    requires i >= |s.pingReqs|
    ensures Relay(env, s, u, i) == s
  {
  }

  lemma AnswersFollow(s: State, t: State, r: State, u: Uuid)
    requires |t.outbox| == |s.outbox| + 1 && s.outbox <= t.outbox <= r.outbox
    requires t.outbox[|s.outbox|].message.kind == AckMessage && t.outbox[|s.outbox|].message.sender.uuid == u
    requires forall x :: |t.outbox| <= x < |r.outbox| ==>
      r.outbox[x].message.kind == AckMessage && r.outbox[x].message.sender.uuid == u
    ensures forall x :: |s.outbox| <= x < |r.outbox| ==>
      r.outbox[x].message.kind == AckMessage && r.outbox[x].message.sender.uuid == u
  {
    assert r.outbox[|s.outbox|] == t.outbox[|s.outbox|];
  }

  /** One acknowledgement from u answers at least half of the indirect pings that wait for u, each with one message. */
  lemma RelayAnswersHalf(env: Env, s: State, u: Uuid)
    ensures var t := Relay(env, s, u, 0);
      && 2 * Hits(t.pingReqs, Waiting(s, u)) <= Hits(s.pingReqs, Waiting(s, u))
      && Misses(t.pingReqs, Waiting(s, u)) == Misses(s.pingReqs, Waiting(s, u))
      && |t.outbox| - |s.outbox| == |s.pingReqs| - |t.pingReqs|
      && forall x :: |s.outbox| <= x < |t.outbox| ==>
           t.outbox[x].message.kind == AckMessage && t.outbox[x].message.sender.uuid == u
  {
    hide SkipSweep, Hits, Misses, Relay;
    RelaySkips(env, s, u, 0);
    assert s.pingReqs[..0] == [] && s.pingReqs[0..] == s.pingReqs;
    assert Relay(env, s, u, 0).pingReqs == SkipSweep(s.pingReqs, Waiting(s, u));
    SkipSweepHalves(s.pingReqs, Waiting(s, u));
  }

  // ----- suspects -----

  function Overdue(now: nat): Member -> bool {
    (m: Member) => m.entry.status == Suspect && m.timeout < now
  }

  lemma LiveNotConfirmed(s: State, i: nat)
    requires UniqueUuids(s.members, s.mc, s.confirmed) && i < s.mc
    ensures ConfirmedFind(s, s.members[i].entry.uuid) == None
  {
    FirstNone(s.confirmed, HasUuid(s.members[i].entry.uuid));
  }

  lemma SuspectTurnShape(env: Env, s: State, k: Knowledge, now: nat, i: nat)
    requires FixedClock(env, now) && Inv(s, k) && i < s.mc
    ensures Lives(SuspectTurn(env, s, i)) ==
      if Overdue(now)(s.members[i]) then RemoveAt(Lives(s), i) else Lives(s)
  {
    hide Confirm, Followed, SlotsOk, SeedOk, SelfListed, PingsOk, OutboxOk, StatusOk, Ring;
    LiveNotConfirmed(s, i);
    if Overdue(now)(s.members[i]) {
      var s1 := s.(ticks := s.ticks + 1);
      ConfirmShape(env, s1, i);
      assert Lives(Confirm(env, s1, i)) == RemoveAt(Lives(s), i);
    }
  }

  /** At a fixed clock reading the sweep over suspects is the skipping sweep. */
  lemma {:induction false} SuspectsSkip(env: Env, s: State, k: Knowledge, now: nat, i: nat)
    requires FixedClock(env, now) && Inv(s, k) && i <= s.mc
    ensures Lives(SuspectsFrom(env, s, i)) == Lives(s)[..i] + SkipSweep(Lives(s)[i..], Overdue(now))
    decreases s.mc - i
  {
    hide Inv, SuspectTurn, SkipSweep, RemoveAt;
    var q := Lives(s);
    if i < s.mc {
      SkipSweepAt(q, i, Overdue(now));
      SuspectTurnShape(env, s, k, now, i);
      SuspectTurnKeeps(env, s, k, i);
      var t := SuspectTurn(env, s, i);
      if Overdue(now)(q[i]) {
        assert t.mc == |Lives(t)| == s.mc - 1;
        if i + 1 < |q| { SuspectsSkip(env, t, k, now, i + 1); }
      } else {
        assert t.mc == |Lives(t)| == s.mc;
        SuspectsSkip(env, t, k, now, i + 1);
      }
    } else {
      NothingToSweep(q, i, Overdue(now));
    }
  }

  /** The sweep over suspects, called n times in a row. */
  function SuspectSweeps(env: Env, s: State, n: nat): State
    decreases n
  {
    if n == 0 then s else SuspectSweeps(env, SuspectsFrom(env, s, 0), n - 1)
  }

  lemma {:induction false} SuspectSweepsAre(env: Env, s: State, k: Knowledge, now: nat, n: nat)
    requires FixedClock(env, now) && Inv(s, k)
    ensures Lives(SuspectSweeps(env, s, n)) == Sweeping(Lives(s), Overdue(now), n)
    decreases n
  {
    hide Inv, SuspectsFrom;
    if n == 0 {
    } else {
      SuspectsSkip(env, s, k, now, 0);
      assert Lives(s)[..0] == [] && Lives(s)[0..] == Lives(s);
      assert Lives(SuspectsFrom(env, s, 0)) == SkipSweep(Lives(s), Overdue(now));
      SuspectsFromKeeps(env, s, k, 0);
      SuspectSweepsAre(env, SuspectsFrom(env, s, 0), k, now, n - 1);
    }
  }

  /** Fewer than 2^n overdue suspects are confirmed after n calls; the others stay live, in order. */
  lemma SuspectSweepsClear(env: Env, s: State, k: Knowledge, now: nat, n: nat)
    requires FixedClock(env, now) && Inv(s, k) && Hits(Lives(s), Overdue(now)) < PowerOfTwo(n)
    ensures Lives(SuspectSweeps(env, s, n)) == Misses(Lives(s), Overdue(now))
  {
    hide Inv;
    SuspectSweepsAre(env, s, k, now, n);
    SweepingClears(Lives(s), Overdue(now), n);
  }

  // ----- pings -----

  /** A ping without its flag. */
  datatype Key = Key(slot: nat, pingReqDeadline: nat, suspectDeadline: nat)

  function KeyOf(p: Ping): Key {
    Key(p.slot, p.pingReqDeadline, p.suspectDeadline)
  }

  /** The pings whose deadline is not before `now`. */
  function Standing(ps: seq<Ping>, now: nat): multiset<Key> {
    if ps == [] then multiset{}
    else (if ps[0].suspectDeadline >= now then multiset{KeyOf(ps[0])} else multiset{}) + Standing(ps[1..], now)
  }

  lemma {:induction false} StandingAddsUp(a: seq<Ping>, b: seq<Ping>, now: nat)
    ensures Standing(a + b, now) == Standing(a, now) + Standing(b, now)
  {
    if a == [] {
      assert a + b == b;
    } else {
      assert (a + b)[1..] == a[1..] + b;
      StandingAddsUp(a[1..], b, now);
    }
  }

  lemma StandingOne(p: Ping, now: nat)
    ensures Standing([p], now) == if p.suspectDeadline >= now then multiset{KeyOf(p)} else multiset{}
  {
    assert Standing([p][1..], now) == multiset{};
  }

  lemma PingTurnPings(env: Env, s: State, now: nat, i: nat)
    requires i < |s.pings|
    ensures var p, t := s.pings[i], PingTurn(env, s, now, i).pings;
      if p.suspectDeadline < now then t == s.pings[i := s.pings[|s.pings| - 1]][..|s.pings| - 1]
      else t == s.pings || t == s.pings[i := p.(pingReq := true)]
  {
  }

  /** Swapping the last ping into the hole loses nothing but the expired one. */
  lemma HoleFilled(ps: seq<Ping>, i: nat, now: nat)
    requires i < |ps| && ps[i].suspectDeadline < now
    ensures var qs := ps[i := ps[|ps| - 1]][..|ps| - 1];
      qs[..i] == ps[..i] && Standing(qs[i..], now) == Standing(ps[i..], now)
  {
    var n := |ps| - 1;
    var qs := ps[i := ps[n]][..n];
    StandingOne(ps[i], now);
    StandingOne(ps[n], now);
    if i < n {
      var mid := ps[i + 1..n];
      assert ps[i..] == [ps[i]] + mid + [ps[n]];
      assert qs[i..] == [ps[n]] + mid;
      StandingAddsUp([ps[i]] + mid, [ps[n]], now);
      StandingAddsUp([ps[i]], mid, now);
      StandingAddsUp([ps[n]], mid, now);
    } else {
      assert ps[i..] == [ps[i]] && qs[i..] == [];
    }
  }

  lemma MovedOn(ps: seq<Ping>, qs: seq<Ping>, i: nat, now: nat)
    requires i < |ps| == |qs| && ps[i].suspectDeadline >= now && KeyOf(qs[i]) == KeyOf(ps[i])
    requires forall x :: 0 <= x < |ps| && x != i ==> qs[x] == ps[x]
    ensures Standing(qs[..i + 1], 0) + Standing(qs[i + 1..], now) == Standing(ps[..i], 0) + Standing(ps[i..], now)
  {
    assert qs[..i + 1] == ps[..i] + [qs[i]] && ps[i..] == [ps[i]] + qs[i + 1..];
    StandingAddsUp(ps[..i], [qs[i]], 0);
    StandingAddsUp([ps[i]], qs[i + 1..], now);
    StandingOne(qs[i], 0);
    StandingOne(ps[i], now);
  }

  /** The sweep splits the pings exactly: those left are those whose deadline has not passed. */
  lemma {:induction false} PingsPartition(env: Env, s: State, now: nat, i: nat)
    requires i <= |s.pings|
    ensures Standing(PingsFrom(env, s, now, i).pings, 0) == Standing(s.pings[..i], 0) + Standing(s.pings[i..], now)
    decreases |s.pings| - i
  {
    hide PingTurn, Standing;
    if i < |s.pings| {
      var t := PingTurn(env, s, now, i);
      PingTurnPings(env, s, now, i);
      if s.pings[i].suspectDeadline < now {
        HoleFilled(s.pings, i, now);
        PingsPartition(env, t, now, i);
      } else {
        MovedOn(s.pings, t.pings, i, now);
        PingsPartition(env, t, now, i + 1);
      }
    } else {
      assert s.pings[..i] == s.pings && s.pings[i..] == [];
      NoneStanding(now);
    }
  }

  lemma NoneStanding(now: nat)
    ensures Standing([], now) == multiset{}
  {
  }

  /** `microswim_pings_check` keeps, of all pings, precisely the ones that have not expired. */
  lemma PingsCheckPartitions(env: Env, s: State)
    ensures Standing(PingsCheck(env, s).pings, 0) == Standing(s.pings, Now(env, s))
  {
    hide PingsFrom, Standing;
    NoneStanding(0);
    PingsPartition(env, s.(ticks := s.ticks + 1), Now(env, s), 0);
    assert s.pings[..0] == [] && s.pings[0..] == s.pings;
  }

  /** q is one of ps, its flag perhaps raised. */
  ghost predicate Descends(q: Ping, ps: seq<Ping>) {
    exists x :: 0 <= x < |ps| && KeyOf(ps[x]) == KeyOf(q) && (ps[x].pingReq ==> q.pingReq)
  }

  lemma TurnDescends(env: Env, s: State, now: nat, i: nat, q: Ping)
    requires i < |s.pings| && Descends(q, PingTurn(env, s, now, i).pings)
    ensures Descends(q, s.pings)
  {
    hide PingTurn;
    PingTurnPings(env, s, now, i);
    var t := PingTurn(env, s, now, i).pings;
    var x :| 0 <= x < |t| && KeyOf(t[x]) == KeyOf(q) && (t[x].pingReq ==> q.pingReq);
    var y := if s.pings[i].suspectDeadline < now && x == i then |s.pings| - 1 else x;
    assert KeyOf(s.pings[y]) == KeyOf(q) && (s.pings[y].pingReq ==> q.pingReq);
  }

  /** The sweep never lowers the flag of a ping. */
  lemma {:induction false} FlagsOnlyRise(env: Env, s: State, now: nat, i: nat, q: Ping)
    requires i <= |s.pings| && Descends(q, PingsFrom(env, s, now, i).pings)
    ensures Descends(q, s.pings)
    decreases |s.pings| - i
  {
    hide PingTurn, Descends;
    if i >= |s.pings| {
    } else {
      FlagsOnlyRise(env, PingTurn(env, s, now, i), now, if s.pings[i].suspectDeadline < now then i else i + 1, q);
      TurnDescends(env, s, now, i, q);
    }
  }

  /** Some ping among ps is expired and aims at slot x. */
  ghost predicate Blamed(ps: seq<Ping>, now: nat, x: nat) {
    exists j :: 0 <= j < |ps| && ps[j].suspectDeadline < now && ps[j].slot == x
  }

  lemma MarkSuspectSlots(env: Env, s: State, slot: nat)
    ensures var t := MarkSuspect(env, s, slot);
      && |t.members| == |s.members| && t.pings == s.pings
      && (forall x :: 0 <= x < |s.members| && x != slot ==> t.members[x] == s.members[x])
      && (slot < |s.members| && s.members[slot].entry.status == Alive ==>
            t.members[slot].entry == s.members[slot].entry.(status := Suspect))
      && (slot < |s.members| && s.members[slot].entry.status != Alive ==> t.members[slot] == s.members[slot])
  {
    hide Retrieve;
  }

  /** What a turn of the sweep does to the members. */
  lemma PingTurnSlots(env: Env, s: State, now: nat, i: nat)
    requires i < |s.pings|
    ensures var t, p := PingTurn(env, s, now, i), s.pings[i];
      && |t.members| == |s.members|
      && (forall x :: 0 <= x < |s.members| && !(p.suspectDeadline < now && x == p.slot) ==>
            t.members[x] == s.members[x])
      && (p.suspectDeadline < now && p.slot < |s.members| && s.members[p.slot].entry.status == Alive ==>
            t.members[p.slot].entry == s.members[p.slot].entry.(status := Suspect))
      && (forall x :: 0 <= x < |s.members| && s.members[x].entry.status != Alive ==> t.members[x] == s.members[x])
  {
    hide MarkSuspect, AskHelpers;
    MarkSuspectSlots(env, s, s.pings[i].slot);
  }

  lemma HoleBlames(ps: seq<Ping>, i: nat, now: nat, x: nat)
    requires i < |ps| && ps[i].suspectDeadline < now
    ensures var qs := ps[i := ps[|ps| - 1]][..|ps| - 1];
      && (Blamed(qs[i..], now, x) ==> Blamed(ps[i..], now, x))
      && (Blamed(ps[i..], now, x) ==> Blamed(qs[i..], now, x) || x == ps[i].slot)
  {
    var n := |ps| - 1;
    var qs := ps[i := ps[n]][..n];
    if Blamed(qs[i..], now, x) {
      var j :| 0 <= j < |qs[i..]| && qs[i..][j].suspectDeadline < now && qs[i..][j].slot == x;
      assert qs[i..][j] == ps[i..][if j == 0 then n - i else j];
    }
    if Blamed(ps[i..], now, x) && x != ps[i].slot {
      var j :| 0 <= j < |ps[i..]| && ps[i..][j].suspectDeadline < now && ps[i..][j].slot == x;
      assert ps[i..][j] == qs[i..][if j == n - i then 0 else j];
    }
  }

  lemma RestBlames(ps: seq<Ping>, qs: seq<Ping>, i: nat, now: nat, x: nat)
    requires i < |ps| == |qs| && ps[i].suspectDeadline >= now
    requires forall y :: 0 <= y < |ps| && y != i ==> qs[y] == ps[y]
    ensures Blamed(qs[i + 1..], now, x) <==> Blamed(ps[i..], now, x)
  {
    if Blamed(qs[i + 1..], now, x) {
      var j :| 0 <= j < |qs[i + 1..]| && qs[i + 1..][j].suspectDeadline < now && qs[i + 1..][j].slot == x;
      assert ps[i..][j + 1] == qs[i + 1..][j];
    }
    if Blamed(ps[i..], now, x) {
      var j :| 0 <= j < |ps[i..]| && ps[i..][j].suspectDeadline < now && ps[i..][j].slot == x;
      assert qs[i + 1..][j - 1] == ps[i..][j];
    }
  }

  /** Exactly the targets of expired pings are affected: those that were alive become suspects, and nothing else. */
  lemma {:induction false} PingsBlame(env: Env, s: State, now: nat, i: nat, x: nat)
    requires i <= |s.pings| && x < |s.members|
    ensures var t := PingsFrom(env, s, now, i);
      && |t.members| == |s.members|
      && if Blamed(s.pings[i..], now, x) && s.members[x].entry.status == Alive
         then t.members[x].entry == s.members[x].entry.(status := Suspect)
         else t.members[x] == s.members[x]
    decreases |s.pings| - i
  {
    hide PingTurn, Blamed;
    if i < |s.pings| {
      var t := PingTurn(env, s, now, i);
      PingTurnPings(env, s, now, i);
      PingTurnSlots(env, s, now, i);
      if s.pings[i].suspectDeadline < now {
        HoleBlames(s.pings, i, now, x);
        PingsBlame(env, t, now, i, x);
        HeadBlames(s.pings, i, now);
      } else {
        RestBlames(s.pings, t.pings, i, now, x);
        PingsBlame(env, t, now, i + 1, x);
      }
    } else {
      NobodyBlamed(s.pings[i..], now, x);
    }
  }

  lemma HeadBlames(ps: seq<Ping>, i: nat, now: nat)
    requires i < |ps| && ps[i].suspectDeadline < now
    ensures Blamed(ps[i..], now, ps[i].slot)
  {
    assert ps[i..][0] == ps[i];
  }

  lemma NobodyBlamed(ps: seq<Ping>, now: nat, x: nat)
    requires ps == []
    ensures !Blamed(ps, now, x)
  {
  }
}
