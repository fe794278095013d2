/**
 * What the two threads send of their own accord: the detector pings whoever is next in turn, and the sweep over
 * pings asks helpers about each target that has not answered in time.
 */
module Probing {
  import opened Types
  import opened Seqs
  import opened Tables
  import opened Protocol
  import opened Invariant
  import opened Preservation
  import opened RoundRobin
  import opened Marks
  import opened Continuity

  // ----- the sweep: which pings it meets -----

  /** The pings in the order in which the sweep meets them, from place i on: an expired one gives way to the last. */
  function Visited(ps: seq<Ping>, now: nat, i: nat): (r: seq<Ping>)
    decreases |ps| - i
  {
    if i >= |ps| then []
    else if ps[i].suspectDeadline < now then
      [ps[i]] + Visited(ps[i := ps[|ps| - 1]][..|ps| - 1], now, i)
    else [ps[i]] + Visited(ps, now, i + 1)
  }

  /** Every ping is met exactly once. */
  lemma {:induction false} VisitedAll(ps: seq<Ping>, now: nat, i: nat)
    requires i <= |ps|
    ensures multiset(Visited(ps, now, i)) == multiset(ps[i..])
    decreases |ps| - i
  {
    if i == |ps| {
    } else {
      hide Visited;
      assert ps[i..] == [ps[i]] + ps[i + 1..];
      VisitedNext(ps, now, i);
      if ps[i].suspectDeadline < now {
        LastMoves(ps, i);
        VisitedAll(ps[i := ps[|ps| - 1]][..|ps| - 1], now, i);
      } else {
        VisitedAll(ps, now, i + 1);
      }
    }
  }

  lemma VisitedNext(ps: seq<Ping>, now: nat, i: nat)
    requires i < |ps|
    ensures Visited(ps, now, i) == [ps[i]] +
      if ps[i].suspectDeadline < now then Visited(ps[i := ps[|ps| - 1]][..|ps| - 1], now, i)
      else Visited(ps, now, i + 1)
  {
  }

  /** The last ping takes the place of ping i. */
  lemma LastMoves(ps: seq<Ping>, i: nat)
    requires i < |ps|
    ensures multiset(ps[i := ps[|ps| - 1]][..|ps| - 1][i..]) == multiset(ps[i + 1..])
  {
    var last := ps[|ps| - 1];
    var qs := ps[i := last][..|ps| - 1];
    if i < |ps| - 1 {
      assert ps[i + 1..] == ps[i + 1..|ps| - 1] + [last];
      assert qs[i..] == [last] + ps[i + 1..|ps| - 1];
    }
  }

  /** Not yet expired, but due for help that has not been asked for. */
  predicate Needy(p: Ping, now: nat) {
    p.suspectDeadline >= now && p.pingReqDeadline < now && !p.pingReq
  }

  /** The pings left of ps: unexpired, and flagged where help was needed and could be had. */
  function Kept(ps: seq<Ping>, now: nat, help: bool): seq<Ping> {
    if ps == [] then []
    else if ps[0].suspectDeadline < now then Kept(ps[1..], now, help)
    else [if Needy(ps[0], now) && help then ps[0].(pingReq := true) else ps[0]] + Kept(ps[1..], now, help)
  }

  function AllNeedy(ps: seq<Ping>, now: nat): seq<Ping> {
    if ps == [] then [] else (if Needy(ps[0], now) then [ps[0]] else []) + AllNeedy(ps[1..], now)
  }

  // ----- the sweep: what it sends -----

  /** The requests among the packets. */
  function Requests(ps: seq<Packet>): seq<Packet> {
    if ps == [] then []
    else (if ps[0].message.kind == PingReqMessage then [ps[0]] else []) + Requests(ps[1..])
  }

  lemma {:induction false} RequestsAddUp(ps: seq<Packet>, qs: seq<Packet>)
    ensures Requests(ps + qs) == Requests(ps) + Requests(qs)
  {
    if ps == [] {
      assert ps + qs == qs;
    } else {
      var first := if ps[0].message.kind == PingReqMessage then [ps[0]] else [];
      assert (ps + qs)[1..] == ps[1..] + qs && (ps + qs)[0] == ps[0];
      RequestsAddUp(ps[1..], qs);
      Regroup(first, Requests(ps[1..]), Requests(qs));
    }
  }

  lemma {:induction false} RequestsOnly(ps: seq<Packet>)
    requires forall x :: 0 <= x < |ps| ==> ps[x].message.kind == PingReqMessage
    ensures Requests(ps) == ps
  {
    if ps == [] {
    } else {
      RequestsOnly(ps[1..]);
    }
  }

  lemma {:induction false} NoRequests(ps: seq<Packet>)
    requires forall x :: 0 <= x < |ps| ==> ps[x].message.kind != PingReqMessage
    ensures Requests(ps) == []
  {
    if ps == [] {
    } else {
      NoRequests(ps[1..]);
    }
  }

  /** e is what slot i says, unless a suspicion has come up in the meantime. */
  predicate About(s: State, i: nat, e: Entry) {
    e == Slot(s, i).entry || e == Slot(s, i).entry.(status := Suspect)
  }

  /** One request to each helper, in our name, about the target of p and nobody else. */
  predicate AsksAll(s: State, told: seq<Packet>, p: Ping, helpers: seq<nat>) {
    && |told| == |helpers|
    && forall x :: 0 <= x < |helpers| ==>
         && told[x].to == Slot(s, helpers[x]).entry.addr
         && told[x].message.kind == PingReqMessage && told[x].message.sender == s.self
         && |told[x].message.updates| == 1 && About(s, p.slot, told[x].message.updates[0])
  }

  /** The requests for each of the pings, one ping after the other. */
  predicate AsksForEach(s: State, told: seq<Packet>, ps: seq<Ping>, hs: seq<seq<nat>>) {
    if ps == [] then told == [] && hs == []
    else
      && hs != [] && |hs[0]| <= |told| && AsksAll(s, told[..|hs[0]|], ps[0], hs[0])
      && AsksForEach(s, told[|hs[0]|..], ps[1..], hs[1..])
  }

  /** Helpers as the environment picks them at some point. */
  ghost predicate Picked(env: Env, n: nat, helpers: seq<nat>) {
    exists d: nat :: helpers == env.pick(d, n)
  }

  /** The same slots, but for suspicions that have come up. */
  predicate SlotsAlike(s: State, t: State) {
    && t.self == s.self && t.mc == s.mc && |t.members| == |s.members|
    && forall i :: 0 <= i < |s.members| ==> About(s, i, t.members[i].entry)
  }

  /** One request to a helper, as the slots are now. */
  function Request(s: State, p: Ping, helper: nat): Packet {
    Packet(Slot(s, helper).entry.addr, Message(PingReqMessage, s.self, [Slot(s, p.slot).entry]))
  }

  lemma {:induction false} AskHelpersSends(s: State, p: Ping, helpers: seq<nat>)
    ensures var told := Posted(s, AskHelpers(s, p, helpers));
      |told| == |helpers| && forall x :: 0 <= x < |helpers| ==> told[x] == Request(s, p, helpers[x])
  {
    hide Slot;
    if helpers == [] {
    } else {
      var n := |helpers| - 1;
      AskHelpersSends(s, p, helpers[..n]);
      var t := AskHelpers(s, p, helpers[..n]);
      assert AskHelpers(s, p, helpers).outbox == t.outbox + [Request(s, p, helpers[n])];
      assert Posted(s, AskHelpers(s, p, helpers)) == Posted(s, t) + [Request(s, p, helpers[n])];
    }
  }

  lemma RequestsAsk(s: State, told: seq<Packet>, p: Ping, helpers: seq<nat>)
    requires |told| == |helpers| && forall x :: 0 <= x < |helpers| ==> told[x] == Request(s, p, helpers[x])
    ensures AsksAll(s, told, p, helpers)
  {
  }

  /** What one turn of the sweep sends and leaves. */
  lemma TurnSends(env: Env, s: State, now: nat, i: nat)
    requires i < |s.pings|
    ensures var p, t := s.pings[i], PingTurn(env, s, now, i);
      && SlotsAlike(s, t)
      && (p.suspectDeadline < now ==>
            t.pings == s.pings[i := s.pings[|s.pings| - 1]][..|s.pings| - 1] && Requests(Posted(s, t)) == [])
      && (Needy(p, now) ==> exists helpers ::
            && Picked(env, s.mc, helpers) && AsksAll(s, Requests(Posted(s, t)), p, helpers)
            && t.pings == if helpers == [] then s.pings else s.pings[i := p.(pingReq := true)])
      && (p.suspectDeadline >= now && !Needy(p, now) ==> t.pings == s.pings && Requests(Posted(s, t)) == [])
  {
    hide Retrieve, MarkSuspect, AskHelpers, AsksAll, Requests, Notifies, Request;
    var p, t := s.pings[i], PingTurn(env, s, now, i);
    if p.suspectDeadline < now {
      if p.slot < |s.members| { MarkSuspectDoes(env, s, p.slot); } else { MarkNothing(env, s, p.slot); }
      MarkTells(env, s, p.slot);
      assert Posted(s, t) == Posted(s, MarkSuspect(env, s, p.slot));
      NoRequests(Posted(s, t));
    } else if Needy(p, now) {
      var helpers := env.pick(s.draws, s.mc);
      AskHelpersSends(s, p, helpers);
      RequestsAsk(s, Posted(s, t), p, helpers);
      AsksOnly(s, Posted(s, t), p, helpers);
      RequestsOnly(Posted(s, t));
      assert Picked(env, s.mc, helpers);
    } else {
      NoRequests(Posted(s, t));
    }
  }

  lemma AsksOnly(s: State, told: seq<Packet>, p: Ping, helpers: seq<nat>)
    requires AsksAll(s, told, p, helpers)
    ensures forall x :: 0 <= x < |told| ==> told[x].message.kind == PingReqMessage
  {
  }

  /** A pointer beyond the array reads as a blank alive member. */
  lemma MarkNothing(env: Env, s: State, i: nat)
    requires i >= |s.members|
    ensures MarkSuspect(env, s, i).members == s.members && MarkSuspect(env, s, i).mc == s.mc
    ensures MarkSuspect(env, s, i).self == s.self && MarkSuspect(env, s, i).pings == s.pings
  {
    hide Retrieve;
  }

  lemma MarkTells(env: Env, s: State, i: nat)
    ensures var told := Posted(s, MarkSuspect(env, s, i));
      forall x :: 0 <= x < |told| ==> told[x].message.kind == SuspectMessage
  {
    hide Retrieve;
  }

  /** Is there anybody whom the sweep could ask? */
  predicate CanHelp(env: Env, s: State) {
    s.mc >= 2 && env.cfg.group >= 1
  }

  lemma AboutThen(s: State, t: State, r: State)
    requires SlotsAlike(s, t)
    ensures SlotsAlike(t, r) ==> SlotsAlike(s, r)
    ensures forall told: seq<Packet>, p: Ping, helpers: seq<nat> ::
      AsksAll(t, told, p, helpers) ==> AsksAll(s, told, p, helpers)
  {
    forall i: nat, e: Entry | About(t, i, e) ensures About(s, i, e) {
      if i < |s.members| { assert About(s, i, t.members[i].entry); }
    }
    assert forall i: nat :: i < |s.members| ==> About(s, i, t.members[i].entry);
    assert forall i: nat :: Slot(t, i).entry.addr == Slot(s, i).entry.addr;
  }

  lemma {:induction false} AsksEachThen(s: State, t: State, told: seq<Packet>, ps: seq<Ping>, hs: seq<seq<nat>>)
    requires SlotsAlike(s, t) && AsksForEach(t, told, ps, hs)
    ensures AsksForEach(s, told, ps, hs)
    decreases |ps|
  {
    hide AsksAll, SlotsAlike;
    if ps == [] {
    } else {
      AboutThen(s, t, t);
      AsksEachThen(s, t, told[|hs[0]|..], ps[1..], hs[1..]);
    }
  }

  lemma AsksFirst(s: State, first: seq<Packet>, rest: seq<Packet>, p: Ping, h: seq<nat>, ps: seq<Ping>,
                  hs: seq<seq<nat>>)
    requires AsksAll(s, first, p, h) && AsksForEach(s, rest, ps, hs)
    ensures AsksForEach(s, first + rest, [p] + ps, [h] + hs)
  {
    var told := first + rest;
    assert told[..|h|] == first && told[|h|..] == rest;
    assert ([p] + ps)[1..] == ps && ([h] + hs)[1..] == hs;
  }

  /** Requests go out while the sweep runs as they do turn by turn. */
  lemma RequestsThen(s: State, t: State, r: State)
    requires s.outbox <= t.outbox <= r.outbox
    ensures Requests(Posted(s, r)) == Requests(Posted(s, t)) + Requests(Posted(t, r))
  {
    assert Posted(s, r) == Posted(s, t) + Posted(t, r);
    RequestsAddUp(Posted(s, t), Posted(t, r));
  }

  lemma PickedHelps(env: Env, s: State, helpers: seq<nat>)
    requires EnvOk(env) && Picked(env, s.mc, helpers)
    ensures PickOk(helpers, s.mc, env.cfg.group) && (helpers != [] <==> CanHelp(env, s))
  {
  }

  ghost predicate AllPicked(env: Env, n: nat, hs: seq<seq<nat>>) {
    forall x :: 0 <= x < |hs| ==> Picked(env, n, hs[x])
  }

  /** What the sweep from place i on leaves and sends, given how the rest of it goes. */
  ghost predicate SweptWell(env: Env, s: State, t: State, now: nat, i: nat, hs: seq<seq<nat>>)
    requires i <= |s.pings| && s.outbox <= t.outbox
  {
    && SlotsAlike(s, t)
    && t.pings == s.pings[..i] + Kept(Visited(s.pings, now, i), now, CanHelp(env, s))
    && AsksForEach(s, Requests(Posted(s, t)), AllNeedy(Visited(s.pings, now, i), now), hs)
    && AllPicked(env, s.mc, hs)
  }

  lemma {:induction false} SweepSends(env: Env, s: State, now: nat, i: nat) returns (hs: seq<seq<nat>>)
    requires EnvOk(env) && i <= |s.pings|
    ensures SweptWell(env, s, PingsFrom(env, s, now, i), now, i, hs)
    decreases |s.pings| - i
  {
    hide PingTurn, SweptWell, SlotsAlike, EnvOk, Needy, Requests;
    if i == |s.pings| {
      hs := [];
      SweepEnds(env, s, now);
    } else {
      var t, p := PingTurn(env, s, now, i), s.pings[i];
      var next := if p.suspectDeadline < now then i else i + 1;
      var rest := SweepSends(env, t, now, next);
      TurnSends(env, s, now, i);
      var r := PingsFrom(env, t, now, next);
      if p.suspectDeadline < now {
        hs := rest;
        ExpiredThen(env, s, t, r, now, i, hs);
      } else if Needy(p, now) {
        var helpers :| Picked(env, s.mc, helpers) && AsksAll(s, Requests(Posted(s, t)), p, helpers)
          && t.pings == if helpers == [] then s.pings else s.pings[i := p.(pingReq := true)];
        hs := [helpers] + rest;
        PickedHelps(env, s, helpers);
        NeedyThen(env, s, t, r, now, i, helpers, rest);
      } else {
        hs := rest;
        OtherThen(env, s, t, r, now, i, hs);
      }
    }
  }

  lemma SweepEnds(env: Env, s: State, now: nat)
    ensures SweptWell(env, s, PingsFrom(env, s, now, |s.pings|), now, |s.pings|, [])
  {
  }

  lemma OneMore(p: Ping, ps: seq<Ping>, now: nat, help: bool)
    ensures AllNeedy([p] + ps, now) == if Needy(p, now) then [p] + AllNeedy(ps, now) else AllNeedy(ps, now)
    ensures Kept([p] + ps, now, help) ==
      if p.suspectDeadline < now then Kept(ps, now, help)
      else [if Needy(p, now) && help then p.(pingReq := true) else p] + Kept(ps, now, help)
  {
    assert ([p] + ps)[1..] == ps;
  }

  lemma ExpiredThen(env: Env, s: State, t: State, r: State, now: nat, i: nat, hs: seq<seq<nat>>)
    requires i < |s.pings| && s.outbox <= t.outbox <= r.outbox && s.pings[i].suspectDeadline < now
    requires t.pings == s.pings[i := s.pings[|s.pings| - 1]][..|s.pings| - 1] && Requests(Posted(s, t)) == []
    requires SlotsAlike(s, t) && SweptWell(env, t, r, now, i, hs)
    ensures SweptWell(env, s, r, now, i, hs)
  {
    hide AsksAll, AsksForEach, About, Picked, Visited, Kept, AllNeedy, Requests, Needy, CanHelp;
    var vs := Visited(t.pings, now, i);
    VisitedNext(s.pings, now, i);
    OneMore(s.pings[i], vs, now, CanHelp(env, s));
    NotNeedy(s.pings[i], now);
    SameHelp(env, s, t);
    assert t.pings[..i] == s.pings[..i];
    AboutThen(s, t, r);
    RequestsThen(s, t, r);
    AsksEachThen(s, t, Requests(Posted(t, r)), AllNeedy(vs, now), hs);
    assert [] + Requests(Posted(t, r)) == Requests(Posted(t, r));
  }

  lemma OtherThen(env: Env, s: State, t: State, r: State, now: nat, i: nat, hs: seq<seq<nat>>)
    requires i < |s.pings| && s.outbox <= t.outbox <= r.outbox
    requires s.pings[i].suspectDeadline >= now && !Needy(s.pings[i], now)
    requires t.pings == s.pings && Requests(Posted(s, t)) == []
    requires SlotsAlike(s, t) && SweptWell(env, t, r, now, i + 1, hs)
    ensures SweptWell(env, s, r, now, i, hs)
  {
    hide AsksAll, AsksForEach, About, Picked, Visited, Kept, AllNeedy, Requests, Needy, CanHelp;
    var vs := Visited(s.pings, now, i + 1);
    VisitedNext(s.pings, now, i);
    OneMore(s.pings[i], vs, now, CanHelp(env, s));
    SameHelp(env, s, t);
    AboutThen(s, t, r);
    RequestsThen(s, t, r);
    AsksEachThen(s, t, Requests(Posted(t, r)), AllNeedy(vs, now), hs);
    assert [] + Requests(Posted(t, r)) == Requests(Posted(t, r));
    assert s.pings[..i + 1] == s.pings[..i] + [s.pings[i]];
  }

  /** Flagging the ping under the cursor does not change which ones come next. */
  lemma {:induction false} VisitedBehind(ps: seq<Ping>, qs: seq<Ping>, now: nat, i: nat)
    requires |ps| == |qs| && i <= |ps| && ps[i..] == qs[i..]
    ensures Visited(ps, now, i) == Visited(qs, now, i)
    decreases |ps| - i
  {
    if i == |ps| {
    } else {
      hide Visited;
      SameTail(ps, qs, i);
      VisitedNext(ps, now, i);
      VisitedNext(qs, now, i);
      if ps[i].suspectDeadline < now {
        SameMoved(ps, qs, i);
        VisitedBehind(ps[i := ps[|ps| - 1]][..|ps| - 1], qs[i := qs[|ps| - 1]][..|ps| - 1], now, i);
      } else {
        assert ps[i + 1..] == ps[i..][1..] && qs[i + 1..] == qs[i..][1..];
        VisitedBehind(ps, qs, now, i + 1);
      }
    }
  }

  lemma SameMoved(ps: seq<Ping>, qs: seq<Ping>, i: nat)
    requires |ps| == |qs| && i < |ps| && ps[i..] == qs[i..]
    ensures var n := |ps| - 1; ps[i := ps[n]][..n][i..] == qs[i := qs[n]][..n][i..]
  {
    SameTail(ps, qs, i);
    var n := |ps| - 1;
    var a, b := ps[i := ps[n]][..n][i..], qs[i := qs[n]][..n][i..];
    forall x | 0 <= x < |a| ensures a[x] == b[x] {}
  }

  lemma SameTail(ps: seq<Ping>, qs: seq<Ping>, i: nat)
    requires |ps| == |qs| && i <= |ps| && ps[i..] == qs[i..]
    ensures forall x :: i <= x < |ps| ==> ps[x] == qs[x]
  {
    forall x | i <= x < |ps| ensures ps[x] == qs[x] { assert ps[i..][x - i] == qs[i..][x - i]; }
  }

  lemma NeedyThen(env: Env, s: State, t: State, r: State, now: nat, i: nat, helpers: seq<nat>, rest: seq<seq<nat>>)
    requires i < |s.pings| && s.outbox <= t.outbox <= r.outbox
    requires Needy(s.pings[i], now) && (helpers != [] <==> CanHelp(env, s))
    requires Picked(env, s.mc, helpers) && AsksAll(s, Requests(Posted(s, t)), s.pings[i], helpers)
    requires t.pings == if helpers == [] then s.pings else s.pings[i := s.pings[i].(pingReq := true)]
    requires SlotsAlike(s, t) && SweptWell(env, t, r, now, i + 1, rest)
    ensures SweptWell(env, s, r, now, i, [helpers] + rest)
  {
    hide AsksAll, AsksForEach, About, Picked, Visited, Kept, AllNeedy, Requests, Needy, CanHelp;
    var vs, p := Visited(s.pings, now, i + 1), s.pings[i];
    VisitedBehind(t.pings, s.pings, now, i + 1);
    VisitedNext(s.pings, now, i);
    OneMore(p, vs, now, CanHelp(env, s));
    StillUnexpired(p, now);
    SameHelp(env, s, t);
    AllPickedFirst(env, s.mc, helpers, rest);
    AboutThen(s, t, r);
    RequestsThen(s, t, r);
    AsksEachThen(s, t, Requests(Posted(t, r)), AllNeedy(vs, now), rest);
    AsksFirst(s, Requests(Posted(s, t)), Requests(Posted(t, r)), p, helpers, AllNeedy(vs, now), rest);
    FlagStays(s.pings, t.pings, i, Kept(vs, now, CanHelp(env, s)));
  }

  lemma FlagStays(ps: seq<Ping>, qs: seq<Ping>, i: nat, rest: seq<Ping>)
    requires i < |ps| == |qs| && forall x :: 0 <= x < i ==> qs[x] == ps[x]
    ensures qs[..i + 1] + rest == ps[..i] + ([qs[i]] + rest)
  {
    assert qs[..i + 1] == ps[..i] + [qs[i]];
  }

  lemma AllPickedFirst(env: Env, n: nat, h: seq<nat>, hs: seq<seq<nat>>)
    requires Picked(env, n, h) && AllPicked(env, n, hs)
    ensures AllPicked(env, n, [h] + hs)
  {
    hide Picked;
  }

  lemma NotNeedy(p: Ping, now: nat)
    requires p.suspectDeadline < now
    ensures !Needy(p, now)
  {
  }

  lemma StillUnexpired(p: Ping, now: nat)
    requires Needy(p, now)
    ensures p.suspectDeadline >= now
  {
  }

  lemma SameHelp(env: Env, s: State, t: State)
    requires t.mc == s.mc
    ensures CanHelp(env, t) == CanHelp(env, s)
  {
  }

  /**
   * The sweep over pings, exactly. It meets every ping once. The expired ones are gone; the others are as they were,
   * except that those due for help are flagged if there is anybody to ask. For each ping due for help, in the order in
   * which they are met, one request goes to each of the helpers picked, and there are no other requests.
   */
  lemma PingsCheckSends(env: Env, s: State) returns (hs: seq<seq<nat>>)
    requires EnvOk(env)
    ensures var t, now := PingsCheck(env, s), env.clock(s.ticks);
      var vs := Visited(s.pings, now, 0);
      && multiset(vs) == multiset(s.pings) && t.pings == Kept(vs, now, CanHelp(env, s))
      && AsksForEach(s, Requests(Posted(s, t)), AllNeedy(vs, now), hs)
      && forall x :: 0 <= x < |hs| ==> PickOk(hs[x], s.mc, env.cfg.group)
  {
    hide AsksForEach, Visited, Kept, AllNeedy, Requests, CanHelp, PingsFrom, SlotsAlike, EnvOk, PickOk, Picked;
    var now, s1 := env.clock(s.ticks), s.(ticks := s.ticks + 1);
    var vs := Visited(s.pings, now, 0);
    VisitedAll(s.pings, now, 0);
    assert s.pings[0..] == s.pings && s.pings[..0] == [];
    hs := SweepSends(env, s1, now, 0);
    var t := PingsCheck(env, s);
    assert t.pings == [] + Kept(vs, now, CanHelp(env, s1));
    SameHelp(env, s, s1);
    StillAlike(s, s1);
    AsksEachThen(s, s1, Requests(Posted(s1, t)), AllNeedy(vs, now), hs);
    assert Posted(s, t) == Posted(s1, t);
    forall x | 0 <= x < |hs| ensures PickOk(hs[x], s.mc, env.cfg.group) { PickedHelps(env, s1, hs[x]); }
  }

  lemma StillAlike(s: State, t: State)
    requires t.members == s.members && t.self == s.self && t.mc == s.mc
    ensures SlotsAlike(s, t)
  {
  }

  // ----- the detector -----

  /** A ping to slot x whose deadlines were set by two clock readings from tick a on, both before tick b. */
  ghost predicate Fresh(env: Env, p: Ping, x: nat, a: nat, b: nat) {
    exists i: nat :: a <= i < i + 1 < b
      && p == Ping(x, env.clock(i) + env.cfg.pingReqMs, env.clock(i + 1) + env.cfg.protocolMs, false)
  }

  ghost predicate Awaited(env: Env, s: State, x: nat, a: nat) {
    exists y :: 0 <= y < |s.pings| && Fresh(env, s.pings[y], x, a, s.ticks)
  }

  /** One probe: a ping with gossip goes to the slot's address; unless the slot is blank, the node waits for it. */
  lemma ProbeSends(env: Env, s: State, x: nat)
    ensures var e, t := Slot(s, x).entry, Probe(env, s, x);
      && Posted(s, t) == [Packet(e.addr, Gossip(env.cfg, s, PingMessage).1)]
      && Posted(s, t)[0].message.kind == PingMessage && Posted(s, t)[0].message.sender == s.self
      && t == s.(updates := t.updates, pings := t.pings, ticks := t.ticks, outbox := t.outbox)
      && exists ps: seq<Ping> ::
           WithoutFirst(s.pings, ps, Targets(s, e.uuid)) && t.pings == WithPing(env, s, x, ps)
  {
    hide Gossip, PingAdd, WithoutFirst;
    var (s1, ping) := Gossip(env.cfg, s, PingMessage);
    var s2 := Send(s1, Slot(s, x).entry.addr, ping);
    var u := Slot(s, x).entry.uuid;
    PingAddDoes(env, s2, x);
    SameTargets(s, s2, u);
    var ps: seq<Ping> :|
      WithoutFirst(s2.pings, ps, Targets(s2, u)) && Probe(env, s, x).pings == WithPing(env, s2, x, ps);
    assert WithPing(env, s2, x, ps) == WithPing(env, s, x, ps);
  }

  /** Retrievals one at a time, the last one last. */
  lemma {:induction false} RetrieveLast(env: Env, s: State, n: nat)
    requires n > 0
    ensures var (t, xs) := RetrieveN(env, s, n - 1);
      var (r, x) := Retrieve(env, t);
      RetrieveN(env, s, n) == (r, xs + if x.Some? then [x.value] else [])
    decreases n
  {
    hide Retrieve;
    if n == 1 {
      RetrieveOnce(env, s);
      assert RetrieveN(env, s, 0) == (s, []);
      var last := if Retrieve(env, s).1.Some? then [Retrieve(env, s).1.value] else [];
      assert [] + last == last;
    } else {
      RetrieveFirst(env, s, n);
      RetrieveFirst(env, s, n - 1);
      var (s1, y) := Retrieve(env, s);
      RetrieveLast(env, s1, n - 1);
      var (t, xs) := RetrieveN(env, s1, n - 2);
      var (r, x) := Retrieve(env, t);
      Regroup(if y.Some? then [y.value] else [], xs, if x.Some? then [x.value] else []);
    }
  }

  lemma Regroup<T>(a: seq<T>, b: seq<T>, c: seq<T>)
    ensures a + (b + c) == (a + b) + c
  {
  }

  /** One ping for each slot, in order, to its address and in our name. */
  predicate AllPinged(s: State, told: seq<Packet>, xs: seq<nat>) {
    && |told| == |xs|
    && forall y :: 0 <= y < |xs| ==>
         && told[y].to == Slot(s, xs[y]).entry.addr
         && told[y].message.kind == PingMessage && told[y].message.sender == s.self
  }

  /** A detector turn pings whoever the next retrievals return, in order, and sends nothing else. */
  lemma {:induction false} DetectSends(env: Env, s: State, n: nat)
    ensures var (r, xs) := RetrieveN(env, s, n);
      var t := Detect(env, s, n);
      && AllPinged(s, Posted(s, t), xs)
      && t.members == s.members && t.mc == s.mc && t.confirmed == s.confirmed && t.self == s.self
      && t.pingReqs == s.pingReqs && t.indices == r.indices && t.rr == r.rr && t.draws == r.draws
    decreases n
  {
    hide Retrieve, Probe, WithoutFirst, WithPing, AllPinged, RetrieveN;
    if n == 0 {
      RetrieveNone(env, s);
      NonePinged(s);
    } else {
      DetectSends(env, s, n - 1);
      RetrieveLast(env, s, n);
      var t0 := Detect(env, s, n - 1);
      RetrieveAlike(env, RetrieveN(env, s, n - 1).0, t0);
      var (t1, x) := Retrieve(env, t0);
      if x.Some? {
        ProbeSends(env, t1, x.value);
        OnePinged(s, t0, t1, Probe(env, t1, x.value), RetrieveN(env, s, n - 1).1, x.value);
      } else {
        assert RetrieveN(env, s, n - 1).1 + [] == RetrieveN(env, s, n - 1).1 && t1.outbox == t0.outbox;
      }
    }
  }

  lemma OnePinged(s: State, t0: State, t1: State, t: State, xs: seq<nat>, x: nat)
    requires t0.members == s.members && t1.members == s.members && t0.self == s.self && t1.self == s.self
    requires s.outbox <= t0.outbox && t1.outbox == t0.outbox <= t.outbox && AllPinged(s, Posted(s, t0), xs)
    requires |Posted(t1, t)| == 1 && Posted(t1, t)[0].to == Slot(t1, x).entry.addr
    requires Posted(t1, t)[0].message.kind == PingMessage && Posted(t1, t)[0].message.sender == t1.self
    ensures AllPinged(s, Posted(s, t), xs + [x])
  {
    assert Posted(s, t) == Posted(s, t0) + Posted(t1, t);
  }

  lemma FreshStays(env: Env, s: State, t: State, k: Knowledge, x: nat, y: nat, a: nat)
    requires Inv(s, k) && x < s.mc && y < s.mc && x != y && Awaited(env, s, y, a) && s.ticks <= t.ticks
    requires exists ps: seq<Ping> ::
      WithoutFirst(s.pings, ps, Targets(s, s.members[x].entry.uuid)) && t.pings == WithPing(env, s, x, ps)
    ensures Awaited(env, t, y, a)
  {
    hide Followed, SlotsOk, SeedOk, SelfListed, PingsOk, OutboxOk, Ring, Fresh;
    var u := s.members[x].entry.uuid;
    var ps: seq<Ping> :| WithoutFirst(s.pings, ps, Targets(s, u)) && t.pings == WithPing(env, s, x, ps);
    var z :| 0 <= z < |s.pings| && Fresh(env, s.pings[z], y, a, s.ticks);
    FreshSlot(env, s.pings[z], y, a, s.ticks, t.ticks);
    assert !Targets(s, u)(s.pings[z]);
    assert s.pings[z] in ps;
    var v :| 0 <= v < |ps| && ps[v] == s.pings[z];
    assert t.pings[v] == s.pings[z];
  }

  lemma FreshSlot(env: Env, p: Ping, x: nat, a: nat, b: nat, c: nat)
    requires Fresh(env, p, x, a, b) && b <= c
    ensures p.slot == x && Fresh(env, p, x, a, c)
  {
  }

  lemma FreshComes(env: Env, s: State, t: State, k: Knowledge, x: nat, a: nat)
    requires Inv(s, k) && BookOk(k) && RoomToPing(s) && x < s.mc && s.members[x].entry.uuid != BLANK
    requires |k.book| <= |s.members| && |k.book| <= env.cfg.maxPings + 1
    requires t == Probe(env, s, x) && a <= s.ticks
    ensures Awaited(env, t, x, a)
  {
    hide Core, Ring, StatusOk, DropPing, Gossip, RoomToPing;
    RoomForPing(s, k, x);
    var (s1, ping) := Gossip(env.cfg, s, PingMessage);
    var s2 := Send(s1, Slot(s, x).entry.addr, ping);
    var u := s.members[x].entry.uuid;
    SameDrop(s, s2, u);
    var ps := DropPing(s2, u).pings;
    assert Fresh(env, t.pings[|ps|], x, a, t.ticks);
  }

  lemma SameDrop(s: State, t: State, u: Uuid)
    requires t.members == s.members && t.pings == s.pings
    ensures DropPing(t, u).pings == DropPing(s, u).pings
  {
    var p := PingFind(s, u);
    forall x | 0 <= x < |s.pings| ensures Targets(t, u)(s.pings[x]) == Targets(s, u)(s.pings[x]) {}
    if p.Some? { FirstIs(s.pings, Targets(t, u), p.value); } else { FirstNone(s.pings, Targets(t, u)); }
  }

  /** After a detector turn the node waits, with a fresh ping, for everybody with a name whom the turn retrieved. */
  lemma {:induction false} DetectAwaits(env: Env, s: State, k: Knowledge, n: nat)
    requires Inv(s, k) && BookOk(k) && RoomToPing(s)
    requires |k.book| <= |s.members| && |k.book| <= env.cfg.maxPings + 1
    ensures forall x :: x in RetrieveN(env, s, n).1 && Slot(s, x).entry.uuid != BLANK ==>
      x < s.mc && Awaited(env, Detect(env, s, n), x, s.ticks)
    decreases n
  {
    hide Inv, Retrieve, Probe, Awaited, RoomToPing, RetrieveN, Slot, Remembers, Tells, Detect;
    if n == 0 {
      RetrieveNone(env, s);
    } else {
      DetectLast(env, s, n);
      var t0 := Detect(env, s, n - 1);
      DetectAwaits(env, s, k, n - 1);
      DetectSends(env, s, n - 1);
      DetectKeeps(env, s, k, n - 1);
      DetectCarries(env, s, k, n - 1);
      RetrieveLast(env, s, n);
      RetrieveAlike(env, RetrieveN(env, s, n - 1).0, t0);
      StepAwaits(env, t0, k, s.ticks);
      forall x | x in RetrieveN(env, s, n).1 && Slot(s, x).entry.uuid != BLANK
        ensures x < s.mc && Awaited(env, Detect(env, s, n), x, s.ticks)
      {
        SameSlot(s, t0, x);
        EitherOf(RetrieveN(env, s, n - 1).1, Retrieve(env, t0).1, x);
      }
    }
  }

  lemma DetectLast(env: Env, s: State, n: nat)
    requires n > 0
    ensures var (s1, to) := Retrieve(env, Detect(env, s, n - 1));
      Detect(env, s, n) == if to.Some? then Probe(env, s1, to.value) else s1
  {
    hide Retrieve, Probe;
  }

  lemma EitherOf(xs: seq<nat>, y: Option<nat>, x: nat)
    requires x in xs + if y.Some? then [y.value] else []
    ensures x in xs || y == Some(x)
  {
  }

  lemma SameSlot(s: State, t: State, x: nat)
    requires t.members == s.members
    ensures Slot(t, x) == Slot(s, x)
  {
  }

  /** One more turn: whom the node waits for it goes on waiting for, and for whom it probes now as well. */
  lemma StepAwaits(env: Env, s: State, k: Knowledge, a: nat)
    requires Inv(s, k) && BookOk(k) && RoomToPing(s) && a <= s.ticks
    requires |k.book| <= |s.members| && |k.book| <= env.cfg.maxPings + 1
    ensures var (s1, x) := Retrieve(env, s);
      var t := if x.Some? then Probe(env, s1, x.value) else s1;
      && (forall y: nat :: y < s.mc && Awaited(env, s, y, a) ==> Awaited(env, t, y, a))
      && (x.Some? && Slot(s, x.value).entry.uuid != BLANK ==> x.value < s.mc && Awaited(env, t, x.value, a))
  {
    hide Inv, Retrieve, Probe, WithoutFirst, WithPing, RoomToPing, Awaited;
    var (s1, x) := Retrieve(env, s);
    RetrieveKeeps(env, s, k);
    SameRoom(s, s1);
    forall y: nat | y < s.mc && Awaited(env, s, y, a)
      ensures Awaited(env, if x.Some? then Probe(env, s1, x.value) else s1, y, a)
    {
      AwaitedAlike(env, s, s1, y, a);
      if x.Some? { ProbeAwaits(env, s1, k, x.value, y, a); }
    }
    if x.Some? && Slot(s, x.value).entry.uuid != BLANK { ProbeAwaits(env, s1, k, x.value, x.value, a); }
  }

  lemma AwaitedAlike(env: Env, s: State, t: State, x: nat, a: nat)
    requires t.pings == s.pings && t.ticks == s.ticks
    ensures Awaited(env, t, x, a) == Awaited(env, s, x, a)
  {
  }

  lemma ProbeAwaits(env: Env, s: State, k: Knowledge, x: nat, y: nat, a: nat)
    requires Inv(s, k) && BookOk(k) && RoomToPing(s) && a <= s.ticks && x < s.mc && y < s.mc
    requires |k.book| <= |s.members| && |k.book| <= env.cfg.maxPings + 1
    requires Awaited(env, s, y, a) || (y == x && s.members[x].entry.uuid != BLANK)
    ensures Awaited(env, Probe(env, s, x), y, a)
  {
    hide Core, StatusOk, Ring, Probe, WithoutFirst, WithPing, RoomToPing, Awaited;
    var t := Probe(env, s, x);
    ProbeSends(env, s, x);
    if y != x {
      FreshStays(env, s, t, k, x, y, a);
    } else {
      if Awaited(env, s, y, a) { AwaitedIsNamed(env, s, k, y, a); }
      FreshComes(env, s, t, k, x, a);
    }
  }

  lemma SameRoom(s: State, t: State)
    requires t.pings == s.pings && t.mc == s.mc && t.confirmed == s.confirmed
    ensures RoomToPing(t) == RoomToPing(s)
  {
  }

  lemma AwaitedIsNamed(env: Env, s: State, k: Knowledge, x: nat, a: nat)
    requires Inv(s, k) && x < s.mc && Awaited(env, s, x, a)
    ensures s.members[x].entry.uuid != BLANK
  {
    hide UniqueUuids, Followed, SlotsOk, SeedOk, SelfListed, OutboxOk, Ring;
    var y :| 0 <= y < |s.pings| && Fresh(env, s.pings[y], x, a, s.ticks);
    assert PingOk(s.self.uuid, s.members, s.mc, s.pings[y]);
  }

  lemma RetrieveNone(env: Env, s: State)
    ensures RetrieveN(env, s, 0) == (s, [])
  {
  }

  lemma NonePinged(s: State)
    ensures AllPinged(s, Posted(s, s), [])
  {
  }
}
