/**
 * What each message that is acted upon makes a node do: whom it answers, with what, which slot it touches, and
 * which pings and indirect pings are left.
 */
module Replies {
  import opened Types
  import opened Seqs
  import opened Tables
  import opened Protocol
  import opened Invariant
  import opened Preservation
  import opened Views
  import opened Sweeps
  import opened Marks

  /** The live slot that carries u. */
  function SlotOf(s: State, u: Uuid): (r: Option<nat>)
    ensures r.Some? ==> r.value < s.mc && s.members[r.value].entry.uuid == u
  {
    First(Lives(s), HasUuid(u))
  }

  // ----- looking up who is known -----

  /** Somebody known is found under the uuid, and the search changes nothing. */
  lemma FindKnown(s: State, k: Knowledge, e: Entry)
    requires Inv(s, k) && Named(s, k, e) && ViewOf(s, e.uuid) != Unknown
    ensures Find(s, e) == (s, SlotOf(s, e.uuid))
  {
    hide Followed, SelfListed, PingsOk, OutboxOk, Ring;
    var u := e.uuid;
    if SlotOf(s, u).Some? {
      var i := SlotOf(s, u).value;
      NotTheSeed(s, k, e, s.members[i].entry);
      assert Lives(s)[i] == s.members[i];
      assert forall j :: 0 <= j < i ==> !Fits(e)(Lives(s)[j]);
      FirstIs(Lives(s), Fits(e), i);
      assert s.members[i] == s.members[i].(entry := s.members[i].entry.(uuid := u));
      assert s.members[i := s.members[i]] == s.members;
    } else {
      var j := ConfirmedFind(s, u).value;
      NotTheSeed(s, k, e, s.confirmed[j].entry);
      assert forall j :: 0 <= j < s.mc ==> !Fits(e)(Lives(s)[j]);
      FirstNone(Lives(s), Fits(e));
    }
  }

  /** Nobody who is listed has the blank seed's address. */
  lemma NotTheSeed(s: State, k: Knowledge, e: Entry, listed: Entry)
    requires Inv(s, k) && Named(s, k, e) && listed.uuid == e.uuid
    requires (exists i :: 0 <= i < s.mc && s.members[i].entry == listed) ||
             (exists j :: 0 <= j < |s.confirmed| && s.confirmed[j].entry == listed)
    ensures forall j :: 0 <= j < s.mc && s.members[j].entry.uuid == BLANK ==> s.members[j].entry.addr != e.addr
  {
    hide UniqueUuids, Followed, SelfListed, PingsOk, OutboxOk, Ring;
    assert listed.addr == e.addr;
    forall j | 0 <= j < s.mc && s.members[j].entry.uuid == BLANK ensures s.members[j].entry.addr != e.addr {
      assert SeedAt(s.self.uuid, k, s.members, s.mc, s.confirmed, j);
    }
  }

  /** A search by uuid alone, or for the blank seed, changes nothing either. */
  lemma FindByName(s: State, k: Knowledge, u: Uuid)
    requires Inv(s, k) && BookOk(k)
    ensures Find(s, ZERO_ENTRY.(uuid := u)) == (s, SlotOf(s, u))
  {
    hide UniqueUuids, Followed, SelfListed, PingsOk, OutboxOk, Ring;
    var e := ZERO_ENTRY.(uuid := u);
    forall j | 0 <= j < s.mc ensures Fits(e)(Lives(s)[j]) == HasUuid(u)(Lives(s)[j]) {
      if s.members[j].entry.uuid == BLANK {
        assert SeedAt(s.self.uuid, k, s.members, s.mc, s.confirmed, j);
        assert s.members[j].entry.addr != NO_ADDR;
      }
    }
    if SlotOf(s, u).Some? {
      var i := SlotOf(s, u).value;
      FirstIs(Lives(s), Fits(e), i);
      assert s.members[i] == s.members[i].(entry := s.members[i].entry.(uuid := u));
      assert s.members[i := s.members[i]] == s.members;
    } else {
      FirstNone(Lives(s), Fits(e));
    }
  }

  // ----- answering a ping -----

  /** The slot is alive with a new timer; the next in turn hears of it exactly if it was suspected. */
  predicate Revived(env: Env, s: State, t: State, i: nat, told: seq<Packet>)
    requires i < |s.members|
  {
    var e := s.members[i].entry.(status := Alive);
    && t.members == s.members[i := Member(e, env.clock(s.ticks) + env.cfg.suspectMs)]
    && if s.members[i].entry.status == Suspect then Notifies(env, s, told, AliveMessage, s.self, e) else told == []
  }

  /**
   * A ping is answered first of all, at the address it came from, in our own name and with gossip. The first ping
   * to its sender is forgotten. A listed sender is alive from now on. Nothing else is sent or changed.
   */
  lemma PingAnswered(env: Env, s: State, k: Knowledge, m: Message)
    requires Inv(s, k) && BookOk(k)
    ensures var u, t := m.sender.uuid, PingHandle(env, s, m);
      && Posted(s, t) != [] && Posted(s, t)[0] == Packet(m.sender.addr, Gossip(env.cfg, s, AckMessage).1)
      && Posted(s, t)[0].message.kind == AckMessage && Posted(s, t)[0].message.sender == s.self
      && WithoutFirst(s.pings, t.pings, Targets(s, u))
      && t.mc == s.mc && t.confirmed == s.confirmed && t.pingReqs == s.pingReqs && t.self == s.self
      && match SlotOf(s, u)
         case Some(i) => Revived(env, s, t, i, Posted(s, t)[1..])
         case None => t.members == s.members && |Posted(s, t)| == 1
  {
    hide Inv, Gossip, DropPing, MarkAlive, Find, SlotOf, WithoutFirst, Notifies;
    var u := m.sender.uuid;
    var (s1, ack) := Gossip(env.cfg, s, AckMessage);
    var sent := Send(s1, m.sender.addr, ack);
    var s2 := DropPing(sent, u);
    DropPingDoes(sent, u);
    SameTargets(s, sent, u);
    FindIgnores(s, s2, ZERO_ENTRY.(uuid := u));
    FindByName(s, k, u);
    var i := SlotOf(s, u);
    SlotInRange(s, u);
    if i.Some? {
      MarkAliveDoes(env, s2, i.value);
      var t := MarkAlive(env, s2, i.value);
      assert Posted(s, t)[1..] == Posted(s2, t);
      NotifiesAlike(env, s, s2, Posted(s2, t), AliveMessage, s.self, s.members[i.value].entry.(status := Alive));
    }
  }

  lemma SlotInRange(s: State, u: Uuid)
    ensures SlotOf(s, u).Some? ==> SlotOf(s, u).value < s.mc
  {
  }

  /** The search looks at the live slots only. */
  lemma FindIgnores(s: State, t: State, e: Entry)
    requires t.members == s.members && t.mc == s.mc
    ensures Find(t, e).1 == Find(s, e).1
    ensures Find(s, e).0 == s ==> Find(t, e).0 == t
  {
    assert Lives(t) == Lives(s);
    var i := First(Lives(s), Fits(e));
    if i.Some? && Find(s, e).0 == s {
      assert Find(s, e).0.members[i.value].entry.uuid == e.uuid;
      assert t.members[i.value] == t.members[i.value].(entry := t.members[i.value].entry.(uuid := e.uuid));
      assert t.members[i.value := t.members[i.value]] == t.members;
    }
  }

  // ----- serving an indirect ping -----

  /** Whom the sender of an indirect ping asks about. */
  function AskedAbout(m: Message): Uuid {
    if m.updates == [] then BLANK else m.updates[0].uuid
  }

  /**
   * Somebody asks us to ping somebody else, and both are known. If both are live, exactly one ping goes out, to the
   * one asked about, and the request is remembered with a new deadline in place of an earlier one with these ends, as
   * long as there is room and neither end is blank. Otherwise nothing happens.
   */
  lemma PingReqServed(env: Env, s: State, k: Knowledge, m: Message)
    requires Inv(s, k) && BookOk(k) && m.sender.uuid != BLANK
    requires m.updates != [] ==> Named(s, k, m.updates[0]) && ViewOf(s, m.updates[0].uuid) != Unknown
    ensures var source, target, t := SlotOf(s, m.sender.uuid), SlotOf(s, AskedAbout(m)), PingReqHandle(env, s, m);
      if source.None? || target.None? then t == s
      else
        && Posted(s, t) == [Packet(s.members[target.value].entry.addr, Gossip(env.cfg, s, PingMessage).1)]
        && Posted(s, t)[0].message.kind == PingMessage && Posted(s, t)[0].message.sender == s.self
        && t.members == s.members && t.mc == s.mc && t.confirmed == s.confirmed && t.pings == s.pings
        && t.self == s.self
        && Stores(env, s, t, source.value, target.value, m.sender.uuid, AskedAbout(m))
  {
    hide Inv, Gossip, PingReqAdd, Find, SlotOf, WithoutFirst;
    var a, b := ZERO_ENTRY.(uuid := m.sender.uuid), if m.updates == [] then ZERO_ENTRY else m.updates[0];
    FindByName(s, k, m.sender.uuid);
    FindByName(s, k, BLANK);
    if m.updates != [] { FindKnown(s, k, b); } else { assert b == ZERO_ENTRY.(uuid := BLANK); }
    var source, target := SlotOf(s, m.sender.uuid), SlotOf(s, AskedAbout(m));
    SlotInRange(s, m.sender.uuid);
    SlotInRange(s, AskedAbout(m));
    if source.Some? && target.Some? {
      var (s1, ping) := Gossip(env.cfg, s, PingMessage);
      var s2 := Send(s1, s.members[target.value].entry.addr, ping);
      SlotNamed(s, m.sender.uuid);
      SlotNamed(s, AskedAbout(m));
      PingReqAddDoes(env, s2, source.value, target.value);
      StoresAlike(env, s, s2, PingReqAdd(env, s2, source.value, target.value), source.value, target.value,
                  m.sender.uuid, AskedAbout(m));
    }
  }

  /** The request is stored last, in place of an earlier one with these ends, if there is room and no end is blank. */
  ghost predicate Stores(env: Env, s: State, t: State, source: nat, target: nat, su: Uuid, tu: Uuid) {
    exists qs: seq<PingReq> ::
      WithoutFirst(s.pingReqs, qs, Links(s, su, tu)) && t.pingReqs == WithRequest(env, s.ticks, qs, source, target, tu)
  }

  /** A new request behind qs, unless the one asked about is blank or there is no room. */
  function WithRequest(env: Env, tick: nat, qs: seq<PingReq>, source: nat, target: nat, tu: Uuid): seq<PingReq> {
    qs + if tu == BLANK || |qs| >= env.cfg.maxPings then []
         else [PingReq(target, source, env.clock(tick) + env.cfg.protocolMs)]
  }

  lemma PingReqAddDoes(env: Env, s: State, source: nat, target: nat)
    requires Slot(s, source).entry.uuid != BLANK
    ensures var t := PingReqAdd(env, s, source, target);
      && t == s.(pingReqs := t.pingReqs, ticks := t.ticks)
      && Stores(env, s, t, source, target, Slot(s, source).entry.uuid, Slot(s, target).entry.uuid)
  {
    hide DropPingReq, WithoutFirst;
    var su, tu := Slot(s, source).entry.uuid, Slot(s, target).entry.uuid;
    DropPingReqDoes(s, su, tu);
    assert PingReqAdd(env, s, source, target).pingReqs ==
      WithRequest(env, s.ticks, DropPingReq(s, su, tu).pingReqs, source, target, tu);
  }

  lemma StoresAlike(env: Env, s: State, t: State, r: State, source: nat, target: nat, su: Uuid, tu: Uuid)
    requires t.members == s.members && t.pingReqs == s.pingReqs && t.ticks == s.ticks
    requires Stores(env, t, r, source, target, su, tu)
    ensures Stores(env, s, r, source, target, su, tu)
  {
    hide WithoutFirst, WithRequest;
    SameLinks(s, t, su, tu);
    var qs: seq<PingReq> :|
      WithoutFirst(t.pingReqs, qs, Links(t, su, tu)) && r.pingReqs == WithRequest(env, t.ticks, qs, source, target, tu);
    assert WithoutFirst(s.pingReqs, qs, Links(s, su, tu));
  }

  lemma SlotNamed(s: State, u: Uuid)
    ensures SlotOf(s, u).Some? ==> Slot(s, SlotOf(s, u).value).entry.uuid == u
  {
  }

  lemma DropPingReqDoes(s: State, source: Uuid, target: Uuid)
    ensures WithoutFirst(s.pingReqs, DropPingReq(s, source, target).pingReqs, Links(s, source, target))
  {
    var p := First(s.pingReqs, Links(s, source, target));
    if p.Some? { assert RemoveAt(s.pingReqs, p.value) == s.pingReqs[..p.value] + s.pingReqs[p.value + 1..]; }
  }

  lemma SameLinks(s: State, t: State, source: Uuid, target: Uuid)
    requires t.members == s.members
    ensures forall ps: seq<PingReq>, qs: seq<PingReq> ::
      WithoutFirst(ps, qs, Links(t, source, target)) ==> WithoutFirst(ps, qs, Links(s, source, target))
  {
    forall p: PingReq ensures Links(t, source, target)(p) == Links(s, source, target)(p) {}
  }

  // ----- taking in an acknowledgement -----

  /**
   * An acknowledgement counts only if a ping to its sender is outstanding. Then the pinged slot is alive, exactly that
   * ping is gone, and of the indirect pings that wait for the sender the skipping loop answers those it reaches,
   * each at the address of whoever asked and in the name of the slot asked about. Nothing else is sent or changed.
   */
  lemma AckTaken(env: Env, s: State, k: Knowledge, m: Message)
    requires Inv(s, k) && m.sender.uuid != BLANK
    ensures var u, p, t := m.sender.uuid, PingFind(s, m.sender.uuid), AckHandle(env, s, m);
      match p
      case None => t == s
      case Some(x) =>
        var i, heard := s.pings[x].slot, Taken(s.pingReqs, Waiting(s, u));
        && i < |s.members| && s.members[i].entry.uuid == u
        && |heard| <= |Posted(s, t)|
        && Revived(env, s, t, i, Posted(s, t)[..|Posted(s, t)| - |heard|])
        && AllAnswered(t, Posted(s, t)[|Posted(s, t)| - |heard|..], heard)
        && t.pingReqs == SkipSweep(s.pingReqs, Waiting(s, u))
        && t.pings == s.pings[..x] + s.pings[x + 1..]
        && t.mc == s.mc && t.confirmed == s.confirmed && t.self == s.self
  {
    hide Core, MarkAlive, Relay, SkipSweep, Taken, Notifies, AllAnswered;
    var u, p := m.sender.uuid, PingFind(s, m.sender.uuid);
    if p.Some? {
      var i := s.pings[p.value].slot;
      Parts(s, k);
      assert PingOk(s.self.uuid, s.members, s.mc, s.pings[p.value]);
      assert Targets(s, u)(s.pings[p.value]);
      MarkAliveDoes(env, s, i);
      var s1 := MarkAlive(env, s, i);
      RelayDoes(env, s1, u);
      var t := AckHandle(env, s, m);
      WaitingAlike(s, s1, u, i);
      assert t.outbox == Relay(env, s1, u, 0).outbox;
      PostedAddsUp(s, s1, t);
      AnsweredAlike(Relay(env, s1, u, 0), t, Posted(s1, t), Taken(s.pingReqs, Waiting(s, u)));
    }
  }

  lemma AnsweredAlike(s: State, t: State, told: seq<Packet>, qs: seq<PingReq>)
    requires t.members == s.members && AllAnswered(s, told, qs)
    ensures AllAnswered(t, told, qs)
  {
    forall x | 0 <= x < |qs| ensures Answers(t, told[x], qs[x]) { assert Answers(s, told[x], qs[x]); }
  }

  lemma PostedAddsUp(s: State, t: State, r: State)
    requires s.outbox <= t.outbox <= r.outbox
    ensures Posted(s, r) == Posted(s, t) + Posted(t, r)
    ensures var n := |Posted(s, r)| - |Posted(t, r)|;
      Posted(s, r)[..n] == Posted(s, t) && Posted(s, r)[n..] == Posted(t, r)
  {
  }

  lemma RelayDoes(env: Env, s: State, u: Uuid)
    ensures var t := Relay(env, s, u, 0);
      && t.pingReqs == SkipSweep(s.pingReqs, Waiting(s, u))
      && AllAnswered(t, Posted(s, t), Taken(s.pingReqs, Waiting(s, u)))
      && |Posted(s, t)| == |Taken(s.pingReqs, Waiting(s, u))|
  {
    hide Relay, SkipSweep, Taken;
    assert s.pingReqs[0..] == s.pingReqs && s.pingReqs[..0] == [];
    RelaySkips(env, s, u, 0);
    RelayAnswers(env, s, u, 0);
  }

  /** Who waits for u is decided by uuids, and those a mark leaves alone. */
  lemma WaitingAlike(s: State, t: State, u: Uuid, i: nat)
    requires i < |s.members| == |t.members| && t.members == s.members[i := t.members[i]]
    requires t.members[i].entry.uuid == s.members[i].entry.uuid
    ensures SkipSweep(s.pingReqs, Waiting(t, u)) == SkipSweep(s.pingReqs, Waiting(s, u))
    ensures Taken(s.pingReqs, Waiting(t, u)) == Taken(s.pingReqs, Waiting(s, u))
  {
    forall q: PingReq ensures Waiting(t, u)(q) == Waiting(s, u)(q) {}
    SweptAlike(s.pingReqs, Waiting(t, u), Waiting(s, u));
  }

  lemma {:induction false} SweptAlike<T>(xs: seq<T>, p: T -> bool, q: T -> bool)
    requires forall x :: p(x) == q(x)
    ensures SkipSweep(xs, p) == SkipSweep(xs, q) && Taken(xs, p) == Taken(xs, q)
    decreases |xs|
  {
    if xs == [] {
    } else if !p(xs[0]) {
      SweptAlike(xs[1..], p, q);
    } else if |xs| > 1 {
      SweptAlike(xs[2..], p, q);
    }
  }

  // ----- from the request to the answer -----

  /** How many of the first x places the sweep reaches. */
  function Rank<T>(xs: seq<T>, hit: T -> bool, x: nat): nat
    requires x <= |xs|
  {
    if x == 0 then 0 else Rank(xs, hit, x - 1) + if Reached(xs, hit, x - 1) then 1 else 0
  }

  lemma {:induction false} SiftedAt<T>(xs: seq<T>, hit: T -> bool, i: nat, x: nat)
    requires i <= x < |xs|
    ensures Rank(xs, hit, i) <= Rank(xs, hit, x)
    ensures Reached(xs, hit, x) ==>
      var r := Rank(xs, hit, x) - Rank(xs, hit, i);
      r < |Sifted(xs, hit, i, true)| && Sifted(xs, hit, i, true)[r] == xs[x]
    ensures !Reached(xs, hit, x) ==> xs[x] in Sifted(xs, hit, i, false)
    decreases x - i
  {
    hide Reached;
    if i < x {
      SiftedAt(xs, hit, i + 1, x);
    } else {
    }
  }

  /**
   * An acknowledgement answers the indirect ping at place x, at the address of whoever asked, if and only if a ping to
   * its sender is outstanding here and an even number of indirect pings for the same sender stand directly before x.
   * Otherwise the indirect ping keeps waiting.
   */
  lemma AnsweredIff(env: Env, s: State, k: Knowledge, m: Message, x: nat)
    requires Inv(s, k) && m.sender.uuid != BLANK
    requires x < |s.pingReqs| && Waiting(s, m.sender.uuid)(s.pingReqs[x])
    ensures var t := AckHandle(env, s, m);
      if PingFind(s, m.sender.uuid).Some? && HitsBefore(s.pingReqs, Waiting(s, m.sender.uuid), x) % 2 == 0
      then exists y :: 0 <= y < |Posted(s, t)| && Answers(t, Posted(s, t)[y], s.pingReqs[x])
      else s.pingReqs[x] in t.pingReqs
    ensures PingFind(s, m.sender.uuid).None? ==> AckHandle(env, s, m) == s
  {
    hide Inv, AckHandle, PingFind, SkipSweep, Taken, Sifted, Answers, Revived, Waiting, HitsBefore;
    var hit, t := Waiting(s, m.sender.uuid), AckHandle(env, s, m);
    AckTaken(env, s, k, m);
    SkipSweepExactly(s.pingReqs, hit);
    SiftedAt(s.pingReqs, hit, 0, x);
    if PingFind(s, m.sender.uuid).Some? && Reached(s.pingReqs, hit, x) {
      var heard, r := Taken(s.pingReqs, hit), Rank(s.pingReqs, hit, x);
      assert heard[r] == s.pingReqs[x];
      var n := |Posted(s, t)| - |heard|;
      assert Answers(t, Posted(s, t)[n..][r], heard[r]);
      assert Posted(s, t)[n + r] == Posted(s, t)[n..][r];
    }
  }

  /** With nobody else waiting for the one asked about, a new request goes behind all the others. */
  lemma RequestStored(env: Env, s: State, k: Knowledge, m: Message)
    requires Inv(s, k) && BookOk(k) && m.sender.uuid != BLANK && m.updates != []
    requires Named(s, k, m.updates[0]) && ViewOf(s, m.updates[0].uuid) != Unknown
    requires SlotOf(s, m.sender.uuid).Some? && SlotOf(s, m.updates[0].uuid).Some?
    requires |s.pingReqs| < env.cfg.maxPings
    requires forall x :: 0 <= x < |s.pingReqs| ==> !Waiting(s, m.updates[0].uuid)(s.pingReqs[x])
    ensures var source, target := SlotOf(s, m.sender.uuid).value, SlotOf(s, m.updates[0].uuid).value;
      var t := PingReqHandle(env, s, m);
      && t.members == s.members && t.pings == s.pings
      && t.pingReqs == s.pingReqs + [PingReq(target, source, env.clock(s.ticks) + env.cfg.protocolMs)]
  {
    hide Inv, PingReqHandle, SlotOf, ViewOf, Gossip;
    PingReqServed(env, s, k, m);
    forall x | 0 <= x < |s.pingReqs| ensures !Links(s, m.sender.uuid, m.updates[0].uuid)(s.pingReqs[x]) {
      assert !Waiting(s, m.updates[0].uuid)(s.pingReqs[x]);
    }
  }

  /**
   * Asked by one member to ping another for whom nobody else waits, we relay that member's acknowledgement to whoever
   * asked, in its own name, if and only if we wait for it ourselves: the ping sent on request is not remembered.
   */
  lemma RequestAnswered(env: Env, s: State, k: Knowledge, m: Message, ack: Message)
    requires Inv(s, k) && BookOk(k) && MessageOk(s, k, m) && Handled(m.kind) && m.updates != []
    requires ViewOf(s, m.updates[0].uuid) != Unknown && ack.sender.uuid == m.updates[0].uuid
    requires SlotOf(s, m.sender.uuid).Some? && SlotOf(s, m.updates[0].uuid).Some?
    requires |s.pingReqs| < env.cfg.maxPings
    requires forall x :: 0 <= x < |s.pingReqs| ==> !Waiting(s, m.updates[0].uuid)(s.pingReqs[x])
    ensures var source := s.members[SlotOf(s, m.sender.uuid).value].entry;
      var t := PingReqHandle(env, s, m);
      var r := AckHandle(env, t, ack);
      if PingFind(s, ack.sender.uuid).Some?
      then exists y :: 0 <= y < |Posted(t, r)| && Relays(Posted(t, r)[y], source.addr, ack.sender.uuid)
      else r == t
  {
    hide Inv, PingReqHandle, AckHandle, SlotOf, ViewOf, MessageTo, Gossip, HitsBefore, Answers;
    var u, t := ack.sender.uuid, PingReqHandle(env, s, m);
    var r := AckHandle(env, t, ack);
    Asks(s, k, m);
    RequestStored(env, s, k, m);
    PingReqHandleKeeps(env, s, k, m);
    var x := |s.pingReqs|;
    SlotInRange(s, m.sender.uuid);
    SlotInRange(s, u);
    SlotNamed(s, u);
    assert Waiting(t, u)(t.pingReqs[x]);
    LastOfRow(t.pingReqs, Waiting(t, u), x);
    AnsweredIff(env, t, k, ack, x);
    SameFind(s, t, u);
    if PingFind(s, u).Some? {
      var y :| 0 <= y < |Posted(t, r)| && Answers(r, Posted(t, r)[y], t.pingReqs[x]);
      AckKeepsAddresses(env, t, k, ack);
      AnswerRelays(r, Posted(t, r)[y], t.pingReqs[x]);
    }
  }

  /** An acknowledgement in u's name, for whoever lives at this address. */
  predicate Relays(p: Packet, to: Addr, u: Uuid) {
    p.to == to && p.message.kind == AckMessage && p.message.sender.uuid == u
  }

  lemma AnswerRelays(s: State, p: Packet, q: PingReq)
    requires Answers(s, p, q)
    ensures Relays(p, Slot(s, q.source).entry.addr, Slot(s, q.target).entry.uuid)
  {
  }

  lemma Asks(s: State, k: Knowledge, m: Message)
    requires MessageOk(s, k, m) && Handled(m.kind) && m.updates != []
    ensures Named(s, k, m.updates[0]) && m.sender.uuid != BLANK && m.updates[0].uuid != BLANK
  {
  }

  lemma LastOfRow<T>(xs: seq<T>, hit: T -> bool, x: nat)
    requires x < |xs| && (x == 0 || !hit(xs[x - 1]))
    ensures HitsBefore(xs, hit, x) == 0
  {
  }

  lemma SameFind(s: State, t: State, u: Uuid)
    requires t.members == s.members && t.pings == s.pings
    ensures PingFind(t, u).Some? == PingFind(s, u).Some?
  {
    forall x | 0 <= x < |s.pings| ensures Targets(t, u)(s.pings[x]) == Targets(s, u)(s.pings[x]) {}
  }

  lemma AckKeepsAddresses(env: Env, s: State, k: Knowledge, m: Message)
    requires Inv(s, k) && m.sender.uuid != BLANK
    ensures var t := AckHandle(env, s, m);
      forall x: nat :: Slot(t, x).entry.addr == Slot(s, x).entry.addr && Slot(t, x).entry.uuid == Slot(s, x).entry.uuid
  {
    hide Inv, AckHandle, Notifies, AllAnswered, SkipSweep, Taken;
    AckTaken(env, s, k, m);
  }
}
