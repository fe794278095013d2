/**
 * What marking a member does, to the last field: its slot and timer, the pings to it, and who is told.
 */
module Marks {
  import opened Types
  import opened Seqs
  import opened Tables
  import opened Protocol
  import opened Invariant
  import opened Views

  // ----- who is told -----

  /** The member that is next in turn, if any, is told about e, and nobody else is told anything. */
  predicate Notifies(env: Env, s: State, told: seq<Packet>, kind: Kind, teller: Entry, e: Entry) {
    match Retrieve(env, s).1
    case None => told == []
    case Some(x) => told == [Packet(Slot(s, x).entry.addr, Message(kind, teller, [e]))] && !IsSelf(s, x)
  }

  /** What t has sent and s had not. */
  function Posted(s: State, t: State): seq<Packet>
    requires s.outbox <= t.outbox
  {
    t.outbox[|s.outbox|..]
  }

  /** Apart from slots, ring, clock and post the states are alike. */
  predicate SameTables(s: State, t: State) {
    && t.mc == s.mc && t.confirmed == s.confirmed && t.updates == s.updates
    && t.pings == s.pings && t.pingReqs == s.pingReqs
  }

  lemma AnnounceTells(env: Env, s: State, kind: Kind, e: Entry)
    ensures Notifies(env, s, Posted(s, Announce(env, s, kind, e)), kind, s.self, e)
  {
    hide Retrieve;
  }

  /** A member marked alive gets a new timer; somebody hears of it exactly if it was suspected. */
  lemma MarkAliveDoes(env: Env, s: State, i: nat)
    requires i < |s.members|
    ensures var e, t := s.members[i].entry.(status := Alive), MarkAlive(env, s, i);
      && t.members == s.members[i := Member(e, env.clock(s.ticks) + env.cfg.suspectMs)]
      && SameTables(s, t) && t.self == s.self && t.ticks == s.ticks + 1
      && if s.members[i].entry.status == Suspect then Notifies(env, s, Posted(s, t), AliveMessage, s.self, e)
         else t.outbox == s.outbox && t.indices == s.indices && t.rr == s.rr && t.draws == s.draws
  {
    hide Retrieve;
    var s1 := Restamp(env, s, i, Alive, s.members[i].entry.incarnation);
    RetrieveIgnores(env, s, s1, i);
  }

  /** The ring search looks at nothing but uuids. */
  lemma {:induction false} SearchIgnores(env: Env, s: State, t: State, i: nat, origin: nat, fuel: nat)
    requires s.mc > 0 && i < |s.members| == |t.members| && t.members == s.members[i := t.members[i]]
    requires t.members[i].entry.uuid == s.members[i].entry.uuid && t.self.uuid == s.self.uuid
    requires t.mc == s.mc && t.indices == s.indices && t.rr == s.rr && t.draws == s.draws
    ensures var (p, q) := (RetrieveFrom(env, s, origin, fuel), RetrieveFrom(env, t, origin, fuel));
      p.1 == q.1 && p.0.indices == q.0.indices && p.0.rr == q.0.rr && p.0.draws == q.0.draws
    decreases fuel
  {
    hide Shuffle;
    if fuel == 0 {
    } else {
      var (s1, x) := Advance(env, s);
      var (t1, y) := Advance(env, t);
      assert x == y && IsSelf(s, x) == IsSelf(t, x);
      SearchIgnores(env, s1, t1, i, origin, fuel - 1);
    }
  }

  lemma RetrieveIgnores(env: Env, s: State, t: State, i: nat)
    requires i < |s.members| == |t.members| && t.members == s.members[i := t.members[i]]
    requires t.members[i].entry.uuid == s.members[i].entry.uuid && t.self.uuid == s.self.uuid
    requires t.members[i].entry.addr == s.members[i].entry.addr
    requires t.mc == s.mc && t.indices == s.indices && t.rr == s.rr && t.draws == s.draws
    ensures Retrieve(env, t).1 == Retrieve(env, s).1
    ensures forall x :: Slot(t, x).entry.addr == Slot(s, x).entry.addr && IsSelf(t, x) == IsSelf(s, x)
  {
    hide RetrieveFrom;
    if s.mc > 0 { SearchIgnores(env, s, t, i, s.rr, 3); }
  }

  /** Only an alive member becomes a suspect; it gets a new timer and somebody hears of it. */
  lemma MarkSuspectDoes(env: Env, s: State, i: nat)
    requires i < |s.members|
    ensures var e, t := s.members[i].entry.(status := Suspect), MarkSuspect(env, s, i);
      if s.members[i].entry.status != Alive then t == s
      else
        && t.members == s.members[i := Member(e, env.clock(s.ticks) + env.cfg.suspectMs)]
        && SameTables(s, t) && t.self == s.self && t.ticks == s.ticks + 1
        && Notifies(env, s, Posted(s, t), SuspectMessage, s.self, e)
  {
    hide Retrieve;
    if s.members[i].entry.status == Alive {
      RetrieveIgnores(env, s, Restamp(env, s, i, Suspect, s.members[i].entry.incarnation), i);
    }
  }

  // ----- pings -----

  /** qs are ps without the first one that hits, if there is one. */
  ghost predicate WithoutFirst<T>(ps: seq<T>, qs: seq<T>, hit: T -> bool) {
    if exists p :: 0 <= p < |ps| && hit(ps[p])
    then exists p ::
           0 <= p < |ps| && hit(ps[p]) && (forall q :: 0 <= q < p ==> !hit(ps[q])) && qs == ps[..p] + ps[p + 1..]
    else qs == ps
  }

  lemma DropPingDoes(s: State, u: Uuid)
    ensures var t := DropPing(s, u); t == s.(pings := t.pings) && WithoutFirst(s.pings, t.pings, Targets(s, u))
  {
    var p := PingFind(s, u);
    if p.Some? { assert RemoveAt(s.pings, p.value) == s.pings[..p.value] + s.pings[p.value + 1..]; }
  }

  /** A new ping to x behind ps, unless x is blank or there is no room. */
  function WithPing(env: Env, s: State, x: nat, ps: seq<Ping>): seq<Ping> {
    ps
    + if Slot(s, x).entry.uuid == BLANK || |ps| > env.cfg.maxPings || |ps| >= |s.members| then []
      else [Ping(x, env.clock(s.ticks) + env.cfg.pingReqMs, env.clock(s.ticks + 1) + env.cfg.protocolMs, false)]
  }

  lemma PingAddDoes(env: Env, s: State, x: nat)
    ensures var t := PingAdd(env, s, x);
      && t == s.(pings := t.pings, ticks := t.ticks)
      && exists ps: seq<Ping> ::
           WithoutFirst(s.pings, ps, Targets(s, Slot(s, x).entry.uuid)) && t.pings == WithPing(env, s, x, ps)
  {
    hide DropPing, WithoutFirst;
    var u := Slot(s, x).entry.uuid;
    DropPingDoes(s, u);
    var ps := DropPing(s, u).pings;
    assert PingAdd(env, s, x).pings == WithPing(env, s, x, ps);
  }

  // ----- hearing about a listed member -----

  /**
   * Hearing about a listed member. A suspicion about ourselves is outbid in our record and in our slot, without a
   * new timer, and somebody hears of it; news that does not override changes nothing; other news restarts the
   * timer, forgets the first ping to the member and is told to nobody.
   */
  lemma UpdateDoes(env: Env, s: State, i: nat, e: Entry)
    requires i < s.mc && s.members[i].entry.uuid == e.uuid && e.status != Confirmed
    ensures var x, t := s.members[i], MemberUpdate(env, s, i, e);
      if e.uuid == s.self.uuid && e.status == Suspect then
        var me := x.entry.(status := Alive, incarnation := Succ(e.incarnation));
        && t.members == s.members[i := Member(me, x.timeout)]
        && t.self == s.self.(status := Alive, incarnation := Succ(e.incarnation))
        && SameTables(s, t) && t.ticks == s.ticks && Notifies(env, s, Posted(s, t), AliveMessage, t.self, me)
      else if Join(Word(x.entry), Word(e)) == Word(x.entry) then t == s
      else
        && t.members == s.members[i := Member(e.(addr := x.entry.addr), env.clock(s.ticks) + env.cfg.suspectMs)]
        && t == s.(members := t.members, pings := t.pings, ticks := s.ticks + 1)
        && WithoutFirst(s.pings, t.pings, Targets(s, e.uuid))
  {
    hide Retrieve, DropPing;
    var x := s.members[i];
    if e.uuid == s.self.uuid && e.status == Suspect {
      var me := x.entry.(status := Alive, incarnation := Succ(e.incarnation));
      var s1 := SetSlot(s, i, x.(entry := me))
                .(self := s.self.(status := Alive, incarnation := Succ(e.incarnation)),
                  incs := s.incs + {Succ(e.incarnation)});
      RetrieveIgnores(env, s, s1, i);
    } else if Overrides(e.status, e.incarnation, x.entry) {
      var s1 := Restamp(env, s, i, e.status, e.incarnation);
      DropPingDoes(s1, e.uuid);
      SameTargets(s, s1, e.uuid);
    }
  }

  lemma SameTargets(s: State, t: State, u: Uuid)
    requires |t.members| == |s.members|
    requires forall x :: 0 <= x < |s.members| ==> t.members[x].entry.uuid == s.members[x].entry.uuid
    ensures forall ps: seq<Ping>, qs: seq<Ping> ::
      WithoutFirst(ps, qs, Targets(t, u)) ==> WithoutFirst(ps, qs, Targets(s, u))
  {
    forall p: Ping ensures Targets(t, u)(p) == Targets(s, u)(p) {}
  }

  // ----- confirming -----

  /** The state between the move and the announcement. */
  function Moved(s: State, i: nat): State {
    Move(DropPing(SetStatus(s, i, Confirmed), Slot(s, i).entry.uuid), i)
  }

  lemma ConfirmIs(env: Env, s: State, i: nat)
    requires i < s.mc
    ensures var t, r := Confirm(env, s, i), Moved(s, i);
      && t == r.(indices := t.indices, rr := t.rr, draws := t.draws, outbox := t.outbox)
      && Notifies(env, r, Posted(r, t), ConfirmMessage, r.self, Slot(r, i).entry)
  {
    hide Retrieve, Move, DropPing, MaxPos, Notifies;
    var r := Moved(s, i);
    AnnounceTells(env, r, ConfirmMessage, Slot(r, i).entry);
  }

  lemma MovedIs(s: State, i: nat)
    requires i < s.mc
    ensures var m, t := s.members[i], Moved(s, i);
      && t.mc == s.mc - 1 && t.members == ShiftDown(SetStatus(s, i, Confirmed).members, i, s.mc)
      && t.confirmed == s.confirmed + [m.(entry := m.entry.(status := Confirmed))]
      && t == s.(members := t.members, mc := t.mc, confirmed := t.confirmed, updates := t.updates, pings := t.pings)
  {
    hide DropPing, RebaseAll, ShiftDown;
  }

  lemma MovedForgets(s: State, i: nat)
    requires i < s.mc
    ensures var u := s.members[i].entry.uuid;
      exists ps: seq<Ping> ::
        WithoutFirst(s.pings, ps, Targets(s, u)) && WithoutFirst(ps, Moved(s, i).pings, Targets(s, u))
  {
    hide DropPing, RebaseAll, ShiftDown, WithoutFirst;
    var u := s.members[i].entry.uuid;
    var s0 := SetStatus(s, i, Confirmed);
    var s1 := DropPing(s0, u);
    DropPingDoes(s0, u);
    DropPingDoes(s1, u);
    SameTargets(s, s0, u);
    SameTargets(s, s1, u);
    assert Moved(s, i).pings == DropPing(s1, u).pings;
    assert WithoutFirst(s.pings, s1.pings, Targets(s, u));
    assert WithoutFirst(s1.pings, Moved(s, i).pings, Targets(s, u));
  }

  /**
   * A confirmation moves the member, as it is but for the status, behind the confirmed ones and closes the gap;
   * it forgets the first two pings to it, and tells the next in turn among those left about the slot's new holder.
   */
  lemma ConfirmDoes(env: Env, s: State, i: nat)
    requires i < s.mc
    ensures var m, t := s.members[i], Confirm(env, s, i);
      && t.mc == s.mc - 1 && t.members == ShiftDown(SetStatus(s, i, Confirmed).members, i, s.mc)
      && t.confirmed == s.confirmed + [m.(entry := m.entry.(status := Confirmed))]
      && t.self == s.self && t.ticks == s.ticks && t.pingReqs == s.pingReqs
      && (exists ps: seq<Ping> ::
            WithoutFirst(s.pings, ps, Targets(s, m.entry.uuid)) && WithoutFirst(ps, t.pings, Targets(s, m.entry.uuid)))
      && Notifies(env, s.(members := t.members, mc := t.mc), Posted(s, t), ConfirmMessage, s.self, t.members[i].entry)
  {
    hide Confirm, Moved, ShiftDown, WithoutFirst, Notifies, SetStatus;
    ConfirmIs(env, s, i);
    MovedIs(s, i);
    MovedForgets(s, i);
    var r, t := Moved(s, i), Confirm(env, s, i);
    NotifiesAlike(env, s.(members := t.members, mc := t.mc), r, Posted(r, t), ConfirmMessage, s.self,
                  t.members[i].entry);
  }

  lemma RetrieveAlike(env: Env, s: State, t: State)
    requires t.members == s.members && t.self.uuid == s.self.uuid && t.mc == s.mc
    requires t.indices == s.indices && t.rr == s.rr && t.draws == s.draws
    ensures var (p, q) := (Retrieve(env, s), Retrieve(env, t));
      q.1 == p.1 && q.0.indices == p.0.indices && q.0.rr == p.0.rr && q.0.draws == p.0.draws
  {
    hide RetrieveFrom;
    if s.mc > 0 {
      assert s.members == s.members[0 := t.members[0]];
      SearchIgnores(env, s, t, 0, s.rr, 3);
    }
  }

  lemma NotifiesAlike(env: Env, s: State, t: State, told: seq<Packet>, kind: Kind, teller: Entry, e: Entry)
    requires t.members == s.members && t.self == s.self && t.mc == s.mc
    requires t.indices == s.indices && t.rr == s.rr && t.draws == s.draws
    ensures Notifies(env, t, told, kind, teller, e) == Notifies(env, s, told, kind, teller, e)
  {
    hide Retrieve;
    RetrieveAlike(env, s, t);
  }

  // ----- adding a member -----

  /** A new live member takes the next slot, as described and with a new timer, and its update is first in line. */
  lemma AddLiveDoes(env: Env, s: State, e: Entry)
    requires s.mc < |s.members| && |s.updates| < env.cfg.maxUpdates
    ensures var t := AddLive(env, s, e);
      && t.mc == s.mc + 1 && t.members == s.members[s.mc := Member(e, env.clock(s.ticks) + env.cfg.suspectMs)]
      && t.updates == s.updates + [Update(Live(s.mc), 0)]
      && t == s.(members := t.members, mc := t.mc, updates := t.updates, indices := t.indices, draws := t.draws,
                 ticks := s.ticks + 1)
  {
    hide IndexAdd;
  }

  /** A member first heard of as dead is stored without a timer, and its update is first in line as well. */
  lemma AddConfirmedDoes(env: Env, s: State, e: Entry)
    requires |s.confirmed| < env.cfg.maxMembers && |s.updates| < env.cfg.maxUpdates
    ensures AddConfirmed(env, s, e) ==
      s.(confirmed := s.confirmed + [Member(e, 0)], updates := s.updates + [Update(Conf(|s.confirmed|), 0)])
  {
  }

  // ----- whom a ping means -----

  /**
   * A confirmation of slot i redirects every ping to a live slot from i on but the last: it means the next member from
   * then on. Pings are not rebased as updates are.
   */
  lemma ConfirmRedirects(env: Env, s: State, k: Knowledge, i: nat, x: nat)
    requires Core(s, k) && i < s.mc && x < s.mc
    ensures var t := Confirm(env, s, i);
      && t.members[x].entry.uuid == s.members[if i <= x < s.mc - 1 then x + 1 else x].entry.uuid
      && (t.members[x].entry.uuid == s.members[x].entry.uuid <==> !(i <= x < s.mc - 1))
  {
    hide Followed, SlotsOk, SeedOk, SelfListed, PingsOk, OutboxOk, Confirm;
    ConfirmDoes(env, s, i);
  }

  // ----- hearing of a death -----

  /** The first three pings that hit are gone, as far as there are any. */
  ghost predicate WithoutThree(ps: seq<Ping>, qs: seq<Ping>, hit: Ping -> bool) {
    exists a: seq<Ping>, b: seq<Ping> :: WithoutFirst(ps, a, hit) && WithoutFirst(a, b, hit) && WithoutFirst(b, qs, hit)
  }

  /**
   * Hearing that a listed member is dead, ourselves included: it moves behind the confirmed ones with the incarnation
   * that was heard, the gap closes, and the next in turn hears about the slot's new holder.
   */
  lemma DeathIsBelieved(env: Env, s: State, i: nat, e: Entry)
    requires i < s.mc && s.members[i].entry.uuid == e.uuid && e.status == Confirmed
    requires s.members[i].entry.status != Confirmed
    ensures var x, t := s.members[i], MemberUpdate(env, s, i, e);
      var dead := Member(x.entry.(status := Confirmed, incarnation := e.incarnation), x.timeout);
      && t.mc == s.mc - 1 && t.confirmed == s.confirmed + [dead]
      && t.members == ShiftDown(s.members[i := dead], i, s.mc)
      && t.self == s.self && t.ticks == s.ticks && t.pingReqs == s.pingReqs
      && WithoutThree(s.pings, t.pings, Targets(s, e.uuid))
      && Notifies(env, s.(members := t.members, mc := t.mc), Posted(s, t), ConfirmMessage, s.self, t.members[i].entry)
  {
    hide Confirm, DropPing, ShiftDown, WithoutFirst, Notifies;
    var x, u := s.members[i], e.uuid;
    var dead := Member(x.entry.(status := Confirmed, incarnation := e.incarnation), x.timeout);
    var s0 := SetSlot(s, i, dead);
    var s1 := DropPing(s0, u);
    var t := MemberUpdate(env, s, i, e);
    assert t == Confirm(env, s1, i);
    DropPingDoes(s0, u);
    SameTargets(s, s0, u);
    SameTargets(s, s1, u);
    ConfirmDoes(env, s1, i);
    assert s1.members[i := dead] == s1.members;
    var b: seq<Ping> :| WithoutFirst(s1.pings, b, Targets(s1, u)) && WithoutFirst(b, t.pings, Targets(s1, u));
    assert WithoutFirst(s.pings, s1.pings, Targets(s, u));
    assert WithoutFirst(s1.pings, b, Targets(s, u));
    assert WithoutFirst(b, t.pings, Targets(s, u));
    NotifiesAlike(env, s.(members := t.members, mc := t.mc), s1.(members := t.members, mc := t.mc), Posted(s, t),
                  ConfirmMessage, s.self, t.members[i].entry);
  }
}
