/**
 * What every step carries over although slots shift and tables are reordered: the ping table never
 * outgrows its array, no update is forgotten, and no message is sent without something to tell.
 */
module Continuity {
  import opened Types
  import opened Seqs
  import opened Tables
  import opened Protocol
  import opened Invariant
  import opened Preservation
  import opened Sorting
  import opened Dissemination
  import opened Runs
  import opened Views

  // ----- the ping table -----

  /** The slots below n that pings point at. */
  function Probed(ps: seq<Ping>, n: nat): (r: set<nat>) {
    set x | 0 <= x < |ps| && ps[x].slot < n :: ps[x].slot
  }

  /**
   * Apart from one ping for each live slot that is pinged at all, there are no more pings than confirmed
   * members: a confirmation can leave the pings of one slot behind, and nothing else makes a surplus.
   */
  ghost predicate PingsCovered(ps: seq<Ping>, mc: nat, cc: nat) {
    |ps| <= cc + |Probed(ps, mc)|
  }

  ghost predicate RoomToPing(s: State) {
    PingsCovered(s.pings, s.mc, |s.confirmed|)
  }

  lemma SubsetSize<T>(a: set<T>, b: set<T>)
    requires a <= b
    ensures |a| <= |b|
    ensures a != b ==> |a| < |b|
  {
    assert b == a + (b - a) && a !! b - a;
  }

  lemma ProbedFits(ps: seq<Ping>, n: nat)
    ensures |Probed(ps, n)| <= n
    ensures forall i: nat :: i < n && i !in Probed(ps, n) ==> |Probed(ps, n)| < n
  {
    SubsetSize(Probed(ps, n), Range(n));
  }

  /** One ping fewer unprobes at most its own slot. */
  lemma OneFewer(ps: seq<Ping>, qs: seq<Ping>, x: nat, mc: nat, cc: nat)
    requires PingsCovered(ps, mc, cc) && x < |ps| && |qs| == |ps| - 1
    requires forall y :: 0 <= y < |ps| && y != x ==> exists z :: 0 <= z < |qs| && qs[z] == ps[y]
    ensures PingsCovered(qs, mc, cc)
  {
    var a, b := Probed(ps, mc), Probed(qs, mc);
    forall p | p in a ensures p in b + {ps[x].slot} {
      var y :| 0 <= y < |ps| && ps[y].slot < mc && ps[y].slot == p;
      if y != x {
        var z :| 0 <= z < |qs| && qs[z] == ps[y];
        assert qs[z].slot == p;
      }
    }
    SubsetSize(a, b + {ps[x].slot});
  }

  lemma RemovedCovered(ps: seq<Ping>, x: nat, mc: nat, cc: nat)
    requires PingsCovered(ps, mc, cc) && x < |ps|
    ensures PingsCovered(RemoveAt(ps, x), mc, cc)
  {
    var qs := RemoveAt(ps, x);
    forall y | 0 <= y < |ps| && y != x ensures exists z :: 0 <= z < |qs| && qs[z] == ps[y] {
      assert qs[if y < x then y else y - 1] == ps[y];
    }
    OneFewer(ps, qs, x, mc, cc);
  }

  lemma ReplacedCovered(ps: seq<Ping>, x: nat, mc: nat, cc: nat)
    requires PingsCovered(ps, mc, cc) && x < |ps|
    ensures PingsCovered(ps[x := ps[|ps| - 1]][..|ps| - 1], mc, cc)
  {
    var qs := ps[x := ps[|ps| - 1]][..|ps| - 1];
    forall y | 0 <= y < |ps| && y != x ensures exists z :: 0 <= z < |qs| && qs[z] == ps[y] {
      assert qs[if y == |ps| - 1 then x else y] == ps[y];
    }
    OneFewer(ps, qs, x, mc, cc);
  }

  lemma SameSlotsCovered(ps: seq<Ping>, qs: seq<Ping>, mc: nat, cc: nat)
    requires PingsCovered(ps, mc, cc) && |qs| == |ps| && forall x :: 0 <= x < |ps| ==> qs[x].slot == ps[x].slot
    ensures PingsCovered(qs, mc, cc)
  {
    assert Probed(qs, mc) == Probed(ps, mc);
  }

  /** A confirmation takes one live slot away and adds one confirmed member. */
  lemma ShrinkingCovered(ps: seq<Ping>, mc: nat, cc: nat)
    requires PingsCovered(ps, mc, cc) && mc > 0
    ensures PingsCovered(ps, mc - 1, cc + 1)
  {
    SubsetSize(Probed(ps, mc), Probed(ps, mc - 1) + {mc - 1});
  }

  lemma GrowingCovered(ps: seq<Ping>, mc: nat, cc: nat, more: nat, most: nat)
    requires PingsCovered(ps, mc, cc) && mc <= more && cc <= most
    ensures PingsCovered(ps, more, most)
  {
    SubsetSize(Probed(ps, mc), Probed(ps, more));
  }

  /** A new ping to a slot that no ping points at. */
  lemma AddedCovered(ps: seq<Ping>, p: Ping, mc: nat, cc: nat)
    requires PingsCovered(ps, mc, cc) && p.slot < mc && p.slot !in Probed(ps, mc)
    ensures PingsCovered(ps + [p], mc, cc)
  {
    var qs := ps + [p];
    forall x | x in Probed(ps, mc) + {p.slot} ensures x in Probed(qs, mc) {
      if x == p.slot {
        assert qs[|ps|].slot == x;
      } else {
        var y :| 0 <= y < |ps| && ps[y].slot < mc && ps[y].slot == x;
        assert qs[y].slot == x;
      }
    }
    SubsetSize(Probed(ps, mc) + {p.slot}, Probed(qs, mc));
  }

  /** A ping that takes the place of one to the same slot, or of one to no live slot. */
  lemma MovedCovered(ps: seq<Ping>, x: nat, p: Ping, mc: nat, cc: nat)
    requires PingsCovered(ps, mc, cc) && x < |ps| && (ps[x].slot == p.slot || ps[x].slot >= mc)
    ensures PingsCovered(RemoveAt(ps, x) + [p], mc, cc)
  {
    var qs := RemoveAt(ps, x) + [p];
    forall i | i in Probed(ps, mc) ensures i in Probed(qs, mc) {
      var y :| 0 <= y < |ps| && ps[y].slot < mc && ps[y].slot == i;
      var z := if y < x then y else if y > x then y - 1 else |ps| - 1;
      assert qs[z].slot == i;
    }
    SubsetSize(Probed(ps, mc), Probed(qs, mc));
  }

  lemma DropPingCovered(s: State, u: Uuid, mc: nat, cc: nat)
    requires PingsCovered(s.pings, mc, cc)
    ensures PingsCovered(DropPing(s, u).pings, mc, cc)
  {
    var p := PingFind(s, u);
    if p.Some? { RemovedCovered(s.pings, p.value, mc, cc); }
  }

  /** Two live slots never carry the same uuid, so a ping to the uuid of a live slot is to that slot or to none. */
  lemma PingAddCovered(env: Env, s: State, k: Knowledge, slot: nat)
    requires Core(s, k) && RoomToPing(s) && slot < s.mc
    ensures RoomToPing(PingAdd(env, s, slot))
  {
    hide Followed, SlotsOk, SeedOk, SelfListed, PingsOk, OutboxOk, PingsCovered;
    var u := s.members[slot].entry.uuid;
    DropPingCovered(s, u, s.mc, |s.confirmed|);
    var t := PingAdd(env, s, slot);
    if t.pings != DropPing(s, u).pings {
      var x, p := PingFind(s, u), t.pings[|t.pings| - 1];
      if x.Some? {
        assert Targets(s, u)(s.pings[x.value]);
        MovedCovered(s.pings, x.value, p, s.mc, |s.confirmed|);
      } else {
        forall y | 0 <= y < |s.pings| ensures s.pings[y].slot != slot { assert !Targets(s, u)(s.pings[y]); }
        AddedCovered(s.pings, p, s.mc, |s.confirmed|);
      }
    }
  }

  /** After the drop of an earlier ping to the same uuid there is always a free entry. */
  lemma RoomForPing(s: State, k: Knowledge, slot: nat)
    requires Core(s, k) && BookOk(k) && RoomToPing(s) && slot < s.mc
    ensures |s.pings| <= |k.book|
    ensures |DropPing(s, s.members[slot].entry.uuid).pings| < |k.book|
  {
    hide Followed, SlotsOk, SeedOk, SelfListed, PingsOk, OutboxOk;
    var u := s.members[slot].entry.uuid;
    Capacity(s, k);
    ProbedFits(s.pings, s.mc);
    if PingFind(s, u).None? {
      forall y | 0 <= y < |s.pings| ensures s.pings[y].slot != slot { assert !Targets(s, u)(s.pings[y]); }
      assert slot !in Probed(s.pings, s.mc);
    }
  }

  // ----- what is carried over -----

  /** Some update is about u and has been used at least `count` times. */
  ghost predicate Told(s: State, u: Uuid, count: nat) {
    exists y :: 0 <= y < |s.updates| && Subject(s, y) == u && s.updates[y].count >= count
  }

  /** No update about a named node is lost, and none starts over. */
  ghost predicate Remembers(s: State, t: State) {
    forall x :: 0 <= x < |s.updates| && Subject(s, x) != BLANK ==> Told(t, Subject(s, x), s.updates[x].count)
  }

  predicate Telling(env: Env, m: Message) {
    1 <= |m.updates| <= env.cfg.perMessage
  }

  /** With room for two updates in a message, whatever is sent has something to tell, and not too much. */
  ghost predicate Tells(env: Env, s: State, t: State) {
    && s.outbox <= t.outbox
    && (env.cfg.perMessage >= 2 ==> forall x :: |s.outbox| <= x < |t.outbox| ==> Telling(env, t.outbox[x].message))
  }

  ghost predicate Carries(env: Env, s: State, t: State) {
    && (RoomToPing(s) ==> RoomToPing(t))
    && Remembers(s, t)
    && Tells(env, s, t)
  }

  lemma CarriesTrans(env: Env, s: State, t: State, r: State)
    requires Carries(env, s, t) && Carries(env, t, r)
    ensures Carries(env, s, r)
  {
    hide RoomToPing, Telling;
    forall x | 0 <= x < |s.updates| && Subject(s, x) != BLANK ensures Told(r, Subject(s, x), s.updates[x].count) {
      var y :| 0 <= y < |t.updates| && Subject(t, y) == Subject(s, x) && t.updates[y].count >= s.updates[x].count;
      assert Told(r, Subject(t, y), t.updates[y].count);
    }
    forall x | |s.outbox| <= x < |r.outbox| && env.cfg.perMessage >= 2 ensures Telling(env, r.outbox[x].message) {
      if x < |t.outbox| { assert r.outbox[x] == t.outbox[x]; }
    }
  }

  /** Updates, pings and counts stay, and so does the uuid in every slot that an update points at. */
  lemma CarriesPlainly(env: Env, s: State, t: State)
    requires t.updates == s.updates && t.pings == s.pings && t.mc == s.mc && |t.confirmed| == |s.confirmed|
    requires forall x :: 0 <= x < |s.updates| && Subject(s, x) != BLANK ==> Subject(t, x) == Subject(s, x)
    requires Tells(env, s, t)
    ensures Carries(env, s, t)
  {
    hide Tells, PingsCovered, Subject;
    forall x | 0 <= x < |s.updates| && Subject(s, x) != BLANK ensures Told(t, Subject(s, x), s.updates[x].count) {
      assert Subject(t, x) == Subject(s, x);
    }
  }

  lemma CarriesSame(env: Env, s: State)
    ensures Carries(env, s, s)
  {
    CarriesPlainly(env, s, s);
  }

  /** The slots are as they were: pings, counts and one message may be new. */
  lemma SameSlots(env: Env, s: State, t: State)
    requires t.members == s.members && t.confirmed == s.confirmed && t.updates == s.updates && t.mc == s.mc
    requires RoomToPing(s) ==> RoomToPing(t)
    requires Tells(env, s, t)
    ensures Carries(env, s, t)
  {
    hide Tells, PingsCovered;
    forall x | 0 <= x < |s.updates| ensures Told(t, Subject(s, x), s.updates[x].count) {
      assert Subject(t, x) == Subject(s, x);
    }
  }

  lemma AnnounceCarries(env: Env, s: State, kind: Kind, e: Entry)
    ensures Carries(env, s, Announce(env, s, kind, e))
  {
    hide Retrieve;
    SameSlots(env, s, Announce(env, s, kind, e));
  }

  lemma DropPingCarries(env: Env, s: State, u: Uuid)
    ensures Carries(env, s, DropPing(s, u))
  {
    hide DropPing, PingsCovered;
    if RoomToPing(s) { DropPingCovered(s, u, s.mc, |s.confirmed|); }
    SameSlots(env, s, DropPing(s, u));
  }

  lemma RetouchCarries(env: Env, s: State, i: nat, m: Member)
    requires i < |s.members| && m.entry.uuid == s.members[i].entry.uuid
    ensures Carries(env, s, SetSlot(s, i, m))
  {
    CarriesPlainly(env, s, SetSlot(s, i, m));
  }

  lemma RestampCarries(env: Env, s: State, i: nat, status: Status, incarnation: nat)
    ensures Carries(env, s, Restamp(env, s, i, status, incarnation))
  {
    CarriesPlainly(env, s, Restamp(env, s, i, status, incarnation));
  }

  lemma MarkAliveCarries(env: Env, s: State, i: nat)
    ensures Carries(env, s, MarkAlive(env, s, i))
  {
    hide Announce, Restamp, Carries;
    var s1 := Restamp(env, s, i, Alive, Slot(s, i).entry.incarnation);
    RestampCarries(env, s, i, Alive, Slot(s, i).entry.incarnation);
    AnnounceCarries(env, s1, AliveMessage, Slot(s1, i).entry);
    CarriesTrans(env, s, s1, Announce(env, s1, AliveMessage, Slot(s1, i).entry));
  }

  lemma MarkSuspectCarries(env: Env, s: State, i: nat)
    ensures Carries(env, s, MarkSuspect(env, s, i))
  {
    hide Announce, Restamp, Carries;
    var s1 := Restamp(env, s, i, Suspect, Slot(s, i).entry.incarnation);
    RestampCarries(env, s, i, Suspect, Slot(s, i).entry.incarnation);
    AnnounceCarries(env, s1, SuspectMessage, Slot(s1, i).entry);
    CarriesTrans(env, s, s1, Announce(env, s1, SuspectMessage, Slot(s1, i).entry));
    CarriesSame(env, s);
  }

  // ----- confirming -----

  lemma ConfirmPings(env: Env, s: State, i: nat)
    requires i < s.mc
    ensures var u, t := s.members[i].entry.uuid, Confirm(env, s, i);
      var s1 := DropPing(SetStatus(s, i, Confirmed), u);
      && t.pings == DropPing(s1, u).pings && s1.pings == DropPing(SetStatus(s, i, Confirmed), u).pings
      && t.mc == s.mc - 1 && |t.confirmed| == |s.confirmed| + 1
      && Tells(env, s, t)
  {
    hide RebaseAll, Retrieve, MaxPos, DropPing;
  }

  lemma ConfirmCarries(env: Env, s: State, k: Knowledge, i: nat)
    requires Core(s, k) && i < s.mc
    ensures Carries(env, s, Confirm(env, s, i))
  {
    hide Core, Confirm, Tells, PingsCovered, DropPing, Subject;
    var u, t := s.members[i].entry.uuid, Confirm(env, s, i);
    var s0 := SetStatus(s, i, Confirmed);
    ConfirmPings(env, s, i);
    if RoomToPing(s) {
      DropPingCovered(s0, u, s.mc, |s.confirmed|);
      DropPingCovered(DropPing(s0, u), u, s.mc, |s.confirmed|);
      ShrinkingCovered(t.pings, s.mc, |s.confirmed|);
    }
    ConfirmKeepsSubjects(env, s, k, i);
    forall x | 0 <= x < |s.updates| ensures Told(t, Subject(s, x), s.updates[x].count) {
      assert Subject(t, x) == Subject(s, x);
    }
  }

  // ----- taking in an entry -----

  lemma FindCarries(env: Env, s: State, k: Knowledge, e: Entry)
    requires Core(s, k)
    ensures Carries(env, s, Find(s, e).0)
  {
    hide Core, Subject;
    FindKeepsSubjects(s, k, e);
    FindNames(s, e);
    var (t, i) := Find(s, e);
    forall x | 0 <= x < |s.updates| && Subject(s, x) != BLANK ensures Subject(t, x) == Subject(s, x) {
      if i.Some? && s.updates[x].ref == Live(i.value) { SubjectOfLive(s, x, i.value); }
    }
    CarriesPlainly(env, s, t);
  }

  lemma SubjectOfLive(s: State, x: nat, i: nat)
    requires x < |s.updates| && s.updates[x].ref == Live(i) && i < |s.members|
    ensures Subject(s, x) == s.members[i].entry.uuid
  {
  }

  lemma FindNames(s: State, e: Entry)
    ensures var (t, i) := Find(s, e);
      && t == s.(members := t.members)
      && (i.Some? ==> s.members[i.value].entry.uuid == BLANK || s.members[i.value].entry.uuid == e.uuid)
  {
    var i := First(Lives(s), Fits(e));
    if i.Some? { assert s.members[i.value] == Lives(s)[i.value]; }
  }

  lemma RefuteCarries(env: Env, s: State, i: nat, incarnation: nat)
    ensures Carries(env, s, Refute(env, s, i, incarnation))
  {
    hide Announce, Carries;
    var n := Succ(incarnation);
    var e := Slot(s, i).entry.(status := Alive, incarnation := n);
    var s1 := SetSlot(s, i, Slot(s, i).(entry := e))
              .(self := s.self.(status := Alive, incarnation := n), incs := s.incs + {n});
    CarriesPlainly(env, s, s1);
    AnnounceCarries(env, s1, AliveMessage, Slot(s1, i).entry);
    CarriesTrans(env, s, s1, Announce(env, s1, AliveMessage, Slot(s1, i).entry));
  }

  lemma UpdateCarries(env: Env, s: State, k: Knowledge, i: nat, e: Entry)
    requires Inv(s, k) && Named(s, k, e) && i < s.mc && s.members[i].entry.uuid == e.uuid
    ensures Carries(env, s, MemberUpdate(env, s, i, e))
  {
    hide Core, Confirm, Refute, Restamp, DropPing, Carries;
    var x := s.members[i].entry;
    if e.uuid == s.self.uuid && e.status == Suspect {
      RefuteCarries(env, s, i, e.incarnation);
    } else if !Overrides(e.status, e.incarnation, x) {
      CarriesSame(env, s);
    } else if e.status == Confirmed {
      var m := s.members[i].(entry := x.(status := Confirmed, incarnation := e.incarnation));
      RetouchKeeps(s, k, i, m);
      RetouchCarries(env, s, i, m);
      var s1 := SetSlot(s, i, m);
      DropPingKeeps(s1, k, x.uuid);
      DropPingCarries(env, s1, x.uuid);
      var s2 := DropPing(s1, x.uuid);
      ConfirmCarries(env, s2, k, i);
      CarriesTrans(env, s, s1, s2);
      CarriesTrans(env, s, s2, Confirm(env, s2, i));
    } else {
      var s1 := Restamp(env, s, i, e.status, e.incarnation);
      RestampCarries(env, s, i, e.status, e.incarnation);
      DropPingCarries(env, s1, x.uuid);
      CarriesTrans(env, s, s1, DropPing(s1, x.uuid));
    }
  }

  /** The tables grow by one member and perhaps one update. */
  lemma GrowthCarries(env: Env, s: State, t: State)
    requires s.mc <= t.mc && |s.confirmed| <= |t.confirmed| && t.pings == s.pings && t.outbox == s.outbox
    requires s.updates <= t.updates
    requires forall x :: 0 <= x < |s.updates| ==> Subject(t, x) == Subject(s, x)
    ensures Carries(env, s, t)
  {
    hide PingsCovered, Subject;
    if RoomToPing(s) { GrowingCovered(s.pings, s.mc, |s.confirmed|, t.mc, |t.confirmed|); }
    forall x | 0 <= x < |s.updates| ensures Told(t, Subject(s, x), s.updates[x].count) {
      assert Subject(t, x) == Subject(s, x) && t.updates[x] == s.updates[x];
    }
  }

  lemma AddLiveCarries(env: Env, s: State, k: Knowledge, e: Entry)
    requires Core(s, k)
    ensures Carries(env, s, AddLive(env, s, e))
  {
    hide UniqueUuids, SlotsOk, SeedOk, SelfListed, PingsOk, OutboxOk, IndexAdd;
    var t := AddLive(env, s, e);
    if s.mc < |s.members| {
      LiveGrows(env, s, e);
      forall x | 0 <= x < |s.updates| ensures Subject(t, x) == Subject(s, x) {
        assert RefOk(s.updates[x].ref, s.mc, |s.confirmed|);
      }
      GrowthCarries(env, s, t);
    } else {
      CarriesSame(env, s);
    }
  }

  lemma AddConfirmedCarries(env: Env, s: State, k: Knowledge, e: Entry)
    requires Core(s, k)
    ensures Carries(env, s, AddConfirmed(env, s, e))
  {
    hide UniqueUuids, SlotsOk, SeedOk, SelfListed, PingsOk, OutboxOk;
    var t := AddConfirmed(env, s, e);
    forall x | 0 <= x < |s.updates| ensures Subject(t, x) == Subject(s, x) {
      assert RefOk(s.updates[x].ref, s.mc, |s.confirmed|);
    }
    GrowthCarries(env, s, t);
  }

  lemma UpdateAddCarries(env: Env, s: State, r: Ref)
    ensures Carries(env, s, UpdateAdd(env.cfg, s, r))
  {
    GrowthCarries(env, s, UpdateAdd(env.cfg, s, r));
  }

  lemma CheckCarries(env: Env, s: State, k: Knowledge, e: Entry)
    requires Inv(s, k) && BookOk(k) && Named(s, k, e)
    ensures Carries(env, s, Check(env, s, e))
  {
    hide Core, MemberUpdate, AddLive, AddConfirmed, UpdateAdd, Find, Carries;
    FindKeeps(s, k, e);
    FindCarries(env, s, k, e);
    var (s1, i) := Find(s, e);
    if i.None? {
      AddLiveCarries(env, s, k, e);
      AddConfirmedCarries(env, s, k, e);
    } else {
      UpdateCarries(env, s1, k, i.value, e);
      var s2 := MemberUpdate(env, s1, i.value, e);
      CarriesTrans(env, s, s1, s2);
      UpdateAddCarries(env, s2, Live(i.value));
      CarriesTrans(env, s, s2, UpdateAdd(env.cfg, s2, Live(i.value)));
    }
  }

  lemma {:induction false} CheckAllCarries(env: Env, s: State, k: Knowledge, es: seq<Entry>)
    requires Inv(s, k) && BookOk(k) && RoomFor(env, k) && |s.members| == env.cfg.maxMembers
    requires forall i :: 0 <= i < |es| ==> Named(s, k, es[i])
    ensures Carries(env, s, CheckAll(env, s, es))
  {
    hide Inv, Check, Carries;
    if es == [] {
      CarriesSame(env, s);
    } else {
      var n := |es| - 1;
      CheckAllCarries(env, s, k, es[..n]);
      CheckAllKeeps(env, s, k, es[..n]);
      var s1 := CheckAll(env, s, es[..n]);
      CheckCarries(env, s1, k, es[n]);
      CarriesTrans(env, s, s1, Check(env, s1, es[n]));
    }
  }

  // ----- gossip -----

  lemma UsesRemember(s: State, n: nat, us: seq<Update>, t: State)
    requires multiset(us) == multiset(s.updates) && t == s.(updates := Used(s, us, n))
    ensures Remembers(s, t)
  {
    hide Used, Blank;
    forall x | 0 <= x < |s.updates| && Subject(s, x) != BLANK ensures Told(t, Subject(s, x), s.updates[x].count) {
      assert s.updates[x] in multiset(us);
      var y :| 0 <= y < |us| && us[y] == s.updates[x];
      assert t.updates[y].ref == us[y].ref;
      assert Subject(t, y) == Subject(s, x);
    }
  }

  lemma GossipCarries(env: Env, s: State, k: Knowledge, kind: Kind)
    requires Core(s, k)
    ensures var (t, m) := Gossip(env.cfg, s, kind);
      Carries(env, s, t) && (env.cfg.perMessage >= 2 ==> Telling(env, m))
  {
    hide Core, SortByCount, Used, Choose, PingsCovered;
    var us := SortByCount(s.updates);
    SortCorrect(s.updates);
    var n := Limit(env.cfg, us);
    var t := Gossip(env.cfg, s, kind).0;
    UsesRemember(s, n, us, t);
    if env.cfg.perMessage >= 2 {
      GossipHasNews(env, s, k);
      FewAreChosen(s, us[..n]);
    }
  }

  lemma SendCarries(env: Env, s: State, to: Addr, m: Message)
    requires env.cfg.perMessage >= 2 ==> Telling(env, m)
    ensures Carries(env, s, Send(s, to, m))
  {
    SameSlots(env, s, Send(s, to, m));
  }

  /** A gossip message goes out, its sender perhaps replaced by somebody on whose behalf it is sent. */
  lemma GossipSentCarries(env: Env, s: State, k: Knowledge, kind: Kind, to: Addr, sender: Entry)
    requires Core(s, k)
    ensures var (t, m) := Gossip(env.cfg, s, kind); Carries(env, s, Send(t, to, m.(sender := sender)))
  {
    hide Core, Gossip, Carries;
    GossipCarries(env, s, k, kind);
    var (t, m) := Gossip(env.cfg, s, kind);
    SendCarries(env, t, to, m.(sender := sender));
    CarriesTrans(env, s, t, Send(t, to, m.(sender := sender)));
  }

  // ----- handlers -----

  lemma PingHandleCarries(env: Env, s: State, k: Knowledge, m: Message)
    requires Inv(s, k) && BookOk(k) && Named(s, k, m.sender)
    ensures Carries(env, s, PingHandle(env, s, m))
  {
    hide Core, MarkAlive, Gossip, Find, DropPing, Carries;
    var (s1, ack) := Gossip(env.cfg, s, AckMessage);
    GossipKeeps(env.cfg, s, k, AckMessage);
    SendKeeps(s1, k, m.sender.addr, ack);
    var sent := Send(s1, m.sender.addr, ack);
    assert ack.(sender := ack.sender) == ack;
    GossipSentCarries(env, s, k, AckMessage, m.sender.addr, ack.sender);
    DropPingKeeps(sent, k, m.sender.uuid);
    DropPingCarries(env, sent, m.sender.uuid);
    var s2 := DropPing(sent, m.sender.uuid);
    CarriesTrans(env, s, sent, s2);
    var e := ZERO_ENTRY.(uuid := m.sender.uuid);
    FindCarries(env, s2, k, e);
    var (s3, i) := Find(s2, e);
    CarriesTrans(env, s, s2, s3);
    if i.Some? {
      MarkAliveCarries(env, s3, i.value);
      CarriesTrans(env, s, s3, MarkAlive(env, s3, i.value));
    }
  }

  lemma PingReqAddCarries(env: Env, s: State, source: nat, target: nat)
    ensures Carries(env, s, PingReqAdd(env, s, source, target))
  {
    hide PingReqAdd, PingsCovered;
    SameSlots(env, s, PingReqAdd(env, s, source, target));
  }

  lemma PingReqHandleCarries(env: Env, s: State, k: Knowledge, m: Message)
    requires Inv(s, k) && BookOk(k) && MessageOk(s, k, m) && Handled(m.kind)
    ensures Carries(env, s, PingReqHandle(env, s, m))
  {
    hide Core, Gossip, Find, PingReqAdd, Carries, Ring;
    var a := ZERO_ENTRY.(uuid := m.sender.uuid);
    var b := if m.updates == [] then ZERO_ENTRY else m.updates[0];
    FindKeeps(s, k, a);
    FindCarries(env, s, k, a);
    var (s1, source) := Find(s, a);
    FindKeeps(s1, k, b);
    FindCarries(env, s1, k, b);
    var (s2, target) := Find(s1, b);
    CarriesTrans(env, s, s1, s2);
    if source.Some? && target.Some? {
      var (s3, ping) := Gossip(env.cfg, s2, PingMessage);
      var to := Slot(s3, target.value).entry.addr;
      assert ping.(sender := ping.sender) == ping;
      GossipSentCarries(env, s2, k, PingMessage, to, ping.sender);
      var s4 := Send(s3, to, ping);
      CarriesTrans(env, s, s2, s4);
      PingReqAddCarries(env, s4, source.value, target.value);
      CarriesTrans(env, s, s4, PingReqAdd(env, s4, source.value, target.value));
    }
  }

  lemma PingReqsOnly(env: Env, s: State, pingReqs: seq<PingReq>, ticks: nat)
    ensures Carries(env, s, s.(pingReqs := pingReqs, ticks := ticks))
  {
    hide PingsCovered;
    SameSlots(env, s, s.(pingReqs := pingReqs, ticks := ticks));
  }

  lemma {:induction false} RelayCarries(env: Env, s: State, k: Knowledge, u: Uuid, i: nat)
    requires Inv(s, k) && u != BLANK
    ensures Carries(env, s, Relay(env, s, u, i))
    decreases |s.pingReqs| - i
  {
    hide Core, Gossip, Carries, Ring;
    if i >= |s.pingReqs| {
      CarriesSame(env, s);
    } else if Slot(s, s.pingReqs[i].target).entry.uuid != u {
      RelayCarries(env, s, k, u, i + 1);
    } else {
      Parts(s, k);
      var target, to := Slot(s, s.pingReqs[i].target).entry, Slot(s, s.pingReqs[i].source).entry.addr;
      GossipKeeps(env.cfg, s, k, AckMessage);
      GossipSentCarries(env, s, k, AckMessage, to, target);
      var (s1, ack) := Gossip(env.cfg, s, AckMessage);
      SendKeeps(s1, k, to, ack.(sender := target));
      var s2 := Send(s1, to, ack.(sender := target));
      var s3 := s2.(pingReqs := RemoveAt(s2.pingReqs, i));
      PingTablesKeep(s2, k, s2.pings, s3.pingReqs, s2.draws, s2.ticks);
      PingReqsOnly(env, s2, s3.pingReqs, s2.ticks);
      CarriesTrans(env, s, s2, s3);
      RelayCarries(env, s3, k, u, i + 1);
      CarriesTrans(env, s, s3, Relay(env, s3, u, i + 1));
    }
  }

  lemma PingRemovedCarries(env: Env, s: State, x: nat)
    requires x < |s.pings|
    ensures Carries(env, s, s.(pings := RemoveAt(s.pings, x)))
  {
    hide PingsCovered;
    if RoomToPing(s) { RemovedCovered(s.pings, x, s.mc, |s.confirmed|); }
    SameSlots(env, s, s.(pings := RemoveAt(s.pings, x)));
  }

  lemma AckHandleCarries(env: Env, s: State, k: Knowledge, m: Message)
    requires Inv(s, k) && m.sender.uuid != BLANK
    ensures Carries(env, s, AckHandle(env, s, m))
  {
    hide Core, MarkAlive, Relay, Carries, Ring;
    var p := PingFind(s, m.sender.uuid);
    CarriesSame(env, s);
    if p.Some? && Slot(s, s.pings[p.value].slot).entry.uuid != BLANK {
      var slot := s.pings[p.value].slot;
      Parts(s, k);
      MarkAliveKeeps(env, s, k, slot);
      MarkAliveCarries(env, s, slot);
      var s1 := MarkAlive(env, s, slot);
      RelayCarries(env, s1, k, m.sender.uuid, 0);
      var s2 := Relay(env, s1, m.sender.uuid, 0);
      CarriesTrans(env, s, s1, s2);
      if p.value < |s2.pings| {
        PingRemovedCarries(env, s2, p.value);
        CarriesTrans(env, s, s2, s2.(pings := RemoveAt(s2.pings, p.value)));
      }
    }
  }

  lemma HandleCarries(env: Env, s: State, k: Knowledge, m: Message)
    requires Inv(s, k) && BookOk(k) && RoomFor(env, k) && |s.members| == env.cfg.maxMembers
    requires Acceptable(s, k, m)
    ensures Carries(env, s, Handle(env, s, m))
  {
    hide Inv, CheckAll, PingHandle, PingReqHandle, AckHandle, Carries;
    if Handled(m.kind) {
      CheckAllCarries(env, s, k, [m.sender] + m.updates);
      ExtractKeeps(env, s, k, m);
      var s1 := Extract(env, s, m);
      match m.kind {
        case PingMessage => PingHandleCarries(env, s1, k, m);
        case PingReqMessage => PingReqHandleCarries(env, s1, k, m);
        case AckMessage => AckHandleCarries(env, s1, k, m);
        case _ =>
      }
      CarriesTrans(env, s, s1, Handle(env, s, m));
    } else {
      CarriesSame(env, s);
    }
  }

  // ----- sweeps -----

  lemma {:induction false} AskHelpersCarries(env: Env, s: State, p: Ping, helpers: seq<nat>)
    ensures Carries(env, s, AskHelpers(s, p, helpers))
  {
    hide Carries;
    if helpers == [] {
      CarriesSame(env, s);
    } else {
      var n := |helpers| - 1;
      AskHelpersCarries(env, s, p, helpers[..n]);
      var s1 := AskHelpers(s, p, helpers[..n]);
      var m := Message(PingReqMessage, s.self, [Slot(s, p.slot).entry]);
      SendCarries(env, s1, Slot(s, helpers[n]).entry.addr, m);
      CarriesTrans(env, s, s1, Send(s1, Slot(s, helpers[n]).entry.addr, m));
    }
  }

  lemma PingsReplacedCarries(env: Env, s: State, ps: seq<Ping>, draws: nat)
    requires RoomToPing(s) ==> PingsCovered(ps, s.mc, |s.confirmed|)
    ensures Carries(env, s, s.(pings := ps, draws := draws))
  {
    hide PingsCovered;
    SameSlots(env, s, s.(pings := ps, draws := draws));
  }

  lemma PingTurnCarries(env: Env, s: State, now: nat, i: nat)
    requires i < |s.pings|
    ensures Carries(env, s, PingTurn(env, s, now, i))
  {
    hide MarkSuspect, AskHelpers, PingsCovered, Carries;
    var p := s.pings[i];
    if p.suspectDeadline < now {
      MarkSuspectCarries(env, s, p.slot);
      SameTables(env, s, p.slot);
      var s1 := MarkSuspect(env, s, p.slot);
      if RoomToPing(s1) { ReplacedCovered(s1.pings, i, s1.mc, |s1.confirmed|); }
      var ps := s.pings[i := s.pings[|s.pings| - 1]][..|s.pings| - 1];
      PingsReplacedCarries(env, s1, ps, s1.draws);
      CarriesTrans(env, s, s1, s1.(pings := ps));
    } else if p.pingReqDeadline < now && !p.pingReq {
      var helpers := env.pick(s.draws, s.mc);
      AskHelpersCarries(env, s, p, helpers);
      var s1 := AskHelpers(s, p, helpers);
      var ps := if helpers == [] then s.pings else s.pings[i := p.(pingReq := true)];
      if RoomToPing(s1) { SameSlotsCovered(s1.pings, ps, s1.mc, |s1.confirmed|); }
      PingsReplacedCarries(env, s1, ps, s.draws + 1);
      CarriesTrans(env, s, s1, s1.(pings := ps, draws := s.draws + 1));
    } else {
      CarriesSame(env, s);
    }
  }

  lemma {:induction false} PingsFromCarries(env: Env, s: State, now: nat, i: nat)
    ensures Carries(env, s, PingsFrom(env, s, now, i))
    decreases |s.pings| - i
  {
    hide PingTurn, Carries;
    if i < |s.pings| {
      var t := PingTurn(env, s, now, i);
      PingTurnCarries(env, s, now, i);
      PingsFromCarries(env, t, now, if s.pings[i].suspectDeadline < now then i else i + 1);
      CarriesTrans(env, s, t, PingsFrom(env, s, now, i));
    } else {
      CarriesSame(env, s);
    }
  }

  lemma SuspectTurnCarries(env: Env, s: State, k: Knowledge, i: nat)
    requires Inv(s, k) && i < s.mc
    ensures Carries(env, s, SuspectTurn(env, s, i))
  {
    hide Core, Confirm, Carries, Ring;
    var s1 := s.(ticks := s.ticks + 1);
    CarriesSame(env, s);
    PingReqsOnly(env, s, s.pingReqs, s.ticks + 1);
    Parts(s, k);
    PingTablesKeep(s, k, s.pings, s.pingReqs, s.draws, s.ticks + 1);
    ConfirmCarries(env, s1, k, i);
    CarriesTrans(env, s, s1, Confirm(env, s1, i));
  }

  lemma {:induction false} SuspectsFromCarries(env: Env, s: State, k: Knowledge, i: nat)
    requires Inv(s, k)
    ensures Carries(env, s, SuspectsFrom(env, s, i))
    decreases s.mc - i
  {
    hide Inv, SuspectTurn, Carries;
    if i < s.mc {
      SuspectTurnKeeps(env, s, k, i);
      SuspectTurnCarries(env, s, k, i);
      var t := SuspectTurn(env, s, i);
      SuspectsFromCarries(env, t, k, i + 1);
      CarriesTrans(env, s, t, SuspectsFrom(env, t, i + 1));
    } else {
      CarriesSame(env, s);
    }
  }

  // ----- whole steps -----

  lemma ListenCarries(env: Env, s: State, k: Knowledge, m: Option<Message>)
    requires Inv(s, k) && BookOk(k) && RoomFor(env, k) && |s.members| == env.cfg.maxMembers
    requires m.Some? ==> Acceptable(s, k, m.value)
    ensures Carries(env, s, Listen(env, s, m))
  {
    hide Inv, PingReqsFrom, PingsFrom, SuspectsFrom, Handle, Carries;
    var s1 := PingReqsFrom(env, s, 0);
    PingReqsKeep(env, s, k);
    PingReqsOnly(env, s, s1.pingReqs, s1.ticks);
    var s2 := s1.(ticks := s1.ticks + 1);
    PingReqsOnly(env, s1, s1.pingReqs, s1.ticks + 1);
    CarriesTrans(env, s, s1, s2);
    var s3 := PingsCheck(env, s1);
    PingsCheckKeeps(env, s1, k);
    PingsFromCarries(env, s2, Now(env, s1), 0);
    CarriesTrans(env, s, s2, s3);
    var s4 := SuspectsFrom(env, s3, 0);
    SuspectsFromKeeps(env, s3, k, 0);
    SuspectsFromCarries(env, s3, k, 0);
    CarriesTrans(env, s, s3, s4);
    if m.Some? {
      HandleCarries(env, s4, k, m.value);
      CarriesTrans(env, s, s4, Handle(env, s4, m.value));
    }
  }

  lemma PingAddCarries(env: Env, s: State, k: Knowledge, slot: nat)
    requires Core(s, k) && slot < s.mc
    ensures Carries(env, s, PingAdd(env, s, slot))
  {
    hide Core, PingAdd, PingsCovered;
    if RoomToPing(s) { PingAddCovered(env, s, k, slot); }
    SameSlots(env, s, PingAdd(env, s, slot));
  }

  lemma ProbeCarries(env: Env, s: State, k: Knowledge, slot: nat)
    requires Inv(s, k) && slot < s.mc
    ensures Carries(env, s, Probe(env, s, slot))
  {
    hide Core, Gossip, PingAdd, Carries, Ring;
    GossipKeeps(env.cfg, s, k, PingMessage);
    var (s1, ping) := Gossip(env.cfg, s, PingMessage);
    var to := Slot(s1, slot).entry.addr;
    assert ping.(sender := ping.sender) == ping;
    GossipSentCarries(env, s, k, PingMessage, to, ping.sender);
    SendKeeps(s1, k, to, ping);
    var s2 := Send(s1, to, ping);
    PingAddCarries(env, s2, k, slot);
    CarriesTrans(env, s, s2, PingAdd(env, s2, slot));
  }

  lemma RetrieveCarries(env: Env, s: State)
    ensures Carries(env, s, Retrieve(env, s).0)
  {
    hide Retrieve, PingsCovered;
    SameSlots(env, s, Retrieve(env, s).0);
  }

  lemma {:induction false} DetectCarries(env: Env, s: State, k: Knowledge, n: nat)
    requires Inv(s, k)
    ensures Carries(env, s, Detect(env, s, n))
  {
    hide Inv, Retrieve, Probe, Carries;
    if n == 0 {
      CarriesSame(env, s);
    } else {
      var s0 := Detect(env, s, n - 1);
      DetectKeeps(env, s, k, n - 1);
      DetectCarries(env, s, k, n - 1);
      RetrieveKeeps(env, s0, k);
      RetrieveCarries(env, s0);
      var (s1, to) := Retrieve(env, s0);
      CarriesTrans(env, s, s0, s1);
      if to.Some? {
        ProbeCarries(env, s1, k, to.value);
        CarriesTrans(env, s, s1, Probe(env, s1, to.value));
      }
    }
  }

  lemma StepCarries(env: Env, s: State, k: Knowledge, e: Event)
    requires Inv(s, k) && BookOk(k) && RoomFor(env, k) && |s.members| == env.cfg.maxMembers
    requires Admissible(s, k, e)
    ensures Carries(env, s, Step(env, s, e))
  {
    hide Inv, Listen, Detect, Carries;
    match e
    case Listening(m) => ListenCarries(env, s, k, m);
    case Detecting => DetectCarries(env, s, k, env.cfg.fanout);
  }

  // ----- whole runs -----

  lemma {:induction false} RunCarries(env: Env, s: State, k: Knowledge, es: seq<Event>)
    requires Inv(s, k) && BookOk(k) && RoomFor(env, k) && |s.members| == env.cfg.maxMembers
    requires AdmissibleRun(env, s, k, es)
    ensures Carries(env, s, Run(env, s, es))
  {
    hide Inv, Step, Carries, AdmissibleRun;
    if es == [] {
      CarriesSame(env, s);
    } else {
      var n := |es| - 1;
      PrefixAdmissible(env, s, k, es, n);
      RunCarries(env, s, k, es[..n]);
      RunKeeps(env, s, k, es[..n]);
      LastAdmissible(env, s, k, es);
      var s1 := Run(env, s, es[..n]);
      StepCarries(env, s1, k, es[n]);
      CarriesTrans(env, s, s1, Step(env, s1, es[n]));
    }
  }

  /** The ping table never overflows: in no reachable state is there a slot for whose ping no entry is free. */
  lemma PingsNeverOverflow(env: Env, k: Knowledge, uuid: Uuid, addr: Addr, seed: Addr, es: seq<Event>, slot: nat)
    requires GoodStart(env, k, uuid, addr, seed)
    requires AdmissibleRun(env, Boot(env, uuid, addr, seed), k, es)
    ensures var s := Run(env, Boot(env, uuid, addr, seed), es);
      && RoomToPing(s) && |s.pings| <= s.mc + |s.confirmed| <= |k.book| <= env.cfg.maxMembers
      && (slot < s.mc ==> |DropPing(s, s.members[slot].entry.uuid).pings| < |k.book|)
  {
    hide Core, Boot, Run, StatusOk, Ring, AdmissibleRun, DropPing;
    var s0 := Boot(env, uuid, addr, seed);
    BootKeeps(env, k, uuid, addr, seed);
    BootShape(env, uuid, addr, seed);
    RunCarries(env, s0, k, es);
    RunKeeps(env, s0, k, es);
    var s := Run(env, s0, es);
    Capacity(s, k);
    ProbedFits(s.pings, s.mc);
    if slot < s.mc { RoomForPing(s, k, slot); }
  }
}
