/** Every atomic step of a node keeps the invariant, and no add is ever refused. */
module Preservation {
  import opened Types
  import opened Seqs
  import opened Tables
  import opened Protocol
  import opened Invariant
  import opened Sorting

  // ----- capacity -----

  function Addresses(ms: seq<Member>): (r: seq<Addr>)
    ensures |r| == |ms|
    ensures forall i :: 0 <= i < |r| ==> r[i] == ms[i].entry.addr
  {
    if ms == [] then [] else Addresses(ms[..|ms| - 1]) + [ms[|ms| - 1].entry.addr]
  }

  lemma {:induction false} ValuesFit(m: map<Uuid, Addr>)
    ensures |m.Values| <= |m|
    decreases |m|
  {
    if m.Keys != {} {
      var u :| u in m;
      var rest := m - {u};
      ValuesFit(rest);
      assert m.Keys == rest.Keys + {u};
      assert m.Values == rest.Values + {m[u]} by {
        forall a | a in m.Values ensures a in rest.Values + {m[u]} {
          var v :| v in m && m[v] == a;
          if v != u { assert rest[v] == a; }
        }
      }
    } else {
      assert m.Values == {};
    }
  }

  /** All members, live and confirmed, have different addresses. */
  lemma AddressesDiffer(s: State, k: Knowledge)
    requires Core(s, k) && BookOk(k)
    ensures Distinct(Addresses(Lives(s) + s.confirmed))
    ensures forall i :: 0 <= i < s.mc + |s.confirmed| ==> Addresses(Lives(s) + s.confirmed)[i] in k.book.Values
  {
    hide Followed, SelfListed, PingsOk, OutboxOk;
    var all := Lives(s) + s.confirmed;
    forall i | 0 <= i < |all| && all[i].entry.uuid == BLANK
      ensures i < s.mc && SeedAt(s.self.uuid, k, s.members, s.mc, s.confirmed, i)
    {
    }
    forall i, j | 0 <= i < j < |all| ensures all[i].entry.uuid != all[j].entry.uuid {
    }
  }

  /** Live and confirmed members together never outnumber the book. */
  lemma Capacity(s: State, k: Knowledge)
    requires Core(s, k) && BookOk(k)
    ensures s.mc + |s.confirmed| == |s.updates| <= |k.book|
  {
    AddressesDiffer(s, k);
    Pigeonhole(Addresses(Lives(s) + s.confirmed), k.book.Values);
    ValuesFit(k.book);
  }

  /** An entry that is new to the node: neither found nor confirmed, and not the blank seed. */
  ghost predicate Newcomer(s: State, k: Knowledge, e: Entry) {
    && Named(s, k, e)
    && (forall i :: 0 <= i < s.mc ==>
          s.members[i].entry.uuid != e.uuid && (s.members[i].entry.uuid == BLANK ==> s.members[i].entry.addr != e.addr))
    && (forall j :: 0 <= j < |s.confirmed| ==> s.confirmed[j].entry.uuid != e.uuid)
  }

  /** There is always room for a newcomer from the book. */
  lemma RoomForNewcomer(s: State, k: Knowledge, e: Entry)
    requires Core(s, k) && BookOk(k) && Newcomer(s, k, e)
    ensures s.mc + |s.confirmed| == |s.updates| < |k.book|
  {
    AddressesDiffer(s, k);
    var all := Lives(s) + s.confirmed;
    forall i | 0 <= i < |all| ensures Addresses(all)[i] != e.addr { assert all[i].entry.uuid != e.uuid; }
    Pigeonhole(Addresses(all) + [e.addr], k.book.Values);
    ValuesFit(k.book);
  }

  // ----- finding and adding -----

  lemma SelfOwnsNoSeed(s: State, k: Knowledge, i: nat)
    requires Core(s, k) && i < s.mc && s.members[i].entry.uuid == BLANK
    ensures s.members[i].entry.addr != k.book[s.self.uuid]
  {
    assert SeedAt(s.self.uuid, k, s.members, s.mc, s.confirmed, i);
    if !(s.mc > 0 && IsSelf(s, 0)) {
      var j :| 0 <= j < |s.confirmed| && s.confirmed[j].entry.uuid == s.self.uuid;
      assert s.confirmed[j].entry.addr == k.book[s.self.uuid];
    }
  }

  lemma FilledUnique(s: State, k: Knowledge, i: nat, e: Entry, m: Member)
    requires Core(s, k) && BookOk(k) && Named(s, k, e)
    requires i < s.mc && s.members[i].entry.uuid == BLANK && s.members[i].entry.addr == e.addr
    requires m.entry.uuid == e.uuid
    ensures UniqueUuids(s.members[i := m], s.mc, s.confirmed)
  {
    assert SeedAt(s.self.uuid, k, s.members, s.mc, s.confirmed, i);
    forall j | 0 <= j < s.mc && j != i ensures s.members[j].entry.uuid != e.uuid {
      assert s.members[j].entry.addr != e.addr;
    }
    forall j | 0 <= j < |s.confirmed| ensures s.confirmed[j].entry.uuid != e.uuid {
      assert s.confirmed[j].entry.addr != e.addr;
    }
  }

  /** The seed learns its name: the blank slot takes over the uuid that owns its address. */
  lemma FillKeeps(s: State, k: Knowledge, i: nat, e: Entry)
    requires Inv(s, k) && BookOk(k) && Named(s, k, e)
    requires i < s.mc && s.members[i].entry.uuid == BLANK && s.members[i].entry.addr == e.addr
    ensures Inv(SetSlot(s, i, s.members[i].(entry := s.members[i].entry.(uuid := e.uuid))), k)
  {
    var m := s.members[i].(entry := s.members[i].entry.(uuid := e.uuid));
    var me, ms := s.self.uuid, s.members[i := m];
    SelfOwnsNoSeed(s, k, i);
    FilledUnique(s, k, i, e, m);
    assert SeedAt(me, k, s.members, s.mc, s.confirmed, i);
    assert SlotsOk(me, s.incs, k, ms, s.confirmed);
    assert forall j :: 0 <= j < s.mc ==> ms[j].entry.uuid != BLANK;
    assert SelfListed(me, ms, s.mc, s.confirmed);
    forall x | 0 <= x < |s.pings| ensures PingOk(me, ms, s.mc, s.pings[x]) {
      assert PingOk(me, s.members, s.mc, s.pings[x]);
    }
  }

  lemma FindKeeps(s: State, k: Knowledge, e: Entry)
    requires Inv(s, k) && BookOk(k)
    requires e.addr == NO_ADDR || e.uuid == BLANK || Named(s, k, e)
    ensures Inv(Find(s, e).0, k)
    ensures Find(s, e).1.Some? ==> Find(s, e).0.members[Find(s, e).1.value].entry.uuid == e.uuid
    ensures Find(s, e).1.None? && Named(s, k, e) && ConfirmedFind(s, e.uuid).None? ==> Newcomer(s, k, e)
    ensures Find(s, e).0 == s.(members := Find(s, e).0.members)
    ensures Find(s, e).1.None? ==> Find(s, e).0 == s
  {
    var i := First(Lives(s), Fits(e));
    if i.Some? {
      var m := s.members[i.value];
      if m.entry.uuid == e.uuid {
        assert m == m.(entry := m.entry.(uuid := e.uuid));
        assert SetSlot(s, i.value, m) == s;
      } else {
        assert SeedAt(s.self.uuid, k, s.members, s.mc, s.confirmed, i.value);
        assert e.addr in k.book.Values;
        FillKeeps(s, k, i.value, e);
      }
    } else if ConfirmedFind(s, e.uuid).None? {
      forall i | 0 <= i < s.mc ensures !Fits(e)(s.members[i]) { assert !Fits(e)(Lives(s)[i]); }
      forall j | 0 <= j < |s.confirmed| ensures s.confirmed[j].entry.uuid != e.uuid {
        assert !HasUuid(e.uuid)(s.confirmed[j]);
      }
    }
  }

  lemma JoinedSelf(s: State, k: Knowledge, m: Member)
    requires Core(s, k) && s.mc < |s.members| && Newcomer(s, k, m.entry)
    ensures SelfListed(s.self.uuid, s.members[s.mc := m], s.mc + 1, s.confirmed)
    ensures PingsOk(s.self.uuid, s.members[s.mc := m], s.mc + 1, s.pings)
  {
    var me, ms := s.self.uuid, s.members[s.mc := m];
    assert m.entry.uuid != me;
    forall x | 0 <= x < |s.pings| ensures PingOk(me, ms, s.mc + 1, s.pings[x]) {
      assert PingOk(me, s.members, s.mc, s.pings[x]);
    }
  }

  lemma JoinedSeed(s: State, k: Knowledge, m: Member)
    requires Core(s, k) && s.mc < |s.members| && Newcomer(s, k, m.entry)
    ensures SeedOk(s.self.uuid, k, s.members[s.mc := m], s.mc + 1, s.confirmed)
  {
    var me, ms := s.self.uuid, s.members[s.mc := m];
    forall i | 0 <= i < s.mc + 1 && ms[i].entry.uuid == BLANK ensures SeedAt(me, k, ms, s.mc + 1, s.confirmed, i) {
      assert i < s.mc;
      assert SeedAt(me, k, s.members, s.mc, s.confirmed, i);
    }
  }

  lemma AddLiveKeeps(env: Env, s: State, k: Knowledge, e: Entry)
    requires Inv(s, k) && BookOk(k) && RoomFor(env, k) && |s.members| == env.cfg.maxMembers
    requires Newcomer(s, k, e) && e.status != Confirmed
    ensures Inv(AddLive(env, s, e), k)
    ensures AddLive(env, s, e).mc == s.mc + 1
  {
    hide SeedOk, SelfListed, PingsOk, OutboxOk, Ring;
    RoomForNewcomer(s, k, e);
    IndexAddKeepsRing(env, MemberAdd(env, s, e));
    var m := Member(e, Deadline(env, s));
    JoinedSelf(s, k, m);
    JoinedSeed(s, k, m);
    assert UniqueUuids(s.members[s.mc := m], s.mc + 1, s.confirmed);
    assert Followed(s.updates + [Update(Live(s.mc), 0)], s.mc + 1, |s.confirmed|);
    assert SlotsOk(s.self.uuid, s.incs, k, s.members[s.mc := m], s.confirmed);
  }

  lemma BuriedSeed(s: State, k: Knowledge, m: Member)
    requires Core(s, k) && Newcomer(s, k, m.entry)
    ensures SeedOk(s.self.uuid, k, s.members, s.mc, s.confirmed + [m])
    ensures SelfListed(s.self.uuid, s.members, s.mc, s.confirmed + [m])
  {
    var me, cs := s.self.uuid, s.confirmed + [m];
    forall i | 0 <= i < s.mc && s.members[i].entry.uuid == BLANK ensures SeedAt(me, k, s.members, s.mc, cs, i) {
      assert SeedAt(me, k, s.members, s.mc, s.confirmed, i);
    }
    if !(s.mc > 0 && s.members[0].entry.uuid == me) {
      var j :| 0 <= j < |s.confirmed| && s.confirmed[j].entry.uuid == me;
      assert cs[j].entry.uuid == me;
    }
  }

  lemma AddConfirmedKeeps(env: Env, s: State, k: Knowledge, e: Entry)
    requires Inv(s, k) && BookOk(k) && RoomFor(env, k)
    requires Newcomer(s, k, e) && e.status == Confirmed
    ensures Inv(AddConfirmed(env, s, e), k)
    ensures |AddConfirmed(env, s, e).confirmed| == |s.confirmed| + 1
  {
    hide SeedOk, SelfListed, PingsOk, OutboxOk;
    RoomForNewcomer(s, k, e);
    var m := Member(e, 0);
    BuriedSeed(s, k, m);
    assert UniqueUuids(s.members, s.mc, s.confirmed + [m]);
    assert Followed(s.updates + [Update(Conf(|s.confirmed|), 0)], s.mc, |s.confirmed| + 1);
  }

  // ----- confirming -----

  lemma ShiftedUnique(members: seq<Member>, mc: nat, confirmed: seq<Member>, i: nat)
    requires UniqueUuids(members, mc, confirmed) && i < mc
    ensures UniqueUuids(ShiftDown(members, i, mc), mc - 1, confirmed + [members[i]])
  {
  }

  lemma ShiftedFollowed(us: seq<Update>, mc: nat, cc: nat, i: nat)
    requires Followed(us, mc, cc) && i < mc
    ensures Followed(RebaseAll(us, i, cc), mc - 1, cc + 1)
  {
  }

  lemma ShiftedSeed(s: State, k: Knowledge, i: nat)
    requires Core(s, k) && i < s.mc && s.members[i].entry.uuid != BLANK
    ensures SeedOk(s.self.uuid, k, ShiftDown(s.members, i, s.mc), s.mc - 1, s.confirmed + [s.members[i]])
  {
    var me, ms, cs := s.self.uuid, ShiftDown(s.members, i, s.mc), s.confirmed + [s.members[i]];
    forall j | 0 <= j < s.mc - 1 && ms[j].entry.uuid == BLANK ensures SeedAt(me, k, ms, s.mc - 1, cs, j) {
      var j0 := if j < i then j else j + 1;
      assert SeedAt(me, k, s.members, s.mc, s.confirmed, j0);
      assert j == 1 ==> i > 1;
    }
  }

  lemma ShiftedSelf(s: State, k: Knowledge, i: nat)
    requires Core(s, k) && i < s.mc
    ensures SelfListed(s.self.uuid, ShiftDown(s.members, i, s.mc), s.mc - 1, s.confirmed + [s.members[i]])
  {
    var me, ms, cs := s.self.uuid, ShiftDown(s.members, i, s.mc), s.confirmed + [s.members[i]];
    if s.members[0].entry.uuid == me {
      if i == 0 { assert cs[|s.confirmed|].entry.uuid == me; }
    } else {
      var j :| 0 <= j < |s.confirmed| && s.confirmed[j].entry.uuid == me;
      assert cs[j].entry.uuid == me;
    }
  }

  lemma ShiftedPings(s: State, k: Knowledge, i: nat)
    requires Core(s, k) && i < s.mc && s.members[i].entry.uuid != BLANK
    ensures PingsOk(s.self.uuid, ShiftDown(s.members, i, s.mc), s.mc - 1, s.pings)
  {
    var me, ms := s.self.uuid, ShiftDown(s.members, i, s.mc);
    forall j | 0 < j < s.mc && s.members[j].entry.uuid == BLANK ensures j == 1 && s.members[0].entry.uuid == me {
      assert SeedAt(me, k, s.members, s.mc, s.confirmed, j);
    }
    forall x | 0 <= x < |s.pings| ensures PingOk(me, ms, s.mc - 1, s.pings[x]) {
      assert PingOk(me, s.members, s.mc, s.pings[x]);
    }
  }

  lemma ShiftedSlots(s: State, k: Knowledge, i: nat)
    requires SlotsOk(s.self.uuid, s.incs, k, s.members, s.confirmed)
    requires i < s.mc <= |s.members| && s.members[i].entry.uuid != BLANK
    ensures SlotsOk(s.self.uuid, s.incs, k, ShiftDown(s.members, i, s.mc), s.confirmed + [s.members[i]])
  {
    hide KnownTo;
  }

  /** The shift: everything but the ring and the statuses is consistent again at once. */
  lemma MoveKeeps(s: State, k: Knowledge, i: nat)
    requires Core(s, k) && i < s.mc && s.members[i].entry.uuid != BLANK
    ensures Core(Move(s, i), k)
  {
    hide UniqueUuids, Followed, SlotsOk, SeedOk, SelfListed, PingsOk, OutboxOk, DropPing, RebaseAll, ShiftDown;
    DropPingKeeps(s, k, s.members[i].entry.uuid);
    var s1 := DropPing(s, s.members[i].entry.uuid);
    ShiftedUnique(s.members, s.mc, s.confirmed, i);
    ShiftedFollowed(s.updates, s.mc, |s.confirmed|, i);
    ShiftedSeed(s, k, i);
    ShiftedSelf(s, k, i);
    ShiftedPings(s1, k, i);
    ShiftedSlots(s, k, i);
  }

  /** The first phase, from a slot whose status may already read CONFIRMED. */
  lemma FirstPhaseKeeps(s: State, k: Knowledge, i: nat)
    requires Core(s, k) && i < s.mc && s.members[i].entry.uuid != BLANK
    ensures Core(Move(DropPing(SetStatus(s, i, Confirmed), s.members[i].entry.uuid), i), k)
  {
    hide Core;
    var m := s.members[i];
    Parts(s, k);
    RetouchKeeps(s, k, i, m.(entry := m.entry.(status := Confirmed)));
    DropPingKeeps(SetStatus(s, i, Confirmed), k, m.entry.uuid);
    MoveKeeps(DropPing(SetStatus(s, i, Confirmed), m.entry.uuid), k, i);
  }

  lemma FirstPhaseStatus(s: State, i: nat)
    requires i < s.mc && StatusOkBut(s.members, s.mc, s.confirmed, i)
    ensures var s2 := Move(DropPing(SetStatus(s, i, Confirmed), s.members[i].entry.uuid), i);
      StatusOk(s2) && s2.mc == s.mc - 1 && s2.indices == s.indices && s2.rr == s.rr
  {
  }

  /** The second phase: the announcement runs on the old ring, then the ring shrinks. */
  lemma SecondPhaseKeeps(env: Env, s: State, k: Knowledge, e: Entry)
    requires Core(s, k) && StatusOk(s) && Ring(s.indices, s.rr, s.mc + 1) && Known(s, k, e)
    ensures Inv(IndexRemove(Announce(env, s, ConfirmMessage, e)), k)
  {
    AnnounceKeeps(env, s, k, ConfirmMessage, e, s.mc + 1);
    IndexRemoveRestoresPerm(Announce(env, s, ConfirmMessage, e));
  }

  /** Both phases of a confirmation. */
  lemma ConfirmKeeps(env: Env, s: State, k: Knowledge, i: nat)
    requires Core(s, k) && i < s.mc && StatusOkBut(s.members, s.mc, s.confirmed, i) && Ring(s.indices, s.rr, s.mc)
    requires s.members[i].entry.uuid != BLANK
    ensures Inv(Confirm(env, s, i), k)
    ensures Confirm(env, s, i).mc == s.mc - 1
  {
    hide Core, StatusOkBut;
    var s2 := Move(DropPing(SetStatus(s, i, Confirmed), s.members[i].entry.uuid), i);
    FirstPhaseKeeps(s, k, i);
    FirstPhaseStatus(s, i);
    Parts(s2, k);
    SecondPhaseKeeps(env, s2, k, Slot(s2, i).entry);
  }

  // ----- taking in an entry -----

  /** One more incarnation of our own leaves every known entry known. */
  lemma IssueKeeps(s: State, k: Knowledge, n: nat)
    requires Inv(s, k)
    ensures Inv(s.(self := s.self.(status := Alive, incarnation := n), incs := s.incs + {n}), k)
  {
    var incs := s.incs + {n};
    assert SlotsOk(s.self.uuid, incs, k, s.members, s.confirmed);
    forall x | 0 <= x < |s.outbox| ensures MessageTo(s.self.uuid, incs, k, s.outbox[x].message) {
      assert MessageTo(s.self.uuid, s.incs, k, s.outbox[x].message);
    }
  }

  lemma RefuteKeeps(env: Env, s: State, k: Knowledge, i: nat, incarnation: nat)
    requires Inv(s, k) && i < s.mc && IsSelf(s, i)
    ensures Inv(Refute(env, s, i, incarnation), k)
  {
    hide Core;
    var n := Succ(incarnation);
    var s0 := s.(self := s.self.(status := Alive, incarnation := n), incs := s.incs + {n});
    IssueKeeps(s, k, n);
    Parts(s0, k);
    var e := s.members[i].entry.(status := Alive, incarnation := n);
    RetouchKeeps(s0, k, i, s.members[i].(entry := e));
    var s1 := SetSlot(s0, i, s.members[i].(entry := e));
    Parts(s1, k);
    StatusNoticeKeeps(env, s1, k, AliveMessage, s1.members[i].entry);
  }

  lemma HeardOfDeath(env: Env, s: State, k: Knowledge, i: nat, incarnation: nat)
    requires Inv(s, k) && i < s.mc && s.members[i].entry.uuid != BLANK
    requires Fact(s, k, s.members[i].entry.uuid, incarnation)
    ensures var x := s.members[i].entry;
      var s1 := SetSlot(s, i, s.members[i].(entry := x.(status := Confirmed, incarnation := incarnation)));
      Inv(Confirm(env, DropPing(s1, x.uuid), i), k)
  {
    hide Core;
    var x := s.members[i].entry;
    var m := s.members[i].(entry := x.(status := Confirmed, incarnation := incarnation));
    RetouchKeeps(s, k, i, m);
    DropPingKeeps(SetSlot(s, i, m), k, x.uuid);
    ConfirmKeeps(env, DropPing(SetSlot(s, i, m), x.uuid), k, i);
  }

  lemma MemberUpdateKeeps(env: Env, s: State, k: Knowledge, i: nat, e: Entry)
    requires Inv(s, k) && Named(s, k, e) && i < s.mc && s.members[i].entry.uuid == e.uuid
    ensures Inv(MemberUpdate(env, s, i, e), k)
    ensures e.status != Confirmed ==> MemberUpdate(env, s, i, e).mc == s.mc
  {
    hide Core, Confirm;
    if e.uuid == s.self.uuid && e.status == Suspect {
      RefuteKeeps(env, s, k, i, e.incarnation);
    } else if Overrides(e.status, e.incarnation, s.members[i].entry) {
      if e.status == Confirmed {
        HeardOfDeath(env, s, k, i, e.incarnation);
      } else {
        RestampKeeps(env, s, k, i, e.status, e.incarnation);
        DropPingKeeps(Restamp(env, s, i, e.status, e.incarnation), k, e.uuid);
      }
    }
  }

  function Pointers(us: seq<Update>): (r: seq<Ref>)
    ensures |r| == |us|
    ensures forall i :: 0 <= i < |r| ==> r[i] == us[i].ref
  {
    if us == [] then [] else Pointers(us[..|us| - 1]) + [us[|us| - 1].ref]
  }

  function LiveRefs(n: nat): (r: set<Ref>)
    ensures |r| == n
    ensures forall x :: x in r <==> x.Live? && x.slot < n
  {
    if n == 0 then {} else LiveRefs(n - 1) + {Live(n - 1)}
  }

  function ConfRefs(n: nat): (r: set<Ref>)
    ensures |r| == n
    ensures forall x :: x in r <==> x.Conf? && x.slot < n
  {
    if n == 0 then {} else ConfRefs(n - 1) + {Conf(n - 1)}
  }

  /** The other half of the bijection: every member is followed by exactly one update. */
  lemma Follower(us: seq<Update>, mc: nat, cc: nat, r: Ref) returns (x: nat)
    requires Followed(us, mc, cc) && RefOk(r, mc, cc)
    ensures x < |us| && us[x].ref == r
  {
    assert LiveRefs(mc) !! ConfRefs(cc);
    Pigeonhole(Pointers(us), LiveRefs(mc) + ConfRefs(cc));
    assert r in LiveRefs(mc) + ConfRefs(cc);
    assert r in Pointers(us);
    x :| 0 <= x < |us| && Pointers(us)[x] == r;
  }

  /** Looking an update up by uuid finds the one that points at the member carrying it. */
  lemma FollowerFound(s: State, k: Knowledge, r: Ref)
    requires Core(s, k) && RefOk(r, s.mc, |s.confirmed|)
    ensures UpdateFind(s, Deref(s, r).entry.uuid).Some?
    ensures s.updates[UpdateFind(s, Deref(s, r).entry.uuid).value].ref == r
  {
    var u := Deref(s, r).entry.uuid;
    var x := Follower(s.updates, s.mc, |s.confirmed|, r);
    assert Follows(s, u)(s.updates[x]);
    var y := UpdateFind(s, u).value;
    assert Follows(s, u)(s.updates[y]);
    assert RefOk(s.updates[y].ref, s.mc, |s.confirmed|);
  }

  lemma CheckKeeps(env: Env, s: State, k: Knowledge, e: Entry)
    requires Inv(s, k) && BookOk(k) && RoomFor(env, k) && |s.members| == env.cfg.maxMembers
    requires Named(s, k, e)
    ensures Inv(Check(env, s, e), k)
  {
    hide Core, MemberUpdate, AddLive, AddConfirmed;
    FindKeeps(s, k, e);
    var (s1, i) := Find(s, e);
    if i.None? {
      if ConfirmedFind(s1, e.uuid).None? {
        if e.status == Confirmed { AddConfirmedKeeps(env, s1, k, e); } else { AddLiveKeeps(env, s1, k, e); }
      }
    } else {
      MemberUpdateKeeps(env, s1, k, i.value, e);
      if e.status != Confirmed { FollowerFound(MemberUpdate(env, s1, i.value, e), k, Live(i.value)); }
    }
  }

  lemma {:induction false} CheckAllKeeps(env: Env, s: State, k: Knowledge, es: seq<Entry>)
    requires Inv(s, k) && BookOk(k) && RoomFor(env, k) && |s.members| == env.cfg.maxMembers
    requires forall i :: 0 <= i < |es| ==> Named(s, k, es[i])
    ensures Inv(CheckAll(env, s, es), k)
  {
    hide Core, Check;
    if es == [] {
    } else {
      CheckAllKeeps(env, s, k, es[..|es| - 1]);
      CheckKeeps(env, CheckAll(env, s, es[..|es| - 1]), k, es[|es| - 1]);
    }
  }

  lemma ExtractKeeps(env: Env, s: State, k: Knowledge, m: Message)
    requires Inv(s, k) && BookOk(k) && RoomFor(env, k) && |s.members| == env.cfg.maxMembers
    requires MessageOk(s, k, m) && Handled(m.kind)
    ensures Inv(Extract(env, s, m), k)
    ensures MessageOk(Extract(env, s, m), k, m)
  {
    hide Core, CheckAll;
    CheckAllKeeps(env, s, k, [m.sender] + m.updates);
  }

  // ----- gossip -----

  lemma ReorderedFollowed(s: State, us: seq<Update>, n: nat)
    requires Followed(s.updates, s.mc, |s.confirmed|) && multiset(us) == multiset(s.updates) && |us| == |s.updates|
    ensures Followed(Used(s, us, n), s.mc, |s.confirmed|)
  {
    DistinctTargets(s.updates, us);
    forall x | 0 <= x < |us| ensures RefOk(us[x].ref, s.mc, |s.confirmed|) {
      assert us[x] in multiset(s.updates);
    }
  }

  lemma ChosenNamed(s: State, k: Knowledge, us: seq<Update>, n: nat)
    requires Followed(s.updates, s.mc, |s.confirmed|)
    requires SlotsOk(s.self.uuid, s.incs, k, s.members, s.confirmed)
    requires multiset(us) == multiset(s.updates) && n <= |us|
    ensures forall x :: 0 <= x < |Choose(s, us[..n])| ==> Named(s, k, Deref(s, Choose(s, us[..n])[x]).entry)
  {
    var rs := Choose(s, us[..n]);
    forall x | 0 <= x < |rs| ensures Named(s, k, Deref(s, rs[x]).entry) {
      var i :| 0 <= i < n && rs[x] == us[..n][i].ref;
      assert us[i] in multiset(s.updates);
      assert RefOk(us[i].ref, s.mc, |s.confirmed|);
    }
  }

  /** A gossip message names only known, non-blank members; sorting and counting keep the bijection. */
  lemma GossipKeeps(cfg: Config, s: State, k: Knowledge, kind: Kind)
    requires Core(s, k)
    ensures Core(Gossip(cfg, s, kind).0, k)
    ensures MessageOk(s, k, Gossip(cfg, s, kind).1)
  {
    hide SortByCount, Used, Choose;
    var us := SortByCount(s.updates);
    SortCorrect(s.updates);
    var n := if cfg.perMessage < |us| then cfg.perMessage else |us|;
    ReorderedFollowed(s, us, n);
    ChosenNamed(s, k, us, n);
    var (s1, rs) := UpdatesRetrieve(cfg, s);
    assert forall x :: 0 <= x < |rs| ==> Deref(s1, rs[x]) == Deref(s, rs[x]);
  }

  // ----- handlers -----

  lemma PingHandleKeeps(env: Env, s: State, k: Knowledge, m: Message)
    requires Inv(s, k) && BookOk(k) && Named(s, k, m.sender)
    ensures Inv(PingHandle(env, s, m), k)
  {
    hide Core, MarkAlive, Gossip;
    var (s1, ack) := Gossip(env.cfg, s, AckMessage);
    GossipKeeps(env.cfg, s, k, AckMessage);
    SendKeeps(s1, k, m.sender.addr, ack);
    var sent := Send(s1, m.sender.addr, ack);
    DropPingKeeps(sent, k, m.sender.uuid);
    var s2 := DropPing(sent, m.sender.uuid);
    var e := ZERO_ENTRY.(uuid := m.sender.uuid);
    FindKeeps(s2, k, e);
    var (s3, i) := Find(s2, e);
    if i.Some? { MarkAliveKeeps(env, s3, k, i.value); }
  }

  /** Pings and indirect pings may be dropped, reordered or re-flagged at will. */
  lemma PingTablesKeep(s: State, k: Knowledge, pings: seq<Ping>, pingReqs: seq<PingReq>, draws: nat, ticks: nat)
    requires Inv(s, k)
    requires PingsOk(s.self.uuid, s.members, s.mc, pings) && PingReqsOk(|s.members|, pingReqs)
    ensures Inv(s.(pings := pings, pingReqs := pingReqs, draws := draws, ticks := ticks), k)
  {
  }

  lemma PingReqAddKeeps(env: Env, s: State, k: Knowledge, source: nat, target: nat)
    requires Inv(s, k) && source < s.mc && target < s.mc
    ensures Inv(PingReqAdd(env, s, source, target), k)
  {
    hide Core;
    Parts(s, k);
    var t := PingReqAdd(env, s, source, target);
    PingTablesKeep(s, k, s.pings, t.pingReqs, s.draws, t.ticks);
  }

  lemma PingReqHandleKeeps(env: Env, s: State, k: Knowledge, m: Message)
    requires Inv(s, k) && BookOk(k) && MessageOk(s, k, m) && Handled(m.kind)
    ensures Inv(PingReqHandle(env, s, m), k)
  {
    hide Core, Gossip, PingReqAdd;
    var a := ZERO_ENTRY.(uuid := m.sender.uuid);
    var b := if m.updates == [] then ZERO_ENTRY else m.updates[0];
    FindKeeps(s, k, a);
    var (s1, source) := Find(s, a);
    FindKeeps(s1, k, b);
    var (s2, target) := Find(s1, b);
    if source.Some? && target.Some? {
      GossipKeeps(env.cfg, s2, k, PingMessage);
      var (s3, ping) := Gossip(env.cfg, s2, PingMessage);
      var to := Slot(s3, target.value).entry.addr;
      SendKeeps(s3, k, to, ping);
      PingReqAddKeeps(env, Send(s3, to, ping), k, source.value, target.value);
    }
  }

  lemma {:induction false} RelayKeeps(env: Env, s: State, k: Knowledge, u: Uuid, i: nat)
    requires Inv(s, k) && u != BLANK
    ensures Inv(Relay(env, s, u, i), k)
    decreases |s.pingReqs| - i
  {
    hide Core, Gossip;
    if i >= |s.pingReqs| {
    } else {
      var target := Slot(s, s.pingReqs[i].target).entry;
      if target.uuid != u { RelayKeeps(env, s, k, u, i + 1); }
      else {
        Parts(s, k);
        GossipKeeps(env.cfg, s, k, AckMessage);
        var (s1, ack) := Gossip(env.cfg, s, AckMessage);
        var to := Slot(s, s.pingReqs[i].source).entry.addr;
        SendKeeps(s1, k, to, ack.(sender := target));
        var s2 := Send(s1, to, ack.(sender := target));
        PingTablesKeep(s2, k, s2.pings, RemoveAt(s2.pingReqs, i), s2.draws, s2.ticks);
        RelayKeeps(env, s2.(pingReqs := RemoveAt(s2.pingReqs, i)), k, u, i + 1);
      }
    }
  }

  lemma AckHandleKeeps(env: Env, s: State, k: Knowledge, m: Message)
    requires Inv(s, k) && m.sender.uuid != BLANK
    ensures Inv(AckHandle(env, s, m), k)
  {
    hide Core, MarkAlive, Relay;
    var p := PingFind(s, m.sender.uuid);
    if p.Some? && Slot(s, s.pings[p.value].slot).entry.uuid != BLANK {
      Parts(s, k);
      MarkAliveKeeps(env, s, k, s.pings[p.value].slot);
      var s1 := MarkAlive(env, s, s.pings[p.value].slot);
      RelayKeeps(env, s1, k, m.sender.uuid, 0);
      var s2 := Relay(env, s1, m.sender.uuid, 0);
      Parts(s2, k);
      if p.value < |s2.pings| {
        PingTablesKeep(s2, k, RemoveAt(s2.pings, p.value), s2.pingReqs, s2.draws, s2.ticks);
      }
    }
  }

  lemma HandleKeeps(env: Env, s: State, k: Knowledge, m: Message)
    requires Inv(s, k) && BookOk(k) && RoomFor(env, k) && |s.members| == env.cfg.maxMembers
    requires Acceptable(s, k, m)
    ensures Inv(Handle(env, s, m), k)
  {
    hide Core, Extract, PingHandle, PingReqHandle, AckHandle;
    if Handled(m.kind) {
      ExtractKeeps(env, s, k, m);
      var s1 := Extract(env, s, m);
      match m.kind
      case PingMessage => PingHandleKeeps(env, s1, k, m);
      case PingReqMessage => PingReqHandleKeeps(env, s1, k, m);
      case AckMessage => AckHandleKeeps(env, s1, k, m);
      case _ =>
    }
  }

  // ----- sweeps -----

  lemma {:induction false} AskHelpersKeeps(s: State, k: Knowledge, p: Ping, helpers: seq<nat>)
    requires Inv(s, k) && PingOk(s.self.uuid, s.members, s.mc, p)
    ensures Inv(AskHelpers(s, p, helpers), k)
  {
    hide Core;
    if helpers == [] {
    } else {
      var n := |helpers| - 1;
      AskHelpersKeeps(s, k, p, helpers[..n]);
      Parts(s, k);
      SendKeeps(AskHelpers(s, p, helpers[..n]), k, Slot(s, helpers[n]).entry.addr,
                Message(PingReqMessage, s.self, [Slot(s, p.slot).entry]));
    }
  }

  lemma PingTurnKeeps(env: Env, s: State, k: Knowledge, now: nat, i: nat)
    requires Inv(s, k) && i < |s.pings|
    ensures Inv(PingTurn(env, s, now, i), k)
  {
    hide Core, MarkSuspect, AskHelpers, StatusOkBut, Ring;
    Parts(s, k);
    var p := s.pings[i];
    if p.suspectDeadline < now {
      MarkSuspectKeeps(env, s, k, p.slot);
      var s1 := MarkSuspect(env, s, p.slot);
      Parts(s1, k);
      SameTables(env, s, p.slot);
      PingTablesKeep(s1, k, s.pings[i := s.pings[|s.pings| - 1]][..|s.pings| - 1], s.pingReqs, s1.draws, s1.ticks);
    } else if p.pingReqDeadline < now && !p.pingReq {
      var helpers := env.pick(s.draws, s.mc);
      AskHelpersKeeps(s, k, p, helpers);
      var s1 := AskHelpers(s, p, helpers);
      PingTablesKeep(s1, k, if helpers == [] then s.pings else s.pings[i := p.(pingReq := true)], s.pingReqs,
                     s.draws + 1, s1.ticks);
    }
  }

  lemma SameTables(env: Env, s: State, slot: nat)
    ensures MarkSuspect(env, s, slot).pings == s.pings && MarkSuspect(env, s, slot).pingReqs == s.pingReqs
  {
  }

  lemma {:induction false} PingsFromKeeps(env: Env, s: State, k: Knowledge, now: nat, i: nat)
    requires Inv(s, k)
    ensures Inv(PingsFrom(env, s, now, i), k)
    decreases |s.pings| - i
  {
    hide Inv, PingTurn;
    if i >= |s.pings| {
    } else {
      PingTurnKeeps(env, s, k, now, i);
      PingsFromKeeps(env, PingTurn(env, s, now, i), k, now, if s.pings[i].suspectDeadline < now then i else i + 1);
    }
  }

  lemma SuspectTurnKeeps(env: Env, s: State, k: Knowledge, i: nat)
    requires Inv(s, k) && i < s.mc
    ensures Inv(SuspectTurn(env, s, i), k)
  {
    hide Core, Confirm;
    Parts(s, k);
    if s.members[i].entry.status == Suspect {
      var s1 := s.(ticks := s.ticks + 1);
      PingTablesKeep(s, k, s.pings, s.pingReqs, s.draws, s.ticks + 1);
      if s.members[i].timeout < Now(env, s) && ConfirmedFind(s, s.members[i].entry.uuid).None? {
        ConfirmKeeps(env, s1, k, i);
      }
    }
  }

  lemma {:induction false} SuspectsFromKeeps(env: Env, s: State, k: Knowledge, i: nat)
    requires Inv(s, k)
    ensures Inv(SuspectsFrom(env, s, i), k)
    decreases s.mc - i
  {
    hide Inv, SuspectTurn;
    if i >= s.mc {
    } else {
      SuspectTurnKeeps(env, s, k, i);
      SuspectsFromKeeps(env, SuspectTurn(env, s, i), k, i + 1);
    }
  }

  lemma PingReqsKeep(env: Env, s: State, k: Knowledge)
    requires Inv(s, k)
    ensures Inv(PingReqsFrom(env, s, 0), k)
  {
    hide Core, PingReqsFrom;
    Parts(s, k);
    var s1 := PingReqsFrom(env, s, 0);
    forall x | 0 <= x < |s1.pingReqs|
      ensures s1.pingReqs[x].target < |s.members| && s1.pingReqs[x].source < |s.members|
    {
      assert s1.pingReqs[x] in s.pingReqs;
    }
    PingTablesKeep(s, k, s.pings, s1.pingReqs, s.draws, s1.ticks);
  }

  lemma PingsCheckKeeps(env: Env, s: State, k: Knowledge)
    requires Inv(s, k)
    ensures Inv(PingsCheck(env, s), k)
  {
    hide Core, PingsFrom;
    Parts(s, k);
    PingTablesKeep(s, k, s.pings, s.pingReqs, s.draws, s.ticks + 1);
    PingsFromKeeps(env, s.(ticks := s.ticks + 1), k, Now(env, s), 0);
  }

  // ----- atomic steps -----

  lemma ListenKeeps(env: Env, s: State, k: Knowledge, m: Option<Message>)
    requires Inv(s, k) && BookOk(k) && RoomFor(env, k) && |s.members| == env.cfg.maxMembers
    requires m.Some? ==> Acceptable(s, k, m.value)
    ensures Inv(Listen(env, s, m), k)
  {
    hide Inv, PingReqsFrom, PingsCheck, SuspectsFrom, Handle;
    PingReqsKeep(env, s, k);
    PingsCheckKeeps(env, PingReqsFrom(env, s, 0), k);
    SuspectsFromKeeps(env, PingsCheck(env, PingReqsFrom(env, s, 0)), k, 0);
    var s1 := SuspectsFrom(env, PingsCheck(env, PingReqsFrom(env, s, 0)), 0);
    if m.Some? { HandleKeeps(env, s1, k, m.value); }
  }

  lemma RetrieveKeeps(env: Env, s: State, k: Knowledge)
    requires Inv(s, k)
    ensures Inv(Retrieve(env, s).0, k)
    ensures Retrieve(env, s).1.Some? ==> Retrieve(env, s).1.value < s.mc
  {
    RetrieveKeepsRing(env, s, s.mc);
  }

  lemma PingAddKeeps(env: Env, s: State, k: Knowledge, slot: nat)
    requires Inv(s, k) && slot < s.mc && !IsSelf(s, slot)
    ensures Inv(PingAdd(env, s, slot), k)
  {
    hide Core;
    Parts(s, k);
    var t := PingAdd(env, s, slot);
    PingTablesKeep(s, k, t.pings, s.pingReqs, s.draws, t.ticks);
  }

  lemma ProbeKeeps(env: Env, s: State, k: Knowledge, slot: nat)
    requires Inv(s, k) && slot < s.mc && !IsSelf(s, slot)
    ensures Inv(Probe(env, s, slot), k)
  {
    hide Core, Gossip, PingAdd;
    GossipKeeps(env.cfg, s, k, PingMessage);
    var (s2, ping) := Gossip(env.cfg, s, PingMessage);
    var a := Slot(s2, slot).entry.addr;
    SendKeeps(s2, k, a, ping);
    PingAddKeeps(env, Send(s2, a, ping), k, slot);
  }

  lemma {:induction false} DetectKeeps(env: Env, s: State, k: Knowledge, n: nat)
    requires Inv(s, k)
    ensures Inv(Detect(env, s, n), k)
  {
    hide Inv, Retrieve, Probe;
    if n == 0 {
    } else {
      DetectKeeps(env, s, k, n - 1);
      var s0 := Detect(env, s, n - 1);
      RetrieveKeeps(env, s0, k);
      var (s1, to) := Retrieve(env, s0);
      if to.Some? { ProbeKeeps(env, s1, k, to.value); }
    }
  }

  /** An event is admissible when the message it brings respects the book, or is ignored. */
  ghost predicate Admissible(s: State, k: Knowledge, e: Event) {
    e.Listening? && e.received.Some? ==> Acceptable(s, k, e.received.value)
  }

  lemma StepKeeps(env: Env, s: State, k: Knowledge, e: Event)
    requires Inv(s, k) && BookOk(k) && RoomFor(env, k) && |s.members| == env.cfg.maxMembers
    requires Admissible(s, k, e)
    ensures Inv(Step(env, s, e), k)
  {
    hide Inv, Listen, Detect;
    match e
    case Listening(m) => ListenKeeps(env, s, k, m);
    case Detecting => DetectKeeps(env, s, k, env.cfg.fanout);
  }
}
