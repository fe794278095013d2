/** The member arrays in place (src/member.c). */
module MemberOps {
  import opened Types
  import opened Seqs
  import opened Tables
  import opened Protocol
  import opened Invariant
  import opened Preservation
  import opened RoundRobin
  import opened Node
  import R = RingOps
  import U = UpdateOps
  import G = PingOps

  // ----- the shift -----

  /** A pointer that may be in use while live slot `gone` is being shifted out. */
  predicate InUse(r: Ref, gone: nat, mc: nat, cc: nat) {
    match r
    case Live(i) => i < mc && i != gone
    case Conf(j) => j <= cc
  }

  /** A pointer after the slots gone+1..hi have moved one place down. */
  function Lowered(r: Ref, gone: nat, hi: nat): Ref {
    if r.Live? && gone < r.slot <= hi then Live(r.slot - 1) else r
  }

  function At(members: seq<Member>, confirmed: seq<Member>, r: Ref): Member {
    match r
    case Live(i) => if i < |members| then members[i] else ZERO_MEMBER
    case Conf(i) => if i < |confirmed| then confirmed[i] else ZERO_MEMBER
  }

  /** Members that pointers in use can reach carry different uuids. */
  ghost predicate ToldApart(members: seq<Member>, confirmed: seq<Member>, gone: nat, mc: nat, cc: nat) {
    forall r, q :: InUse(r, gone, mc, cc) && InUse(q, gone, mc, cc) && r != q ==>
      At(members, confirmed, r).entry.uuid != At(members, confirmed, q).entry.uuid
  }

  /** After slots gone+1..i have moved, lowered pointers still reach what they reached. */
  lemma LoweredReaches(members: seq<Member>, shifted: seq<Member>, confirmed: seq<Member>, r: Ref, gone: nat, i: nat,
                       mc: nat, cc: nat)
    requires gone <= i < mc <= |members| == |shifted| && InUse(r, gone, mc, cc)
    requires forall p :: 0 <= p < |members| ==> shifted[p] == members[if gone <= p < i then p + 1 else p]
    ensures At(shifted, confirmed, Lowered(r, gone, i)) == At(members, confirmed, r)
  {
  }

  /** Slots index+1..i have moved one place down and their pointers with them. */
  ghost predicate ShiftedTo(ms: Microswim, index: nat, i: nat, M: seq<Member>, W: seq<Update>)
    reads ms, ms.members, ms.updates
  {
    && |M| == ms.members.Length && |W| == ms.updateCount <= ms.updates.Length
    && index <= i < ms.memberCount <= |M|
    && (forall p :: 0 <= p < |M| ==> ms.members[p] == M[if index <= p < i then p + 1 else p])
    && (forall x :: 0 <= x < |W| ==> ms.updates[x] == W[x].(ref := Lowered(W[x].ref, index, i)))
  }

  lemma OneReference(members: seq<Member>, confirmed: seq<Member>, gone: nat, mc: nat, cc: nat, r: Ref, q: Ref)
    requires ToldApart(members, confirmed, gone, mc, cc) && InUse(r, gone, mc, cc) && InUse(q, gone, mc, cc)
    requires At(members, confirmed, r).entry.uuid == At(members, confirmed, q).entry.uuid
    ensures r == q
  {
  }

  /** In the middle of the shift every update still reaches the member it reached before. */
  lemma PointersReach(ms: Microswim, index: nat, i: nat, M: seq<Member>, C: seq<Member>, W: seq<Update>)
    requires ms.Fits() && ms.confirmedCount < ms.confirmed.Length && C == ms.confirmed[..]
    requires ShiftedTo(ms, index, i, M, W)
    requires forall x :: 0 <= x < |W| ==> InUse(W[x].ref, index, ms.memberCount, ms.confirmedCount)
    ensures forall x :: 0 <= x < |W| ==>
      ms.InRange(ms.updates[x].ref) && ms.Target(ms.updates[x].ref) == At(M, C, W[x].ref)
  {
    hide Lowered, InUse;
    forall x | 0 <= x < |W|
      ensures ms.InRange(ms.updates[x].ref) && ms.Target(ms.updates[x].ref) == At(M, C, W[x].ref)
    {
      LoweredReaches(M, ms.members[..], C, W[x].ref, index, i, ms.memberCount, ms.confirmedCount);
      LoweredInUse(W[x].ref, index, i, ms.memberCount, ms.confirmedCount);
    }
  }

  lemma NextInUse(M: seq<Member>, C: seq<Member>, index: nat, i: nat, mc: nat, cc: nat)
    requires index <= i < mc - 1 && mc <= |M|
    ensures InUse(Live(i + 1), index, mc, cc) && At(M, C, Live(i + 1)) == M[i + 1]
  {
  }

  method ShiftOne(ms: Microswim, index: nat, i: nat, ghost M: seq<Member>, ghost W: seq<Update>)
    requires ms.Fits() && ms.confirmedCount < ms.confirmed.Length
    requires ShiftedTo(ms, index, i, M, W) && i < ms.memberCount - 1
    requires forall x :: 0 <= x < |W| ==> InUse(W[x].ref, index, ms.memberCount, ms.confirmedCount)
    requires forall x, y :: 0 <= x < y < |W| ==> W[x].ref != W[y].ref
    requires ToldApart(M, ms.confirmed[..], index, ms.memberCount, ms.confirmedCount)
    modifies ms.members, ms.updates
    ensures ms.Fits() && ShiftedTo(ms, index, i + 1, M, W)
  {
    hide ToldApart, Lowered, InUse, At;
    ghost var C, before := ms.confirmed[..], ms.updates[..ms.updateCount];
    PointersReach(ms, index, i, M, C, W);
    NextInUse(M, C, index, i, ms.memberCount, ms.confirmedCount);
    var update := U.UpdateFind(ms, ms.members[i + 1].entry.uuid);
    if update.Some? {
      OneReference(M, C, index, ms.memberCount, ms.confirmedCount, W[update.value].ref, Live(i + 1));
    }
    PointersStep(W, before, update, index, i);
    ms.members[i] := ms.members[i + 1];
    if update.Some? {
      ms.updates[update.value] := ms.updates[update.value].(ref := Live(i));
    }
  }

  lemma LoweredInUse(r: Ref, gone: nat, hi: nat, mc: nat, cc: nat)
    requires InUse(r, gone, mc, cc)
    ensures match Lowered(r, gone, hi) case Live(i) => i < mc case Conf(j) => j <= cc
  {
  }

  /** Redirecting the one update that follows slot i + 1 lowers every pointer that needs it. */
  lemma PointersStep(W: seq<Update>, before: seq<Update>, update: Option<nat>, index: nat, i: nat)
    requires |before| == |W| && index <= i
    requires forall x :: 0 <= x < |W| ==> before[x] == W[x].(ref := Lowered(W[x].ref, index, i))
    requires forall x, y :: 0 <= x < y < |W| ==> W[x].ref != W[y].ref
    requires update.Some? ==> update.value < |W| && W[update.value].ref == Live(i + 1)
    requires update.None? ==> forall x :: 0 <= x < |W| ==> W[x].ref != Live(i + 1)
    ensures forall x :: 0 <= x < |W| ==>
      W[x].(ref := Lowered(W[x].ref, index, i + 1)) ==
        if update == Some(x) then before[x].(ref := Live(i)) else before[x]
  {
  }

  method MembersShift(ms: Microswim, index: nat)
    requires ms.Fits() && index < ms.memberCount && ms.confirmedCount < ms.confirmed.Length
    requires forall x :: 0 <= x < ms.updateCount ==>
      InUse(ms.updates[x].ref, index, ms.memberCount, ms.confirmedCount)
    requires forall x, y :: 0 <= x < y < ms.updateCount ==> ms.updates[x].ref != ms.updates[y].ref
    requires ToldApart(ms.members[..], ms.confirmed[..], index, ms.memberCount, ms.confirmedCount)
    modifies ms`memberCount, ms.members, ms.updates
    ensures ms.memberCount == old(ms.memberCount) - 1
    ensures ms.members[..] == ShiftDown(old(ms.members[..]), index, old(ms.memberCount))
    ensures ms.updates[..ms.updateCount] == RebaseAll(old(ms.updates[..ms.updateCount]), index, ms.confirmedCount)
  {
    hide RebaseAll, ToldApart;
    ghost var M, W := ms.members[..], ms.updates[..ms.updateCount];
    var i := index;
    while i < ms.memberCount - 1
      invariant ms.memberCount == old(ms.memberCount)
      invariant ShiftedTo(ms, index, i, M, W)
    {
      ShiftOne(ms, index, i, M, W);
      i := i + 1;
    }
    ShiftDone(ms.members[..], ms.updates[..ms.updateCount], M, W, index, ms.memberCount, ms.confirmedCount);
    ms.memberCount := ms.memberCount - 1;
  }

  lemma ShiftDone(a: seq<Member>, u: seq<Update>, M: seq<Member>, W: seq<Update>, index: nat, n: nat, cc: nat)
    requires |a| == |M| && |u| == |W| && index < n <= |M|
    requires forall p :: 0 <= p < |M| ==> a[p] == M[if index <= p < n - 1 then p + 1 else p]
    requires forall x :: 0 <= x < |W| ==> u[x] == W[x].(ref := Lowered(W[x].ref, index, n - 1))
    requires forall x :: 0 <= x < |W| ==> InUse(W[x].ref, index, n, cc)
    ensures a == ShiftDown(M, index, n)
    ensures u == RebaseAll(W, index, cc)
  {
    hide RebaseAll;
  }

  // ----- confirming -----

  /** Only a consistent node tells its members apart by uuid while one of them is leaving. */
  lemma LeavingToldApart(s: State, i: nat, confirmed: seq<Member>)
    requires UniqueUuids(s.members, s.mc, s.confirmed) && i < s.mc
    requires |s.confirmed| < |confirmed| && confirmed[..|s.confirmed|] == s.confirmed
    requires confirmed[|s.confirmed|] == s.members[i]
    ensures ToldApart(s.members, confirmed, i, s.mc, |s.confirmed|)
  {
    forall r, q | InUse(r, i, s.mc, |s.confirmed|) && InUse(q, i, s.mc, |s.confirmed|) && r != q
      ensures At(s.members, confirmed, r).entry.uuid != At(s.members, confirmed, q).entry.uuid
    {
      var cs := s.confirmed;
      assert forall j :: 0 <= j < |cs| ==> confirmed[j] == cs[j];
    }
  }

  /** Copy live slot i behind the confirmed members and let its update follow. */
  method Bury(ms: Microswim, i: nat, ghost k: Knowledge)
    requires ms.Fits() && Core(ms.Value(), k) && i < ms.memberCount && ms.confirmedCount < ms.confirmed.Length
    modifies ms.confirmed, ms.updates
    ensures ms.Fits()
    ensures ms.confirmed[..] == old(ms.confirmed[..])[ms.confirmedCount := ms.members[i]]
    ensures ms.updates[..ms.updateCount] ==
      Redirected(old(ms.updates[..ms.updateCount]), Live(i), Conf(ms.confirmedCount))
  {
    hide Core;
    ghost var s := ms.Value();
    Parts(s, k);
    ms.confirmed[ms.confirmedCount] := ms.members[i];
    forall x | 0 <= x < ms.updateCount
      ensures ms.InRange(ms.updates[x].ref) && ms.Target(ms.updates[x].ref) == Deref(s, s.updates[x].ref)
    {
      assert RefOk(s.updates[x].ref, s.mc, |s.confirmed|);
    }
    var update := U.UpdateFind(ms, ms.members[i].entry.uuid);
    assert update.Some? && s.updates[update.value].ref == Live(i) by {
      FollowerFound(s, k, Live(i));
      var y := UpdateFind(s, s.members[i].entry.uuid).value;
      assert Follows(s, s.members[i].entry.uuid)(s.updates[y]);
      if update.Some? {
        assert Follows(s, s.members[i].entry.uuid)(s.updates[update.value]);
        FirstIs(s.updates, Follows(s, s.members[i].entry.uuid), update.value);
      }
    }
    if update.Some? {
      ms.updates[update.value] := ms.updates[update.value].(ref := Conf(ms.confirmedCount));
    }
    assert ms.updates[..ms.updateCount] == Redirected(s.updates, Live(i), Conf(ms.confirmedCount));
  }

  function Redirected(us: seq<Update>, from: Ref, to: Ref): (r: seq<Update>)
    ensures |r| == |us|
    ensures forall x :: 0 <= x < |us| ==> r[x] == if us[x].ref == from then us[x].(ref := to) else us[x]
  {
    if us == [] then []
    else
      var u := us[|us| - 1];
      Redirected(us[..|us| - 1], from, to) + [if u.ref == from then u.(ref := to) else u]
  }

  lemma RebaseInTwo(us: seq<Update>, i: nat, mc: nat, cc: nat)
    requires Followed(us, mc, cc) && i < mc
    ensures RebaseAll(Redirected(us, Live(i), Conf(cc)), i, cc) == RebaseAll(us, i, cc)
  {
    hide RebaseAll, Redirected;
  }

  lemma RedirectedInUse(us: seq<Update>, i: nat, mc: nat, cc: nat)
    requires Followed(us, mc, cc) && i < mc
    ensures var r := Redirected(us, Live(i), Conf(cc));
      && (forall x :: 0 <= x < |us| ==> InUse(r[x].ref, i, mc, cc))
      && (forall x, y :: 0 <= x < y < |us| ==> r[x].ref != r[y].ref)
  {
    hide Redirected;
    var r := Redirected(us, Live(i), Conf(cc));
    forall x | 0 <= x < |us| ensures InUse(r[x].ref, i, mc, cc) {
      assert RefOk(us[x].ref, mc, cc);
    }
    forall x, y | 0 <= x < y < |us| ensures r[x].ref != r[y].ref {
      assert RefOk(us[x].ref, mc, cc) && RefOk(us[y].ref, mc, cc);
    }
  }

  method MemberMove(ms: Microswim, member: nat, ghost k: Knowledge)
    requires ms.Fits() && Core(ms.Value(), k)
    requires member < ms.memberCount && ms.confirmedCount < ms.confirmed.Length
    modifies ms`memberCount, ms`confirmedCount, ms`pingCount, ms.members, ms.confirmed, ms.updates, ms.pings
    ensures ms.Fits() && ms.Value() == Move(old(ms.Value()), member)
  {
    hide Core, Tables.DropPing, PingsOk;
    HasPings(ms.Value(), k);
    DropPingKeeps(ms.Value(), k, ms.members[member].entry.uuid);
    G.DropPing(ms, ms.members[member].entry.uuid);
    Relocate(ms, member, k);
  }

  /** The move proper: bury the member, close the gap it leaves. */
  method Relocate(ms: Microswim, member: nat, ghost k: Knowledge)
    requires ms.Fits() && Core(ms.Value(), k)
    requires member < ms.memberCount && ms.confirmedCount < ms.confirmed.Length
    modifies ms`memberCount, ms`confirmedCount, ms.members, ms.confirmed, ms.updates
    ensures ms.Fits()
    ensures var s := old(ms.Value());
      ms.Value() == s.(members := ShiftDown(s.members, member, s.mc), mc := s.mc - 1,
                       confirmed := s.confirmed + [s.members[member]],
                       updates := RebaseAll(s.updates, member, |s.confirmed|))
  {
    hide Core, UniqueUuids, Followed, RebaseAll, Redirected, ToldApart;
    ghost var s := ms.Value();
    Bijection(s, k);
    Bury(ms, member, k);
    assert ms.confirmed[..ms.confirmedCount] == s.confirmed;
    LeavingToldApart(s, member, ms.confirmed[..]);
    RebaseInTwo(s.updates, member, s.mc, |s.confirmed|);
    RedirectedInUse(s.updates, member, s.mc, |s.confirmed|);
    assert forall x :: 0 <= x < ms.updateCount ==> ms.updates[x] == ms.updates[..ms.updateCount][x];
    MembersShift(ms, member);
    ms.confirmedCount := ms.confirmedCount + 1;
    assert ms.confirmed[..ms.confirmedCount] == s.confirmed + [s.members[member]];
  }

  lemma HasPings(s: State, k: Knowledge)
    requires Core(s, k)
    ensures PingsOk(s.self.uuid, s.members, s.mc, s.pings) && PingReqsOk(|s.members|, s.pingReqs)
  {
  }

  lemma Bijection(s: State, k: Knowledge)
    requires Core(s, k)
    ensures UniqueUuids(s.members, s.mc, s.confirmed) && Followed(s.updates, s.mc, |s.confirmed|)
  {
  }

  // ----- status changes -----

  /** In the middle of a confirmation the ring still permutes the old slots. */
  lemma WindowTurning(s: State, k: Knowledge, i: nat)
    requires Core(s, k) && Ring(s.indices, s.rr, s.mc) && i < s.mc
    ensures Turning(Move(s, i), s.mc)
  {
    assert forall j :: 0 < j < s.mc ==> s.members[j].entry.uuid != s.self.uuid;
  }

  method Put(ms: Microswim, i: nat, m: Member)
    requires ms.Fits() && i < ms.members.Length
    modifies ms.members
    ensures ms.Fits() && ms.Value() == SetSlot(old(ms.Value()), i, m)
  {
    ghost var xs := ms.members[..];
    ms.members[i] := m;
    assert ms.members[..] == xs[i := m];
  }

  /** Build a status message and send it to the next member in turn. */
  method Announce(ms: Microswim, kind: Kind, e: Entry, ghost n: nat)
    requires ms.Fits() && Turning(ms.Value(), n)
    modifies ms`roundRobinIndex, ms`draws, ms`outbox, ms.indices
    ensures ms.Fits() && ms.Value() == Protocol.Announce(ms.env, old(ms.Value()), kind, e)
  {
    hide Retrieve, Turning;
    var message := Message(kind, ms.self, [e]);
    SlotsReached(ms.env, ms.Value(), n);
    var recipient := R.MemberRetrieve(ms, n);
    if recipient.Some? {
      ms.MessageSend(ms.members[recipient.value].entry.addr, message);
    }
  }

  lemma SlotsReached(env: Env, s: State, n: nat)
    requires Turning(s, n)
    ensures Retrieve(env, s).1.Some? ==> Retrieve(env, s).1.value < |s.members|
  {
    RetrieveKeepsRing(env, s, n);
  }

  method Restamp(ms: Microswim, i: nat, status: Status, incarnation: nat)
    requires ms.Fits() && i < ms.members.Length
    modifies ms`ticks, ms.members
    ensures ms.Fits() && ms.Value() == Protocol.Restamp(ms.env, old(ms.Value()), i, status, incarnation)
  {
    var now := ms.Milliseconds();
    var e := ms.members[i].entry.(status := status, incarnation := incarnation);
    Put(ms, i, Member(e, now + ms.env.cfg.suspectMs));
  }

  method MarkAlive(ms: Microswim, i: nat, ghost k: Knowledge)
    requires ms.Fits() && Inv(ms.Value(), k) && i < ms.members.Length && ms.members[i].entry.uuid != BLANK
    modifies ms`roundRobinIndex, ms`draws, ms`ticks, ms`outbox, ms.members, ms.indices
    ensures ms.Fits() && ms.Value() == Protocol.MarkAlive(ms.env, old(ms.Value()), i)
  {
    hide Core, Protocol.Announce, Turning, Ring;
    var status := ms.members[i].entry.status;
    Parts(ms.Value(), k);
    RestampKeeps(ms.env, ms.Value(), k, i, Alive, ms.members[i].entry.incarnation);
    Restamp(ms, i, Alive, ms.members[i].entry.incarnation);
    if status == Suspect {
      InvTurning(ms.Value(), k);
      Announce(ms, AliveMessage, ms.members[i].entry, ms.memberCount);
    }
  }

  method MarkSuspect(ms: Microswim, i: nat, ghost k: Knowledge)
    requires ms.Fits() && Inv(ms.Value(), k) && i < ms.members.Length && ms.members[i].entry.uuid != BLANK
    modifies ms`roundRobinIndex, ms`draws, ms`ticks, ms`outbox, ms.members, ms.indices
    ensures ms.Fits() && ms.Value() == Protocol.MarkSuspect(ms.env, old(ms.Value()), i)
  {
    hide Core, Protocol.Announce, Turning, Ring;
    if ms.members[i].entry.status == Alive {
      Parts(ms.Value(), k);
      RestampKeeps(ms.env, ms.Value(), k, i, Suspect, ms.members[i].entry.incarnation);
      Restamp(ms, i, Suspect, ms.members[i].entry.incarnation);
      InvTurning(ms.Value(), k);
      Announce(ms, SuspectMessage, ms.members[i].entry, ms.memberCount);
    }
  }

  method MarkConfirmed(ms: Microswim, i: nat, ghost k: Knowledge)
    requires ms.Fits() && Core(ms.Value(), k) && Ring(ms.indices[..], ms.roundRobinIndex, ms.memberCount)
    requires i < ms.memberCount && ms.members[i].entry.uuid != BLANK && ms.confirmedCount < ms.confirmed.Length
    modifies ms, ms.members, ms.confirmed, ms.updates, ms.pings, ms.indices
    ensures ms.Fits() && ms.Value() == Protocol.MarkConfirmed(ms.env, old(ms.Value()), i)
  {
    hide Core, Protocol.Announce, Move, Tables.DropPing, Turning;
    ghost var s := ms.Value();
    var m := ms.members[i].(entry := ms.members[i].entry.(status := Confirmed));
    Parts(s, k);
    RetouchKeeps(s, k, i, m);
    Put(ms, i, m);
    HasPings(ms.Value(), k);
    DropPingKeeps(ms.Value(), k, m.entry.uuid);
    G.DropPing(ms, m.entry.uuid);
    ghost var s1 := ms.Value();
    WindowTurning(s1, k, i);
    MemberMove(ms, i, k);
    Announce(ms, ConfirmMessage, ms.members[i].entry, s.mc);
  }

  /** `mark_confirmed` and then `index_remove`, as both callers do. */
  method Confirm(ms: Microswim, i: nat, ghost k: Knowledge)
    requires ms.Fits() && Core(ms.Value(), k) && Ring(ms.indices[..], ms.roundRobinIndex, ms.memberCount)
    requires BookOk(k) && RoomFor(ms.env, k)
    requires i < ms.memberCount && ms.members[i].entry.uuid != BLANK
    modifies ms, ms.members, ms.confirmed, ms.updates, ms.pings, ms.indices
    ensures ms.Fits() && ms.Value() == Protocol.Confirm(ms.env, old(ms.Value()), i)
  {
    hide Core, Protocol.MarkConfirmed, Tables.IndexRemove;
    Capacity(ms.Value(), k);
    CountDrops(ms.env, ms.Value(), i);
    MarkConfirmed(ms, i, k);
    R.IndexRemove(ms);
  }

  lemma CountDrops(env: Env, s: State, i: nat)
    requires i < s.mc
    ensures Protocol.MarkConfirmed(env, s, i).mc == s.mc - 1
  {
  }

  // ----- taking in an entry -----

  method Refute(ms: Microswim, i: nat, incarnation: nat, ghost k: Knowledge)
    requires ms.Fits() && Inv(ms.Value(), k) && i < ms.memberCount && IsSelf(ms.Value(), i)
    modifies ms, ms.members, ms.indices
    ensures ms.Fits() && ms.Value() == Protocol.Refute(ms.env, old(ms.Value()), i, incarnation)
  {
    hide Core, Protocol.Announce, Turning, Ring;
    ghost var s := ms.Value();
    var n := Succ(incarnation);
    var e := ms.members[i].entry.(status := Alive, incarnation := n);
    Parts(s, k);
    IssueKeeps(s, k, n);
    ms.self := ms.self.(status := Alive, incarnation := n);
    ms.incs := ms.incs + {n};
    RetouchKeeps(ms.Value(), k, i, ms.members[i].(entry := e));
    Put(ms, i, ms.members[i].(entry := e));
    InvTurning(ms.Value(), k);
    Announce(ms, AliveMessage, e, ms.memberCount);
  }

  /** The precedence rules of the protocol. */
  method MemberUpdate(ms: Microswim, i: nat, e: Entry, ghost k: Knowledge)
    requires ms.Valid(k) && Named(ms.Value(), k, e)
    requires i < ms.memberCount && ms.members[i].entry.uuid == e.uuid
    modifies ms, ms.members, ms.confirmed, ms.updates, ms.pings, ms.indices
    ensures ms.Fits() && ms.Value() == Protocol.MemberUpdate(ms.env, old(ms.Value()), i, e)
  {
    hide Core, Protocol.Refute, Protocol.Confirm, Tables.DropPing, Ring, StatusOkBut;
    var x := ms.members[i].entry;
    if ms.self.uuid == e.uuid && e.status == Suspect {
      Refute(ms, i, e.incarnation, k);
      return;
    }
    if e.status == Alive {
      if (x.status == Suspect && e.incarnation > x.incarnation) ||
         (x.status == Alive && e.incarnation > x.incarnation) {
        Overwrite(ms, i, e.status, e.incarnation, k);
      }
    }
    if e.status == Suspect {
      if (x.status == Suspect && e.incarnation > x.incarnation) ||
         (x.status == Alive && e.incarnation >= x.incarnation) {
        Overwrite(ms, i, e.status, e.incarnation, k);
      }
    }
    if e.status == Confirmed {
      if x.status == Alive || x.status == Suspect {
        Condemn(ms, i, e.incarnation, k);
      }
    }
  }

  /** Accept word that a member is confirmed: forget the ping to it and move it. */
  method Condemn(ms: Microswim, i: nat, incarnation: nat, ghost k: Knowledge)
    requires ms.Valid(k)
    requires i < ms.memberCount && ms.members[i].entry.uuid != BLANK
    requires Fact(ms.Value(), k, ms.members[i].entry.uuid, incarnation)
    modifies ms, ms.members, ms.confirmed, ms.updates, ms.pings, ms.indices
    ensures ms.Fits()
    ensures var s, x := old(ms.Value()), old(ms.members[i]).entry;
      var m := s.members[i].(entry := x.(status := Confirmed, incarnation := incarnation));
      ms.Value() == Protocol.Confirm(ms.env, Tables.DropPing(SetSlot(s, i, m), x.uuid), i)
  {
    hide Core, Protocol.Confirm, Tables.DropPing, Ring;
    var x := ms.members[i].entry;
    var m := ms.members[i].(entry := x.(status := Confirmed, incarnation := incarnation));
    RetouchKeeps(ms.Value(), k, i, m);
    Put(ms, i, m);
    HasPings(ms.Value(), k);
    DropPingKeeps(ms.Value(), k, x.uuid);
    G.DropPing(ms, x.uuid);
    Confirm(ms, i, k);
  }

  /** Accept newer word on a member: restart its timer and forget the ping to it. */
  method Overwrite(ms: Microswim, i: nat, status: Status, incarnation: nat, ghost k: Knowledge)
    requires ms.Fits() && Inv(ms.Value(), k) && status != Confirmed
    requires i < ms.memberCount && ms.members[i].entry.uuid != BLANK
    requires Fact(ms.Value(), k, ms.members[i].entry.uuid, incarnation)
    modifies ms, ms.members, ms.pings
    ensures ms.Fits()
    ensures ms.Value() == Tables.DropPing(
      Protocol.Restamp(ms.env, old(ms.Value()), i, status, incarnation), old(ms.members[i].entry.uuid))
  {
    hide Core, Tables.DropPing;
    var u := ms.members[i].entry.uuid;
    RestampKeeps(ms.env, ms.Value(), k, i, status, incarnation);
    Restamp(ms, i, status, incarnation);
    HasPings(ms.Value(), k);
    G.DropPing(ms, u);
  }

  method MemberFind(ms: Microswim, e: Entry) returns (r: Option<nat>)
    requires ms.Fits()
    modifies ms.members
    ensures ms.Fits() && (ms.Value(), r) == Find(old(ms.Value()), e)
  {
    ghost var s := ms.Value();
    var i := 0;
    while i < ms.memberCount
      invariant i <= ms.memberCount
      invariant ms.members[..] == s.members
      invariant forall x :: 0 <= x < i ==> !Fits(e)(Lives(s)[x])
    {
      if ms.members[i].entry.uuid == BLANK && ms.members[i].entry.addr == e.addr {
        Put(ms, i, ms.members[i].(entry := ms.members[i].entry.(uuid := e.uuid)));
      }
      if e.uuid == ms.members[i].entry.uuid {
        FirstIs(Lives(s), Fits(e), i);
        if s.members[i].entry.uuid == e.uuid { Renamed(s, i, e); }
        return Some(i);
      }
      i := i + 1;
    }
    FirstNone(Lives(s), Fits(e));
    return None;
  }

  lemma Renamed(s: State, i: nat, e: Entry)
    requires i < s.mc && s.members[i].entry.uuid == e.uuid
    ensures SetSlot(s, i, s.members[i].(entry := s.members[i].entry.(uuid := e.uuid))) == s
  {
    assert s.members[i].(entry := s.members[i].entry.(uuid := e.uuid)) == s.members[i];
  }

  method ConfirmedFind(ms: Microswim, u: Uuid) returns (r: Option<nat>)
    requires ms.Fits()
    ensures r == Protocol.ConfirmedFind(ms.Value(), u)
  {
    ghost var s := ms.Value();
    var i := 0;
    while i < ms.confirmedCount
      invariant i <= ms.confirmedCount
      invariant forall x :: 0 <= x < i ==> !HasUuid(u)(s.confirmed[x])
    {
      assert s.confirmed[i] == ms.confirmed[i];
      if ms.confirmed[i].entry.uuid == u {
        FirstIs(s.confirmed, HasUuid(u), i);
        return Some(i);
      }
      i := i + 1;
    }
    FirstNone(s.confirmed, HasUuid(u));
    return None;
  }

  /** None where the array is full; there the guard of the code lets one write beyond it. */
  method MemberAdd(ms: Microswim, e: Entry) returns (slot: Option<nat>)
    requires ms.Fits()
    modifies ms`memberCount, ms`ticks, ms.members
    ensures ms.Fits() && ms.Value() == Protocol.MemberAdd(ms.env, old(ms.Value()), e)
    ensures slot == if old(ms.memberCount) < ms.members.Length then Some(old(ms.memberCount)) else None
  {
    if ms.memberCount == ms.members.Length {
      return None;
    }
    var now := ms.Milliseconds();
    Put(ms, ms.memberCount, Member(e, now + ms.env.cfg.suspectMs));
    ms.memberCount := ms.memberCount + 1;
    return Some(ms.memberCount - 1);
  }

  /** Take a new live member into the ring and the updates, if there is room for both. */
  method AddLive(ms: Microswim, e: Entry) returns (added: bool)
    requires ms.Fits()
    modifies ms`memberCount, ms`updateCount, ms`draws, ms`ticks, ms.members, ms.updates, ms.indices
    ensures ms.Fits() && ms.Value() == Protocol.AddLive(ms.env, old(ms.Value()), e)
    ensures added <==> old(ms.memberCount) < ms.members.Length && old(ms.updateCount) < ms.updates.Length
  {
    hide Tables.IndexAdd;
    var slot := MemberAdd(ms, e);
    if slot.None? {
      return false;
    }
    R.IndexAdd(ms);
    added := U.UpdateAdd(ms, Live(slot.value));
  }

  method ConfirmedAdd(ms: Microswim, e: Entry) returns (added: bool)
    requires ms.Fits()
    modifies ms`confirmedCount, ms`updateCount, ms.confirmed, ms.updates
    ensures ms.Fits() && ms.Value() == AddConfirmed(ms.env, old(ms.Value()), e)
    ensures added <==> old(ms.confirmedCount) < ms.confirmed.Length && old(ms.updateCount) < ms.updates.Length
  {
    if ms.confirmedCount == ms.confirmed.Length {
      return false;
    }
    ghost var cs := ms.confirmed[..ms.confirmedCount];
    ms.confirmed[ms.confirmedCount] := Member(e, 0);
    ms.confirmedCount := ms.confirmedCount + 1;
    assert ms.confirmed[..ms.confirmedCount] == cs + [Member(e, 0)];
    added := U.UpdateAdd(ms, Conf(ms.confirmedCount - 1));
  }

  /** Take in one entry of a message. Nothing is refused: a newcomer always finds room. */
  method MembersCheck(ms: Microswim, e: Entry, ghost k: Knowledge)
    requires ms.Valid(k) && Named(ms.Value(), k, e)
    modifies ms, ms.members, ms.confirmed, ms.updates, ms.pings, ms.indices
    ensures ms.Valid(k) && ms.Value() == Check(ms.env, old(ms.Value()), e)
  {
    hide Core, Find, Protocol.MemberUpdate, Protocol.AddLive, AddConfirmed;
    CheckKeeps(ms.env, ms.Value(), k, e);
    FindKeeps(ms.Value(), k, e);
    var existing := MemberFind(ms, e);
    var buried := ConfirmedFind(ms, e.uuid);
    ghost var s1 := ms.Value();
    if existing.None? {
      if buried.None? {
        RoomForNewcomer(s1, k, e);
        if e.status == Confirmed {
          var added := ConfirmedAdd(ms, e);
          assert added;
        } else {
          var added := AddLive(ms, e);
          assert added;
        }
      }
    } else {
      MemberUpdateKeeps(ms.env, s1, k, existing.value, e);
      MemberUpdate(ms, existing.value, e, k);
      if e.status != Confirmed {
        var found := HasUpdate(ms, existing.value, k);
      }
    }
  }

  /** The source would add a missing update for a live member, but it is always there. */
  method HasUpdate(ms: Microswim, i: nat, ghost k: Knowledge) returns (found: bool)
    requires ms.Fits() && Core(ms.Value(), k) && i < ms.memberCount
    ensures found
    ensures UpdateFind(ms.Value(), ms.members[i].entry.uuid).Some?
  {
    hide Core;
    ghost var s := ms.Value();
    FollowerFound(s, k, Live(i));
    Parts(s, k);
    forall x | 0 <= x < ms.updateCount
      ensures ms.InRange(ms.updates[x].ref) && ms.Target(ms.updates[x].ref) == Deref(s, s.updates[x].ref)
    {
      assert RefOk(s.updates[x].ref, s.mc, |s.confirmed|);
    }
    var update := U.UpdateFind(ms, ms.members[i].entry.uuid);
    assert Follows(s, s.members[i].entry.uuid)(s.updates[UpdateFind(s, s.members[i].entry.uuid).value]);
    found := update.Some?;
  }

  // ----- the sweep over suspects -----

  method MembersCheckSuspects(ms: Microswim, ghost k: Knowledge)
    requires ms.Valid(k)
    modifies ms, ms.members, ms.confirmed, ms.updates, ms.pings, ms.indices
    ensures ms.Valid(k) && ms.Value() == SuspectsFrom(ms.env, old(ms.Value()), 0)
  {
    hide Inv, SuspectsFrom, SuspectTurn;
    var i := 0;
    while i < ms.memberCount
      invariant ms.Valid(k)
      invariant SuspectsFrom(ms.env, ms.Value(), i) == SuspectsFrom(ms.env, old(ms.Value()), 0)
      decreases ms.memberCount - i
    {
      SuspectStep(ms.env, ms.Value(), k, i);
      CheckSuspect(ms, i, k);
      i := i + 1;
    }
    SuspectEnd(ms.env, ms.Value(), i);
  }

  lemma SuspectStep(env: Env, s: State, k: Knowledge, i: nat)
    requires i < s.mc && Inv(s, k)
    ensures SuspectsFrom(env, s, i) == SuspectsFrom(env, SuspectTurn(env, s, i), i + 1)
    ensures Inv(SuspectTurn(env, s, i), k) && SuspectTurn(env, s, i).mc <= s.mc
  {
    SuspectTurnKeeps(env, s, k, i);
  }

  lemma SuspectEnd(env: Env, s: State, i: nat)
    requires i >= s.mc
    ensures SuspectsFrom(env, s, i) == s
  {
  }

  method CheckSuspect(ms: Microswim, i: nat, ghost k: Knowledge)
    requires ms.Valid(k) && i < ms.memberCount
    modifies ms, ms.members, ms.confirmed, ms.updates, ms.pings, ms.indices
    ensures ms.Fits() && ms.Value() == SuspectTurn(ms.env, old(ms.Value()), i)
  {
    hide Core, Protocol.Confirm, Protocol.ConfirmedFind;
    ghost var s := ms.Value();
    Parts(s, k);
    if ms.members[i].entry.status == Suspect {
      var now := ms.Milliseconds();
      PingTablesKeep(s, k, s.pings, s.pingReqs, s.draws, s.ticks + 1);
      if ms.members[i].timeout < now {
        var buried := ConfirmedFind(ms, ms.members[i].entry.uuid);
        SameConfirmed(s, ms.Value(), ms.members[i].entry.uuid);
        if buried.None? {
          Confirm(ms, i, k);
        }
      }
    }
  }

  lemma SameConfirmed(s: State, t: State, u: Uuid)
    requires s.confirmed == t.confirmed
    ensures Protocol.ConfirmedFind(s, u) == Protocol.ConfirmedFind(t, u)
  {
  }
}
