/** What a whole turn of the listener does to a node's views: first the sweeps, then the message. */
module Hearing {
  import opened Types
  import opened Seqs
  import opened Tables
  import opened Protocol
  import opened Invariant
  import opened Preservation
  import opened Views
  import opened Convergence
  import opened OwnIncarnation
  import opened Sweeps
  import opened Marks
  import opened Replies

  lemma SameView(s: State, t: State, u: Uuid)
    requires t.members == s.members && t.mc == s.mc && t.confirmed == s.confirmed
    ensures ViewOf(t, u) == ViewOf(s, u)
  {
  }

  // ----- the sweeps -----

  /** A ping to the live slot of u has expired. */
  predicate Expired(s: State, u: Uuid, now: nat) {
    exists x :: 0 <= x < |s.pings| && s.pings[x].suspectDeadline < now
      && s.pings[x].slot < s.mc && s.members[s.pings[x].slot].entry.uuid == u
  }

  /** A living member becomes doubted, at the same incarnation. */
  function Doubting(v: View): View {
    if v.Living? then Doubted(v.incarnation) else v
  }

  lemma ExpiredIsBlamed(s: State, k: Knowledge, now: nat, i: nat)
    requires UniqueUuids(s.members, s.mc, s.confirmed) && i < s.mc
    ensures Expired(s, s.members[i].entry.uuid, now) <==> Blamed(s.pings[0..], now, i)
  {
    assert s.pings[0..] == s.pings;
    if Expired(s, s.members[i].entry.uuid, now) {
      var x :| 0 <= x < |s.pings| && s.pings[x].suspectDeadline < now
        && s.pings[x].slot < s.mc && s.members[s.pings[x].slot].entry.uuid == s.members[i].entry.uuid;
      assert s.pings[x].slot == i;
    }
  }

  lemma PingsFromTables(env: Env, s: State, now: nat, i: nat)
    ensures var t := PingsFrom(env, s, now, i);
      t.mc == s.mc && t.confirmed == s.confirmed && t.self == s.self && |t.members| == |s.members|
    decreases |s.pings| - i
  {
    hide MarkSuspect, AskHelpers, PingTurn;
    if i < |s.pings| {
      TurnTables(env, s, now, i);
      PingsFromTables(env, PingTurn(env, s, now, i), now, if s.pings[i].suspectDeadline < now then i else i + 1);
    } else {
    }
  }

  lemma TurnTables(env: Env, s: State, now: nat, i: nat)
    requires i < |s.pings|
    ensures var t := PingTurn(env, s, now, i); t.mc == s.mc && t.confirmed == s.confirmed && t.self == s.self
  {
    hide AskHelpers, Retrieve;
  }

  /** The sweep over pings doubts exactly the living members whose pings have expired. */
  lemma PingsDoubt(env: Env, s: State, k: Knowledge, u: Uuid)
    requires Inv(s, k)
    ensures ViewOf(PingsCheck(env, s), u) ==
      if Expired(s, u, env.clock(s.ticks)) then Doubting(ViewOf(s, u)) else ViewOf(s, u)
  {
    hide ViewOf, PingsFrom, Followed, SlotsOk, SeedOk, SelfListed, PingsOk, OutboxOk, Ring, Blamed, Expired;
    var now, s1, t := env.clock(s.ticks), s.(ticks := s.ticks + 1), PingsCheck(env, s);
    PingsCheckKeeps(env, s, k);
    PingsFromTables(env, s1, now, 0);
    if SlotOf(s, u).Some? {
      var i := SlotOf(s, u).value;
      PingsBlame(env, s1, now, 0, i);
      ExpiredIsBlamed(s, k, now, i);
      SeenLive(s, i);
      SeenLive(t, i);
    } else {
      NobodyExpired(s, u, now);
      forall j | 0 <= j < s.mc ensures t.members[j].entry.uuid == s.members[j].entry.uuid {
        PingsBlame(env, s1, now, 0, j);
      }
      UnlistedAlike(s, t, u);
    }
  }

  lemma NobodyExpired(s: State, u: Uuid, now: nat)
    requires s.mc <= |s.members| && SlotOf(s, u).None?
    ensures !Expired(s, u, now)
    ensures forall j :: 0 <= j < s.mc ==> s.members[j].entry.uuid != u
  {
    forall j | 0 <= j < s.mc ensures s.members[j].entry.uuid != u { assert !HasUuid(u)(Lives(s)[j]); }
  }

  lemma UnlistedAlike(s: State, t: State, u: Uuid)
    requires t.mc == s.mc && t.confirmed == s.confirmed
    requires forall j :: 0 <= j < s.mc ==> s.members[j].entry.uuid != u && t.members[j].entry.uuid != u
    ensures ViewOf(t, u) == ViewOf(s, u)
  {
    FirstNone(Lives(s), HasUuid(u));
    FirstNone(Lives(t), HasUuid(u));
  }

  /** The sweep over suspects takes nobody but the doubted, and them for dead. */
  lemma {:induction false} SuspectsDoom(env: Env, s: State, k: Knowledge, u: Uuid, i: nat)
    requires Inv(s, k)
    ensures var v, w := ViewOf(s, u), ViewOf(SuspectsFrom(env, s, i), u); w == v || (v.Doubted? && w == Dead)
    decreases s.mc - i
  {
    hide Inv, ViewOf, SuspectTurn;
    if i >= s.mc {
    } else {
      SuspectTurnKeeps(env, s, k, i);
      SuspectTurnDooms(env, s, k, u, i);
      SuspectsDoom(env, SuspectTurn(env, s, i), k, u, i + 1);
    }
  }

  lemma SuspectTurnDooms(env: Env, s: State, k: Knowledge, u: Uuid, i: nat)
    requires Inv(s, k) && i < s.mc
    ensures var v, w := ViewOf(s, u), ViewOf(SuspectTurn(env, s, i), u); w == v || (v.Doubted? && w == Dead)
  {
    hide ViewOf, Confirm, Followed, SlotsOk, SeedOk, SelfListed, PingsOk, OutboxOk, Ring, StatusOk;
    var s1 := s.(ticks := s.ticks + 1);
    SameView(s, s1, u);
    SeenLive(s, i);
    SuspectTurnKeeps(env, s, k, i);
    if s.members[i].entry.status == Suspect && SuspectTurn(env, s, i) == Confirm(env, s1, i) {
      AfterConfirm(env, s1, i, u);
    }
  }

  /** The clock reading by which the sweep over pings goes. */
  function SweepTime(env: Env, s: State): nat {
    env.clock(PingReqsFrom(env, s, 0).ticks)
  }

  /** All three sweeps: who has an expired ping is doubted, and of the doubted some are taken for dead. */
  lemma SweepsDoubt(env: Env, s: State, k: Knowledge, u: Uuid)
    requires Inv(s, k)
    ensures Inv(Swept(env, s), k)
    ensures var v := if Expired(s, u, SweepTime(env, s)) then Doubting(ViewOf(s, u)) else ViewOf(s, u);
      var w := ViewOf(Swept(env, s), u);
      w == v || (v.Doubted? && w == Dead)
  {
    hide Inv, ViewOf, PingReqsFrom, PingsCheck, SuspectsFrom, Expired;
    var s1 := PingReqsFrom(env, s, 0);
    var s2 := PingsCheck(env, s1);
    PingReqsKeep(env, s, k);
    PingsCheckKeeps(env, s1, k);
    SuspectsFromKeeps(env, s2, k, 0);
    SameView(s, s1, u);
    ExpiredAlike(s, s1, u, SweepTime(env, s));
    PingsDoubt(env, s1, k, u);
    SuspectsDoom(env, s2, k, u, 0);
  }

  lemma ExpiredAlike(s: State, t: State, u: Uuid, now: nat)
    requires t.members == s.members && t.mc == s.mc && t.pings == s.pings
    ensures Expired(t, u, now) == Expired(s, u, now)
  {
  }

  // ----- the message -----

  /** A doubt is dropped, at the same incarnation. */
  function Calmed(v: View): View {
    if v.Doubted? then Living(v.incarnation) else v
  }

  lemma {:induction false} HeardIsKnown(me: Uuid, v: View, es: seq<Entry>, u: Uuid, i: nat)
    requires v != Unknown || (i < |es| && es[i].uuid == u)
    ensures HeedAll(me, v, es, u) != Unknown
  {
    if es == [] {
    } else {
      var n := |es| - 1;
      if v != Unknown || i < n {
        if v == Unknown { assert es[..n][i] == es[i]; }
        HeardIsKnown(me, v, es[..n], u, i);
      }
    }
  }

  lemma RevivedCalms(env: Env, s: State, t: State, k: Knowledge, i: nat, told: seq<Packet>, u: Uuid)
    requires Inv(s, k) && Inv(t, k) && i < |s.members| && Revived(env, s, t, i, told)
    requires t.mc == s.mc && t.confirmed == s.confirmed
    ensures ViewOf(t, u) ==
      if i < s.mc && s.members[i].entry.uuid == u then Calmed(ViewOf(s, u)) else ViewOf(s, u)
  {
    hide ViewOf, Followed, SlotsOk, SeedOk, SelfListed, PingsOk, OutboxOk, Ring, Notifies;
    if i < s.mc {
      SeenLive(s, i);
      SeenLive(t, i);
      if s.members[i].entry.uuid != u { OtherSlot(s, t, i, u); }
    } else {
      assert Lives(t) == Lives(s);
      SameLives(s, t, u);
    }
  }

  lemma SameLives(s: State, t: State, u: Uuid)
    requires Lives(t) == Lives(s) && t.mc == s.mc && t.confirmed == s.confirmed
    requires s.mc <= |s.members| && s.mc <= |t.members|
    ensures ViewOf(t, u) == ViewOf(s, u)
  {
    var i := First(Lives(s), HasUuid(u));
    if i.Some? { assert Lives(t)[i.value] == Lives(s)[i.value]; }
  }

  /** Once its entries are taken in, a ping shows that its sender is alive, and so does an answer waited for. */
  predicate ShowsAlive(s: State, m: Message) {
    match m.kind
    case PingMessage => true
    case AckMessage => var p := PingFind(s, m.sender.uuid); p.Some? && s.pings[p.value].slot < s.mc
    case _ => false
  }

  /** The handlers leave all views alone, but for that of a sender who shows that it is alive. */
  lemma HandlersCalm(env: Env, s: State, k: Knowledge, m: Message, u: Uuid)
    requires Inv(s, k) && BookOk(k) && MessageOk(s, k, m) && Handled(m.kind)
    requires m.updates != [] ==> ViewOf(s, m.updates[0].uuid) != Unknown
    ensures var t := if m.kind == PingMessage then PingHandle(env, s, m)
                     else if m.kind == PingReqMessage then PingReqHandle(env, s, m)
                     else AckHandle(env, s, m);
      ViewOf(t, u) == if u == m.sender.uuid && ShowsAlive(s, m) then Calmed(ViewOf(s, u)) else ViewOf(s, u)
  {
    hide Inv, ViewOf, PingHandle, PingReqHandle, AckHandle, Revived, SlotOf, WithoutFirst, Gossip, SkipSweep, Taken;
    AllNamed(s, k, m);
    if m.kind == PingMessage {
      var t := PingHandle(env, s, m);
      PingAnswered(env, s, k, m);
      PingHandleKeeps(env, s, k, m);
      var i := SlotOf(s, m.sender.uuid);
      if i.Some? {
        SlotInRange(s, m.sender.uuid);
        SlotNamed(s, m.sender.uuid);
        RevivedCalms(env, s, t, k, i.value, Posted(s, t)[1..], u);
      } else {
        SameView(s, t, u);
        UnlistedUndoubted(s, m.sender.uuid);
      }
    } else if m.kind == PingReqMessage {
      PingReqServed(env, s, k, m);
      SameView(s, PingReqHandle(env, s, m), u);
    } else {
      var t := AckHandle(env, s, m);
      AckTaken(env, s, k, m);
      AckHandleKeeps(env, s, k, m);
      var p := PingFind(s, m.sender.uuid);
      if p.Some? {
        RevivedCalms(env, s, t, k, s.pings[p.value].slot,
                     Posted(s, t)[..|Posted(s, t)| - |Taken(s.pingReqs, Waiting(s, m.sender.uuid))|], u);
      }
    }
  }

  lemma AllNamed(s: State, k: Knowledge, m: Message)
    requires MessageOk(s, k, m) && Handled(m.kind)
    ensures Named(s, k, m.sender) && m.sender.uuid != BLANK
    ensures forall i :: 0 <= i < |m.updates| ==> Named(s, k, m.updates[i])
  {
  }

  lemma UnlistedUndoubted(s: State, u: Uuid)
    requires SlotOf(s, u).None?
    ensures !ViewOf(s, u).Doubted?
  {
  }

  /**
   * What a node believes after a message: of everybody, the sender first, what it is told in turn; and of a sender
   * who shows that it is alive, no doubt. A message of a kind that is ignored changes no view.
   */
  lemma HandleHears(env: Env, s: State, k: Knowledge, m: Message, u: Uuid)
    requires Inv(s, k) && BookOk(k) && RoomFor(env, k) && |s.members| == env.cfg.maxMembers
    requires Acceptable(s, k, m) && u != BLANK
    ensures ViewOf(Handle(env, s, m), u) ==
      if !Handled(m.kind) then ViewOf(s, u)
      else
        var w := HeedAll(s.self.uuid, ViewOf(s, u), [m.sender] + m.updates, u);
        if u == m.sender.uuid && ShowsAlive(Extract(env, s, m), m) then Calmed(w) else w
  {
    hide Inv, ViewOf, CheckAll, PingHandle, PingReqHandle, AckHandle, HeedAll, MessageTo, ShowsAlive;
    if Handled(m.kind) {
      var es, s1 := [m.sender] + m.updates, Extract(env, s, m);
      AllNamed(s, k, m);
      ExtractKeeps(env, s, k, m);
      CheckAllHeeds(env, s, k, es, u);
      if m.updates != [] {
        AllNamed(s1, k, m);
        CheckAllHeeds(env, s, k, es, m.updates[0].uuid);
        assert es[1] == m.updates[0];
        HeardIsKnown(s.self.uuid, ViewOf(s, m.updates[0].uuid), es, m.updates[0].uuid, 1);
      }
      HandlersCalm(env, s1, k, m, u);
    }
  }

  /** A whole turn of the listener: the sweeps, and then what the message says. */
  lemma ListenHears(env: Env, s: State, k: Knowledge, m: Option<Message>, u: Uuid)
    requires Inv(s, k) && BookOk(k) && RoomFor(env, k) && |s.members| == env.cfg.maxMembers
    requires (m.Some? ==> Acceptable(s, k, m.value)) && u != BLANK
    ensures var swept := Swept(env, s);
      var v := if Expired(s, u, SweepTime(env, s)) then Doubting(ViewOf(s, u)) else ViewOf(s, u);
      && (ViewOf(swept, u) == v || (v.Doubted? && ViewOf(swept, u) == Dead))
      && ViewOf(Listen(env, s, m), u) ==
         if m.None? || !Handled(m.value.kind) then ViewOf(swept, u)
         else
           var w := HeedAll(s.self.uuid, ViewOf(swept, u), [m.value.sender] + m.value.updates, u);
           if u == m.value.sender.uuid && ShowsAlive(Extract(env, swept, m.value), m.value) then Calmed(w) else w
  {
    hide Inv, ViewOf, Swept, Handle, Expired, HeedAll, MessageTo, ShowsAlive, Extract;
    SweepsDoubt(env, s, k, u);
    ListenIs(env, s, m);
    SweepsLeaveSelf(env, s);
    if m.Some? {
      SweptAcceptable(env, s, k, m.value);
      HandleHears(env, Swept(env, s), k, m.value, u);
    }
  }

  lemma SweptAcceptable(env: Env, s: State, k: Knowledge, m: Message)
    requires Acceptable(s, k, m)
    ensures Acceptable(Swept(env, s), k, m) && |Swept(env, s).members| == |s.members|
  {
    hide PingReqsFrom, PingsCheck, SuspectsFrom;
    SweepsLeaveSelf(env, s);
  }
}
