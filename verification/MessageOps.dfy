/** Message handlers (src/message.c, src/ping_req.c), the sweep over pings (src/ping.c) and the two threads. */
module MessageOps {
  import opened Types
  import opened Seqs
  import opened Tables
  import opened Protocol
  import opened Invariant
  import opened Preservation
  import opened Continuity
  import opened RoundRobin
  import opened Node
  import R = RingOps
  import U = UpdateOps
  import G = PingOps
  import M = MemberOps

  // ----- receiving -----

  method ExtractMembers(ms: Microswim, m: Message, ghost k: Knowledge)
    requires ms.Valid(k) && MessageOk(ms.Value(), k, m) && Handled(m.kind)
    modifies ms, ms.members, ms.confirmed, ms.updates, ms.pings, ms.indices
    ensures ms.Valid(k) && ms.Value() == Extract(ms.env, old(ms.Value()), m)
  {
    hide Inv, CheckAll, Check;
    ghost var s := ms.Value();
    ghost var es := [m.sender] + m.updates;
    NothingHeard(ms.env, s);
    CheckNext(ms.env, s, es, 0);
    assert es[..0] == [] && es[..1] == [m.sender];
    M.MembersCheck(ms, m.sender, k);
    var i := 0;
    while i < |m.updates|
      invariant i <= |m.updates| && ms.Valid(k)
      invariant ms.Value() == CheckAll(ms.env, s, es[..i + 1])
    {
      CheckNext(ms.env, s, es, i + 1);
      M.MembersCheck(ms, m.updates[i], k);
      i := i + 1;
    }
    assert es[..i + 1] == es;
  }

  lemma CheckNext(env: Env, s: State, es: seq<Entry>, i: nat)
    requires i < |es|
    ensures CheckAll(env, s, es[..i + 1]) == Check(env, CheckAll(env, s, es[..i]), es[i])
  {
    hide Check;
    assert es[..i + 1][..i] == es[..i];
  }

  method PingMessageHandle(ms: Microswim, m: Message, ghost k: Knowledge)
    requires ms.Valid(k) && Named(ms.Value(), k, m.sender)
    modifies ms, ms.members, ms.updates, ms.pings, ms.indices
    ensures ms.Valid(k) && ms.Value() == PingHandle(ms.env, old(ms.Value()), m)
  {
    hide Core, Protocol.MarkAlive, Gossip, Find, Tables.DropPing;
    PingHandleKeeps(ms.env, ms.Value(), k, m);
    GossipKeeps(ms.env.cfg, ms.Value(), k, AckMessage);
    M.Bijection(ms.Value(), k);
    var ack := U.GossipMessage(ms, AckMessage);
    SendKeeps(ms.Value(), k, m.sender.addr, ack);
    ms.MessageSend(m.sender.addr, ack);
    M.HasPings(ms.Value(), k);
    DropPingKeeps(ms.Value(), k, m.sender.uuid);
    G.DropPing(ms, m.sender.uuid);
    var temp := ZERO_ENTRY.(uuid := m.sender.uuid);
    FindKeeps(ms.Value(), k, temp);
    var member := M.MemberFind(ms, temp);
    if member.Some? {
      M.MarkAlive(ms, member.value, k);
    }
  }

  method PingReqMessageHandle(ms: Microswim, m: Message, ghost k: Knowledge)
    requires ms.Valid(k) && MessageOk(ms.Value(), k, m) && Handled(m.kind)
    modifies ms, ms.members, ms.updates, ms.pingReqs
    ensures ms.Valid(k) && ms.Value() == PingReqHandle(ms.env, old(ms.Value()), m)
  {
    hide Core, Gossip, Find, Tables.PingReqAdd, StatusOkBut, Ring;
    PingReqHandleKeeps(ms.env, ms.Value(), k, m);
    var temp := ZERO_ENTRY.(uuid := m.sender.uuid);
    var first := if m.updates == [] then ZERO_ENTRY else m.updates[0];
    FindKeeps(ms.Value(), k, temp);
    var source := M.MemberFind(ms, temp);
    FindKeeps(ms.Value(), k, first);
    var target := M.MemberFind(ms, first);
    if source.None? || target.None? {
      return;
    }
    PassOn(ms, source.value, target.value, k);
  }

  /** Ping the target in our own name and remember who asked. */
  method PassOn(ms: Microswim, source: nat, target: nat, ghost k: Knowledge)
    requires ms.Valid(k) && source < ms.members.Length && target < ms.members.Length
    modifies ms`outbox, ms`pingReqCount, ms`ticks, ms.updates, ms.pingReqs
    ensures ms.Fits()
    ensures var (s1, ping) := Gossip(ms.env.cfg, old(ms.Value()), PingMessage);
      ms.Value() == Tables.PingReqAdd(ms.env, Send(s1, Slot(s1, target).entry.addr, ping), source, target)
  {
    hide Core, Gossip, Tables.PingReqAdd, StatusOkBut, Ring;
    GossipKeeps(ms.env.cfg, ms.Value(), k, PingMessage);
    M.Bijection(ms.Value(), k);
    var ping := U.GossipMessage(ms, PingMessage);
    var to := ms.members[target].entry.addr;
    SendKeeps(ms.Value(), k, to, ping);
    ms.MessageSend(to, ping);
    M.HasPings(ms.Value(), k);
    G.PingReqAdd(ms, source, target);
  }

  /** Answer the indirect pings that wait for u, in the name of their target. */
  method RelayAcks(ms: Microswim, u: Uuid, ghost k: Knowledge)
    requires ms.Valid(k) && u != BLANK
    modifies ms`pingReqCount, ms`outbox, ms.updates, ms.pingReqs
    ensures ms.Valid(k) && ms.Value() == Relay(ms.env, old(ms.Value()), u, 0)
  {
    hide Inv, Relay;
    var i := 0;
    while i < ms.pingReqCount
      invariant ms.Valid(k)
      invariant Relay(ms.env, ms.Value(), u, i) == Relay(ms.env, old(ms.Value()), u, 0)
      decreases ms.pingReqCount - i
    {
      RelayStep(ms.env, ms.Value(), u, i);
      InvPings(ms.Value(), k);
      if ms.members[ms.pingReqs[i].target].entry.uuid == u {
        RelayOne(ms, u, i, k);
      }
      i := i + 1;
    }
    RelayEnd(ms.env, ms.Value(), u, i);
  }

  lemma InvPings(s: State, k: Knowledge)
    requires Inv(s, k)
    ensures PingsOk(s.self.uuid, s.members, s.mc, s.pings) && PingReqsOk(|s.members|, s.pingReqs)
  {
  }

  lemma RelayStep(env: Env, s: State, u: Uuid, i: nat)
    requires i < |s.pingReqs|
    ensures Relay(env, s, u, i) ==
      Relay(env, if Slot(s, s.pingReqs[i].target).entry.uuid == u then Relayed(env, s, i) else s, u, i + 1)
  {
    hide Gossip;
  }

  lemma RelayEnd(env: Env, s: State, u: Uuid, i: nat)
    requires i >= |s.pingReqs|
    ensures Relay(env, s, u, i) == s
  {
  }

  method RelayOne(ms: Microswim, u: Uuid, i: nat, ghost k: Knowledge)
    requires ms.Valid(k) && i < ms.pingReqCount && u != BLANK
    requires Slot(ms.Value(), ms.pingReqs[i].target).entry.uuid == u
    modifies ms`pingReqCount, ms`outbox, ms.updates, ms.pingReqs
    ensures ms.Valid(k) && ms.Value() == Relayed(ms.env, old(ms.Value()), i)
    ensures ms.pingReqCount == old(ms.pingReqCount) - 1
  {
    hide Core, Gossip;
    ghost var s := ms.Value();
    Parts(s, k);
    M.Bijection(s, k);
    GossipKeeps(ms.env.cfg, s, k, AckMessage);
    var pingReq := ms.pingReqs[i];
    assert s.pingReqs[i] == pingReq;
    var ack := U.GossipMessage(ms, AckMessage);
    ack := ack.(sender := ms.members[pingReq.target].entry);
    SendKeeps(ms.Value(), k, ms.members[pingReq.source].entry.addr, ack);
    ms.MessageSend(ms.members[pingReq.source].entry.addr, ack);
    ghost var s2 := ms.Value();
    PingTablesKeep(s2, k, s2.pings, RemoveAt(s2.pingReqs, i), s2.draws, s2.ticks);
    G.PingReqRemove(ms, i);
  }

  method AckMessageHandle(ms: Microswim, m: Message, ghost k: Knowledge)
    requires ms.Valid(k) && m.sender.uuid != BLANK
    modifies ms, ms.members, ms.updates, ms.pings, ms.pingReqs, ms.indices
    ensures ms.Valid(k) && ms.Value() == AckHandle(ms.env, old(ms.Value()), m)
  {
    hide Core, Protocol.MarkAlive, Relay;
    AckHandleKeeps(ms.env, ms.Value(), k, m);
    M.HasPings(ms.Value(), k);
    ghost var s := ms.Value();
    var ping := G.PingFind(ms, m.sender.uuid);
    if ping.Some? && ms.members[ms.pings[ping.value].slot].entry.uuid != BLANK {
      MarkAliveKeeps(ms.env, s, k, s.pings[ping.value].slot);
      SamePings(ms.env, s, s.pings[ping.value].slot);
      M.MarkAlive(ms, ms.pings[ping.value].slot, k);
      RelayKeeps(ms.env, ms.Value(), k, m.sender.uuid, 0);
      RelayAcks(ms, m.sender.uuid, k);
      G.PingRemove(ms, ping.value);
    }
  }

  lemma SamePings(env: Env, s: State, slot: nat)
    ensures Protocol.MarkAlive(env, s, slot).pings == s.pings
  {
  }

  method MessageHandle(ms: Microswim, m: Message, ghost k: Knowledge)
    requires ms.Valid(k) && Acceptable(ms.Value(), k, m)
    modifies ms, ms.members, ms.confirmed, ms.updates, ms.pings, ms.pingReqs, ms.indices
    ensures ms.Valid(k) && ms.Value() == Handle(ms.env, old(ms.Value()), m)
  {
    hide Inv, Extract, PingHandle, PingReqHandle, AckHandle;
    if Handled(m.kind) { ExtractKeeps(ms.env, ms.Value(), k, m); }
    match m.kind
    case PingMessage =>
      ExtractMembers(ms, m, k);
      PingMessageHandle(ms, m, k);
    case PingReqMessage =>
      ExtractMembers(ms, m, k);
      PingReqMessageHandle(ms, m, k);
    case AckMessage =>
      ExtractMembers(ms, m, k);
      AckMessageHandle(ms, m, k);
    case _ =>
  }

  // ----- the sweep over pings -----

  method Ask(ms: Microswim, ping: Ping, helpers: seq<nat>)
    requires ms.Fits() && ping.slot < ms.members.Length
    requires forall j :: 0 <= j < |helpers| ==> helpers[j] < ms.members.Length
    modifies ms`outbox
    ensures ms.Fits() && ms.Value() == AskHelpers(old(ms.Value()), ping, helpers)
  {
    hide AskHelpers;
    ghost var s := ms.Value();
    AskNone(s, ping);
    var j := 0;
    assert helpers[..0] == [];
    while j < |helpers|
      invariant j <= |helpers| && ms.Fits()
      invariant ms.Value() == AskHelpers(s, ping, helpers[..j])
    {
      AskNext(s, ping, helpers, j);
      ms.MessageSend(ms.members[helpers[j]].entry.addr,
                     Message(PingReqMessage, ms.self, [ms.members[ping.slot].entry]));
      j := j + 1;
    }
    assert helpers[..j] == helpers;
  }

  lemma AskNone(s: State, p: Ping)
    ensures AskHelpers(s, p, []) == s
  {
  }

  lemma AskNext(s: State, p: Ping, helpers: seq<nat>, j: nat)
    requires j < |helpers|
    ensures AskHelpers(s, p, helpers[..j + 1]) ==
      Send(AskHelpers(s, p, helpers[..j]), Slot(s, helpers[j]).entry.addr,
           Message(PingReqMessage, s.self, [Slot(s, p.slot).entry]))
  {
    assert helpers[..j + 1][..j] == helpers[..j];
  }

  method ReplaceByLast(ms: Microswim, i: nat)
    requires ms.Fits() && i < ms.pingCount
    modifies ms`pingCount, ms.pings
    ensures ms.Fits() && ms.pingCount == old(ms.pingCount) - 1
    ensures var s, last := old(ms.Value()), ms.pingCount;
      ms.Value() == s.(pings := s.pings[i := s.pings[last]][..last])
  {
    var last := ms.pingCount - 1;
    ghost var ps := ms.pings[..ms.pingCount];
    if i != last {
      ms.pings[i] := ms.pings[last];
    }
    ms.pingCount := ms.pingCount - 1;
    assert ms.pings[..ms.pingCount] == ps[i := ps[last]][..last];
  }

  method CheckPing(ms: Microswim, now: nat, i: nat, ghost k: Knowledge)
    requires ms.Valid(k) && EnvOk(ms.env) && i < ms.pingCount
    modifies ms, ms.members, ms.pings, ms.indices
    ensures ms.Fits() && ms.Value() == PingTurn(ms.env, old(ms.Value()), now, i)
  {
    hide Core, Protocol.MarkSuspect, AskHelpers, StatusOkBut, Ring, SlotsOk, Followed;
    ghost var s := ms.Value();
    Parts(s, k);
    var p := ms.pings[i];
    assert s.pings[i] == p;
    if p.suspectDeadline < now {
      SameTables(ms.env, s, p.slot);
      M.MarkSuspect(ms, p.slot, k);
      ReplaceByLast(ms, i);
    } else if p.pingReqDeadline < now && !p.pingReq {
      var helpers := ms.env.pick(ms.draws, ms.memberCount);
      assert PickOk(helpers, ms.memberCount, ms.env.cfg.group);
      Ask(ms, p, helpers);
      ms.draws := ms.draws + 1;
      if helpers != [] {
        Flag(ms, i, p.(pingReq := true));
      }
    }
  }

  method Flag(ms: Microswim, i: nat, p: Ping)
    requires ms.Fits() && i < ms.pingCount
    modifies ms.pings
    ensures ms.Fits() && ms.Value() == old(ms.Value()).(pings := old(ms.Value()).pings[i := p])
  {
    ghost var ps := ms.pings[..ms.pingCount];
    ms.pings[i] := p;
    assert ms.pings[..ms.pingCount] == ps[i := p];
  }

  method PingsSweep(ms: Microswim, ghost k: Knowledge)
    requires ms.Valid(k) && EnvOk(ms.env)
    modifies ms, ms.members, ms.pings, ms.indices
    ensures ms.Valid(k) && ms.Value() == PingsCheck(ms.env, old(ms.Value()))
  {
    hide Inv, PingsFrom, PingTurn;
    ghost var s := ms.Value();
    TickKeeps(s, k);
    var now := ms.Milliseconds();
    var i := 0;
    while i < ms.pingCount
      invariant ms.Valid(k)
      invariant PingsFrom(ms.env, ms.Value(), now, i) == PingsCheck(ms.env, s)
      decreases ms.pingCount - i
    {
      var expired := ms.pings[i].suspectDeadline < now;
      PingStep(ms.env, ms.Value(), k, now, i);
      assert ms.Value().pings[i] == ms.pings[i];
      CheckPing(ms, now, i, k);
      i := if expired then i else i + 1;
    }
    PingEnd(ms.env, ms.Value(), now, i);
  }

  lemma TickKeeps(s: State, k: Knowledge)
    requires Inv(s, k)
    ensures Inv(s.(ticks := s.ticks + 1), k)
  {
    PingTablesKeep(s, k, s.pings, s.pingReqs, s.draws, s.ticks + 1);
  }

  lemma PingStep(env: Env, s: State, k: Knowledge, now: nat, i: nat)
    requires i < |s.pings| && Inv(s, k)
    ensures PingsFrom(env, s, now, i) ==
      PingsFrom(env, PingTurn(env, s, now, i), now, if s.pings[i].suspectDeadline < now then i else i + 1)
    ensures Inv(PingTurn(env, s, now, i), k)
  {
    PingTurnKeeps(env, s, k, now, i);
  }

  lemma PingEnd(env: Env, s: State, now: nat, i: nat)
    requires i >= |s.pings|
    ensures PingsFrom(env, s, now, i) == s
  {
  }

  // ----- the two threads -----

  /** One turn of the listener, under the lock. */
  method ListenerTurn(ms: Microswim, received: Option<Message>, ghost k: Knowledge)
    requires ms.Valid(k) && RoomToPing(ms.Value()) && EnvOk(ms.env)
    requires received.Some? ==> Acceptable(ms.Value(), k, received.value)
    modifies ms, ms.members, ms.confirmed, ms.updates, ms.pings, ms.pingReqs, ms.indices
    ensures ms.Valid(k) && RoomToPing(ms.Value())
    ensures ms.Value() == Listen(ms.env, old(ms.Value()), received)
  {
    hide Inv, PingReqsFrom, PingsCheck, SuspectsFrom, Handle, RoomToPing;
    ListenCarries(ms.env, ms.Value(), k, received);
    PingReqsKeep(ms.env, ms.Value(), k);
    G.PingReqsCheck(ms);
    PingsSweep(ms, k);
    M.MembersCheckSuspects(ms, k);
    if received.Some? {
      MessageHandle(ms, received.value, k);
    }
  }

  /** Probe the next member in turn. */
  method ProbeNext(ms: Microswim, ghost k: Knowledge)
    requires ms.Valid(k) && RoomToPing(ms.Value())
    modifies ms, ms.updates, ms.pings, ms.indices
    ensures ms.Valid(k) && RoomToPing(ms.Value())
    ensures var (s1, to) := Retrieve(ms.env, old(ms.Value()));
      ms.Value() == if to.Some? then Probe(ms.env, s1, to.value) else s1
  {
    hide Core, Gossip, Retrieve, Tables.PingAdd, Turning, RoomToPing, Telling, StatusOkBut, Ring;
    ghost var s := ms.Value();
    InvTurning(s, k);
    RetrieveKeeps(ms.env, s, k);
    RetrieveCarries(ms.env, s);
    var member := R.MemberRetrieve(ms, ms.memberCount);
    if member.Some? {
      ghost var s1 := ms.Value();
      ProbeKeeps(ms.env, s1, k, member.value);
      ProbeCarries(ms.env, s1, k, member.value);
      GossipKeeps(ms.env.cfg, s1, k, PingMessage);
      GossipCarries(ms.env, s1, k, PingMessage);
      M.Bijection(s1, k);
      var ping := U.GossipMessage(ms, PingMessage);
      var to := ms.members[member.value].entry.addr;
      SendKeeps(ms.Value(), k, to, ping);
      SendCarries(ms.env, ms.Value(), to, ping);
      ms.MessageSend(to, ping);
      M.HasPings(ms.Value(), k);
      RoomForPing(ms.Value(), k, member.value);
      var inRange := G.PingAdd(ms, member.value);
      assert inRange;
    }
  }

  /** One turn of the failure detector, under the lock. */
  method DetectorTurn(ms: Microswim, ghost k: Knowledge)
    requires ms.Valid(k) && RoomToPing(ms.Value())
    modifies ms, ms.updates, ms.pings, ms.indices
    ensures ms.Valid(k) && RoomToPing(ms.Value())
    ensures ms.Value() == Detect(ms.env, old(ms.Value()), ms.env.cfg.fanout)
  {
    hide Inv, Detect, Retrieve, Probe, RoomToPing;
    ghost var s := ms.Value();
    var i := 0;
    DetectNone(ms.env, s);
    while i < ms.env.cfg.fanout
      invariant i <= ms.env.cfg.fanout && ms.Valid(k) && RoomToPing(ms.Value())
      invariant ms.Value() == Detect(ms.env, s, i)
    {
      DetectNext(ms.env, s, i);
      ProbeNext(ms, k);
      i := i + 1;
    }
  }

  lemma DetectNone(env: Env, s: State)
    ensures Detect(env, s, 0) == s
  {
  }

  lemma DetectNext(env: Env, s: State, n: nat)
    ensures var (s1, to) := Retrieve(env, Detect(env, s, n));
      Detect(env, s, n + 1) == if to.Some? then Probe(env, s1, to.value) else s1
  {
    hide Retrieve, Probe;
  }

  /** Start-up: list ourselves, then the seed, known by its address alone. */
  method Start(env: Env, uuid: Uuid, addr: Addr, seed: Addr) returns (ms: Microswim)
    requires env.cfg.maxPings <= env.cfg.maxMembers && env.cfg.maxMembers >= 2 && env.cfg.maxUpdates >= 2
    ensures fresh(ms) && ms.env == env && ms.Fits() && ms.Value() == Boot(env, uuid, addr, seed)
    ensures RoomToPing(ms.Value())
  {
    hide Protocol.AddLive;
    ms := new Microswim(env, uuid, addr);
    Room(env, ms.Value(), ms.self);
    var listed := M.AddLive(ms, ms.self);
    assert listed;
    listed := M.AddLive(ms, Entry(BLANK, seed, Alive, 0));
    assert listed;
  }

  lemma Room(env: Env, s: State, e: Entry)
    requires s.mc < |s.members| && |s.updates| < env.cfg.maxUpdates
    ensures Protocol.AddLive(env, s, e).mc == s.mc + 1
    ensures |Protocol.AddLive(env, s, e).updates| == |s.updates| + 1
  {
  }
}
