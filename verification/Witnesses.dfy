/** Runs that really occur and show what the protocol does not promise. */
module Witnesses {
  import opened Types
  import opened Seqs
  import opened Tables
  import opened Protocol
  import opened Invariant
  import opened Preservation
  import opened RoundRobin
  import opened Runs
  import opened Views
  import opened OwnIncarnation

  // ----- a retrieval that misses the only peer -----

  lemma ZeroRing(env: Env, uuid: Uuid, addr: Addr, seed: Addr)
    requires env.cfg.maxMembers >= 2 && env.cfg.maxUpdates >= 2 && forall i :: env.rand(i) == 0
    ensures var s := Boot(env, uuid, addr, seed); s.rr == 0 && s.indices[0] == 1 && s.indices[1] == 0
  {
    var s0 := Blanked(env, uuid, addr);
    var m0 := MemberAdd(env, s0, s0.self);
    assert IndexAdd(env, m0).indices[0] == 0;
    var s1 := AddLive(env, s0, s0.self);
    var m1 := MemberAdd(env, s1, Entry(BLANK, seed, Alive, 0));
    assert IndexAdd(env, m1).indices[0] == 1 && IndexAdd(env, m1).indices[1] == 0;
  }

  /** Right after start-up and one probe, with random numbers that are all zero, the peer is not found. */
  lemma PeerMissed(env: Env, k: Knowledge, uuid: Uuid, addr: Addr, seed: Addr)
    requires GoodStart(env, k, uuid, addr, seed) && env.cfg.fanout == 1 && forall i :: env.rand(i) == 0
    ensures var s := Run(env, Boot(env, uuid, addr, seed), [Detecting]);
      s.mc == 2 && !IsSelf(s, 1) && Retrieve(env, s).1 == None
  {
    hide Boot, Gossip, PingAdd, Ring, Core;
    var s0 := Boot(env, uuid, addr, seed);
    BootShape(env, uuid, addr, seed);
    ZeroRing(env, uuid, addr, seed);
    BootKeeps(env, k, uuid, addr, seed);
    FirstProbe(env, s0);
    var s := Run(env, s0, [Detecting]);
    assert [Detecting][..0] == [];
    assert Run(env, s0, [Detecting][..0]) == s0;
    DetectKeeps(env, s0, k, 1);
    InvTurning(s, k);
    RetrieveEmptyIff(env, s);
  }

  lemma FirstProbe(env: Env, s: State)
    requires s.mc == 2 && s.rr == 0 && s.indices[0] == 1 && s.indices[1] == 0 && IsSelf(s, 0) && !IsSelf(s, 1)
    ensures var t := Detect(env, s, 1);
      && t.mc == 2 && t.members == s.members && t.self == s.self
      && t.rr == 1 && t.indices == s.indices && t.draws == s.draws
  {
    hide Gossip, PingAdd;
    assert Detect(env, s, 0) == s;
    assert Advance(env, s) == (s.(rr := 1), 1);
    assert RetrieveFrom(env, s, 0, 3) == (s.(rr := 1), Some(1));
  }

  // ----- an incarnation that falls -----

  /** A node that waits for nobody and doubts nobody. */
  ghost predicate Quiet(s: State) {
    && s.pings == [] && s.pingReqs == []
    && 0 < s.mc && s.members[0].entry.uuid == s.self.uuid
    && forall i :: 0 <= i < s.mc ==> s.members[i].entry.status == Alive
  }

  lemma {:induction false} NobodySuspect(env: Env, s: State, i: nat)
    requires Quiet(s)
    ensures SuspectsFrom(env, s, i) == s
    decreases s.mc - i
  {
    hide Confirm;
    if i >= s.mc {
    } else {
      NobodySuspect(env, s, i + 1);
    }
  }

  lemma QuietSweeps(env: Env, s: State)
    requires Quiet(s)
    ensures Swept(env, s) == s.(ticks := s.ticks + 1)
  {
    hide PingTurn, SuspectTurn;
    assert PingReqsFrom(env, s, 0) == s;
    NobodySuspect(env, s.(ticks := s.ticks + 1), 0);
  }

  /** Good news about somebody else. */
  lemma QuietHearsLife(env: Env, s: State, k: Knowledge, e: Entry)
    requires Inv(s, k) && BookOk(k) && Named(s, k, e) && Quiet(s)
    requires e.status == Alive && e.uuid != s.self.uuid
    ensures Quiet(Check(env, s, e)) && Check(env, s, e).self == s.self
  {
    hide Core, UpdateFind, MemberUpdate, AddLive, Find;
    Parts(s, k);
    FindKeeps(s, k, e);
    FindKeepsStatus(s, e);
    var (s1, i) := Find(s, e);
    assert Quiet(s1);
    if i.Some? { QuietUpdate(env, s1, i.value, e); } else { QuietJoins(env, s1, e); }
  }

  lemma QuietUpdate(env: Env, s: State, i: nat, e: Entry)
    requires Quiet(s) && 0 < i < s.mc && e.status == Alive
    ensures Quiet(MemberUpdate(env, s, i, e)) && MemberUpdate(env, s, i, e).self == s.self
  {
    hide DropPing;
    NoPings(Restamp(env, s, i, e.status, e.incarnation), s.members[i].entry.uuid);
  }

  lemma QuietJoins(env: Env, s: State, e: Entry)
    requires Quiet(s) && e.status == Alive
    ensures Quiet(AddLive(env, s, e)) && AddLive(env, s, e).self == s.self
  {
    hide IndexAdd;
    if s.mc < |s.members| { LiveGrows(env, s, e); }
  }

  lemma NoPings(s: State, u: Uuid)
    requires s.pings == []
    ensures DropPing(s, u) == s
  {
  }

  /** Finding an entry of somebody else leaves our own slot and every status alone. */
  lemma FindKeepsStatus(s: State, e: Entry)
    requires Quiet(s) && e.uuid != s.self.uuid && s.self.uuid != BLANK
    ensures var (t, i) := Find(s, e);
      && t == s.(members := t.members) && t.members[0] == s.members[0] && i != Some(0)
      && forall j :: 0 <= j < s.mc ==> t.members[j].entry.status == s.members[j].entry.status
  {
    var i := First(Lives(s), Fits(e));
    assert Lives(s)[0] == s.members[0];
  }

  /** Hearing ourselves suspected. */
  lemma QuietRefutes(env: Env, s: State, e: Entry)
    requires Quiet(s) && e.uuid == s.self.uuid && e.status == Suspect
    ensures Quiet(Check(env, s, e)) && Check(env, s, e).self.incarnation == Succ(e.incarnation)
    ensures Check(env, s, e).self.uuid == s.self.uuid
  {
    hide UpdateFind, Retrieve;
    FirstIs(Lives(s), Fits(e), 0);
    assert s.members[0].(entry := s.members[0].entry.(uuid := e.uuid)) == s.members[0];
  }

  lemma QuietAnswers(env: Env, s: State, k: Knowledge, m: Message)
    requires Inv(s, k) && BookOk(k) && Named(s, k, m.sender) && Quiet(s) && m.sender.uuid != s.self.uuid
    ensures Quiet(PingHandle(env, s, m)) && PingHandle(env, s, m).self == s.self
  {
    hide Core, Gossip, Find, Ring;
    var e := ZERO_ENTRY.(uuid := m.sender.uuid);
    var (s1, ack) := Gossip(env.cfg, s, AckMessage);
    var s2 := Send(s1, m.sender.addr, ack);
    NoPings(s2, m.sender.uuid);
    Parts(s, k);
    FindKeepsStatus(s2, e);
    var (s3, i) := Find(s2, e);
    InRange(s2, e);
  }

  lemma InRange(s: State, e: Entry)
    ensures Find(s, e).1.Some? ==> Find(s, e).1.value < s.mc
  {
  }

  /** A ping from v that passes on a suspicion about us. */
  function Rumour(k: Knowledge, v: Uuid, me: Uuid, incarnation: nat): Message
    requires v in k.book && me in k.book
  {
    Message(PingMessage, Entry(v, k.book[v], Alive, 0), [Entry(me, k.book[me], Suspect, incarnation)])
  }

  lemma RumourRespectsBook(s: State, k: Knowledge, v: Uuid, incarnation: nat)
    requires BookOk(k) && v in k.book && s.self.uuid in k.book && v != s.self.uuid && incarnation in s.incs
    ensures MessageOk(s, k, Rumour(k, v, s.self.uuid, incarnation))
  {
  }

  lemma QuietStep(env: Env, s: State, k: Knowledge, v: Uuid, incarnation: nat)
    requires Inv(s, k) && BookOk(k) && RoomFor(env, k) && |s.members| == env.cfg.maxMembers && Quiet(s)
    requires v in k.book && s.self.uuid in k.book && v != s.self.uuid && incarnation in s.incs
    ensures var t := Step(env, s, Listening(Some(Rumour(k, v, s.self.uuid, incarnation))));
      && Inv(t, k) && Quiet(t) && t.self.uuid == s.self.uuid && |t.members| == |s.members|
      && t.self.incarnation == Succ(incarnation) && t.self.incarnation in t.incs && s.incs <= t.incs
  {
    hide Inv, Swept, Check, CheckAll, PingHandle, Listen, Quiet;
    var m := Rumour(k, v, s.self.uuid, incarnation);
    RumourRespectsBook(s, k, v, incarnation);
    StepKeeps(env, s, k, Listening(Some(m)));
    QuietSweeps(env, s);
    ListenIs(env, s, Some(m));
    var s1 := s.(ticks := s.ticks + 1);
    Ticked(s, k);
    QuietHearsLife(env, s1, k, m.sender);
    CheckKeeps(env, s1, k, m.sender);
    var s2 := Check(env, s1, m.sender);
    QuietRefutes(env, s2, m.updates[0]);
    var s3 := Check(env, s2, m.updates[0]);
    TwoChecks(env, s1, m.sender, m.updates[0]);
    ExtractKeeps(env, s1, k, m);
    QuietAnswers(env, s3, k, m);
    SelfIssued(Step(env, s, Listening(Some(m))), k);
  }

  lemma Ticked(s: State, k: Knowledge)
    requires Inv(s, k) && Quiet(s)
    ensures Inv(s.(ticks := s.ticks + 1), k) && Quiet(s.(ticks := s.ticks + 1))
  {
    PingTablesKeep(s, k, s.pings, s.pingReqs, s.draws, s.ticks + 1);
  }

  lemma TwoChecks(env: Env, s: State, a: Entry, b: Entry)
    ensures CheckAll(env, s, [a] + [b]) == Check(env, Check(env, s, a), b)
  {
    hide Check;
    assert ([a] + [b])[..1] == [a] && [a][..0] == [];
    assert CheckAll(env, s, [a]) == Check(env, CheckAll(env, s, []), a);
  }

  lemma SelfIssued(s: State, k: Knowledge)
    requires Inv(s, k)
    ensures s.self.incarnation in s.incs
  {
  }

  lemma QuietStart(env: Env, k: Knowledge, uuid: Uuid, addr: Addr, seed: Addr)
    requires GoodStart(env, k, uuid, addr, seed)
    ensures Quiet(Boot(env, uuid, addr, seed))
  {
    hide Boot;
    BootShape(env, uuid, addr, seed);
  }

  /**
   * A node hears that it is suspected with incarnation 0, then 1, then 0 again: its own incarnation goes
   * from 0 to 1 to 2 and back to 1, in a run in which every message respects the book.
   */
  lemma IncarnationFalls(env: Env, k: Knowledge, uuid: Uuid, addr: Addr, seed: Addr, v: Uuid)
    requires GoodStart(env, k, uuid, addr, seed) && v in k.book && v != uuid
    ensures var s := Boot(env, uuid, addr, seed);
      var a, b := Listening(Some(Rumour(k, v, uuid, 0))), Listening(Some(Rumour(k, v, uuid, 1)));
      && AdmissibleRun(env, s, k, [a, b, a])
      && Run(env, s, [a, b]).self.incarnation == 2
      && Run(env, s, [a, b, a]).self.incarnation == 1
  {
    hide Inv, Boot, Step, Quiet, MessageOk;
    var s := Boot(env, uuid, addr, seed);
    var a, b := Listening(Some(Rumour(k, v, uuid, 0))), Listening(Some(Rumour(k, v, uuid, 1)));
    BootShape(env, uuid, addr, seed);
    BootKeeps(env, k, uuid, addr, seed);
    QuietStart(env, k, uuid, addr, seed);
    QuietStep(env, s, k, v, 0);
    var s1 := Step(env, s, a);
    QuietStep(env, s1, k, v, 1);
    var s2 := Step(env, s1, b);
    QuietStep(env, s2, k, v, 0);
    ThreeSteps(env, s, a, b, a);
    RumourRespectsBook(s, k, v, 0);
    RumourRespectsBook(s1, k, v, 1);
    RumourRespectsBook(s2, k, v, 0);
  }

  lemma ThreeSteps(env: Env, s: State, a: Event, b: Event, c: Event)
    ensures Run(env, s, [a, b, c][..0]) == s
    ensures Run(env, s, [a, b, c][..1]) == Step(env, s, a)
    ensures Run(env, s, [a, b, c][..2]) == Run(env, s, [a, b]) == Step(env, Step(env, s, a), b)
    ensures Run(env, s, [a, b, c]) == Step(env, Step(env, Step(env, s, a), b), c)
  {
    hide Step;
    assert [a, b, c][..2] == [a, b] && [a, b][..1] == [a] && [a][..0] == [] && [a, b, c][..1] == [a];
    assert Run(env, s, [a]) == Step(env, s, a);
  }
}
