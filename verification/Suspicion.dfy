/**
 * No premature confirmation: a member that the local sweep confirms has been listed as suspect,
 * untouched, through the whole last suspicion timeout.
 */
module Suspicion {
  import opened Types
  import opened Seqs
  import opened Tables
  import opened Protocol
  import opened Invariant
  import opened Preservation
  import opened Runs
  import opened Views

  /** m is one of the live members, with this very status, incarnation and timer. */
  ghost predicate Listed(s: State, m: Member) {
    exists i :: 0 <= i < s.mc && s.members[i] == m
  }

  /** A suspect of t was already a suspect of s with the same record, or its timer started after the reading `since`. */
  ghost predicate Held(s: State, t: State, bound: nat) {
    forall j :: 0 <= j < t.mc && t.members[j].entry.status == Suspect ==>
      Listed(s, t.members[j]) || t.members[j].timeout >= bound
  }

  /** From s to t no suspicion was backdated: new ones run out a full timeout after the clock of s. */
  ghost predicate Honest(env: Env, s: State, t: State) {
    s.ticks <= t.ticks && Held(s, t, env.clock(s.ticks) + env.cfg.suspectMs)
  }

  lemma HonestTrans(env: Env, s: State, t: State, r: State)
    requires MonotoneClock(env) && Honest(env, s, t) && Honest(env, t, r)
    ensures Honest(env, s, r)
  {
    assert env.clock(s.ticks) <= env.clock(t.ticks);
    forall j | 0 <= j < r.mc && r.members[j].entry.status == Suspect
      ensures Listed(s, r.members[j]) || r.members[j].timeout >= env.clock(s.ticks) + env.cfg.suspectMs
    {
      if Listed(t, r.members[j]) {
        var i :| 0 <= i < t.mc && t.members[i] == r.members[j];
        assert Listed(s, t.members[i]) || t.members[i].timeout >= env.clock(s.ticks) + env.cfg.suspectMs;
      }
    }
  }

  lemma SameMembersHonest(env: Env, s: State, t: State)
    requires t.members == s.members && t.mc == s.mc && s.ticks <= t.ticks
    ensures Honest(env, s, t)
  {
    forall j | 0 <= j < t.mc ensures Listed(s, t.members[j]) { assert s.members[j] == t.members[j]; }
  }

  /** One slot is overwritten by a member that is not suspect, or freshly so. */
  lemma SlotHonest(env: Env, s: State, t: State, i: nat)
    requires t.mc == s.mc && |t.members| == |s.members| && s.ticks <= t.ticks
    requires forall j :: 0 <= j < s.mc && j != i ==> t.members[j] == s.members[j]
    requires i < s.mc && t.members[i].entry.status == Suspect ==>
      t.members[i].timeout >= env.clock(s.ticks) + env.cfg.suspectMs
    ensures Honest(env, s, t)
  {
    forall j | 0 <= j < t.mc && j != i ensures Listed(s, t.members[j]) { assert s.members[j] == t.members[j]; }
  }

  // ----- the operations -----

  lemma AnnounceOnlyPosts(env: Env, s: State, kind: Kind, e: Entry)
    ensures var t := Announce(env, s, kind, e);
      t.members == s.members && t.mc == s.mc && t.ticks == s.ticks && t.confirmed == s.confirmed
  {
  }

  lemma MarkAliveHonest(env: Env, s: State, i: nat)
    ensures Honest(env, s, MarkAlive(env, s, i))
  {
    hide Announce;
    var s1 := Restamp(env, s, i, Alive, Slot(s, i).entry.incarnation);
    AnnounceOnlyPosts(env, s1, AliveMessage, Slot(s1, i).entry);
    SlotHonest(env, s, MarkAlive(env, s, i), i);
  }

  lemma MarkSuspectHonest(env: Env, s: State, i: nat)
    ensures Honest(env, s, MarkSuspect(env, s, i))
  {
    hide Announce;
    if Slot(s, i).entry.status == Alive {
      var s1 := Restamp(env, s, i, Suspect, Slot(s, i).entry.incarnation);
      AnnounceOnlyPosts(env, s1, SuspectMessage, Slot(s1, i).entry);
      SlotHonest(env, s, MarkSuspect(env, s, i), i);
    } else {
      SameMembersHonest(env, s, s);
    }
  }

  lemma ConfirmHonest(env: Env, s: State, i: nat)
    requires i < s.mc
    ensures Honest(env, s, Confirm(env, s, i))
  {
    hide Confirm;
    ConfirmShape(env, s, i);
    var t := Confirm(env, s, i);
    forall j | 0 <= j < t.mc ensures Listed(s, t.members[j]) {
      assert s.members[if j < i then j else j + 1] == t.members[j];
    }
  }

  lemma FindHonest(env: Env, s: State, k: Knowledge, e: Entry)
    requires Core(s, k)
    ensures Honest(env, s, Find(s, e).0)
  {
    hide UniqueUuids, Followed, SlotsOk, SelfListed, PingsOk, OutboxOk;
    var i := First(Lives(s), Fits(e));
    if i.Some? {
      var m := s.members[i.value];
      if m.entry.uuid == e.uuid {
        assert m == m.(entry := m.entry.(uuid := e.uuid));
        SameMembersHonest(env, s, Find(s, e).0);
      } else {
        assert SeedAt(s.self.uuid, k, s.members, s.mc, s.confirmed, i.value);
        SlotHonest(env, s, Find(s, e).0, i.value);
      }
    } else {
      SameMembersHonest(env, s, s);
    }
  }

  lemma UpdateHonest(env: Env, s: State, i: nat, e: Entry)
    requires MonotoneClock(env) && i < s.mc
    ensures Honest(env, s, MemberUpdate(env, s, i, e))
  {
    hide Announce, Confirm, DropPing, MonotoneClock;
    var x := s.members[i].entry;
    var t := MemberUpdate(env, s, i, e);
    if e.uuid == s.self.uuid && e.status == Suspect {
      SlotHonest(env, s, t, i);
    } else if Overrides(e.status, e.incarnation, x) {
      if e.status == Confirmed {
        var m := s.members[i].(entry := x.(status := Confirmed, incarnation := e.incarnation));
        var s1 := DropPing(SetSlot(s, i, m), x.uuid);
        SlotHonest(env, s, s1, i);
        ConfirmHonest(env, s1, i);
        HonestTrans(env, s, s1, t);
      } else {
        SlotHonest(env, s, t, i);
      }
    } else {
      SameMembersHonest(env, s, s);
    }
  }

  lemma AddLiveHonest(env: Env, s: State, e: Entry)
    ensures Honest(env, s, AddLive(env, s, e))
  {
    if s.mc < |s.members| {
      LiveGrows(env, s, e);
      var t := AddLive(env, s, e);
      forall j | 0 <= j < s.mc ensures Listed(s, t.members[j]) { assert s.members[j] == t.members[j]; }
      TicksGrow(env, s, e);
    } else {
      SameMembersHonest(env, s, s);
    }
  }

  lemma TicksGrow(env: Env, s: State, e: Entry)
    ensures s.ticks <= AddLive(env, s, e).ticks
  {
  }

  lemma CheckHonest(env: Env, s: State, k: Knowledge, e: Entry)
    requires MonotoneClock(env) && Inv(s, k) && BookOk(k) && Named(s, k, e)
    ensures Honest(env, s, Check(env, s, e))
  {
    hide Core, MemberUpdate, AddLive, Find, MonotoneClock;
    FindKeeps(s, k, e);
    FindHonest(env, s, k, e);
    var (s1, i) := Find(s, e);
    var t := Check(env, s, e);
    if i.None? {
      if ConfirmedFind(s1, e.uuid).None? && e.status != Confirmed {
        AddLiveHonest(env, s1, e);
      } else {
        SameMembersHonest(env, s1, t);
      }
      HonestTrans(env, s, s1, t);
    } else {
      UpdateHonest(env, s1, i.value, e);
      var s2 := MemberUpdate(env, s1, i.value, e);
      HonestTrans(env, s, s1, s2);
      SameMembersHonest(env, s2, t);
      HonestTrans(env, s, s2, t);
    }
  }

  lemma {:induction false} CheckAllHonest(env: Env, s: State, k: Knowledge, es: seq<Entry>)
    requires MonotoneClock(env) && Inv(s, k) && BookOk(k) && RoomFor(env, k) && |s.members| == env.cfg.maxMembers
    requires forall i :: 0 <= i < |es| ==> Named(s, k, es[i])
    ensures Honest(env, s, CheckAll(env, s, es))
  {
    hide Inv, Check, MonotoneClock, Honest;
    if es == [] {
      SameMembersHonest(env, s, s);
    } else {
      var n := |es| - 1;
      CheckAllHonest(env, s, k, es[..n]);
      CheckAllKeeps(env, s, k, es[..n]);
      var s1 := CheckAll(env, s, es[..n]);
      CheckHonest(env, s1, k, es[n]);
      HonestTrans(env, s, s1, Check(env, s1, es[n]));
    }
  }

  lemma PingHandleHonest(env: Env, s: State, k: Knowledge, m: Message)
    requires MonotoneClock(env) && Inv(s, k) && BookOk(k) && Named(s, k, m.sender)
    ensures Honest(env, s, PingHandle(env, s, m))
  {
    hide Core, MarkAlive, Gossip, Find, Honest, MonotoneClock;
    var (s1, ack) := Gossip(env.cfg, s, AckMessage);
    GossipKeeps(env.cfg, s, k, AckMessage);
    SendKeeps(s1, k, m.sender.addr, ack);
    DropPingKeeps(Send(s1, m.sender.addr, ack), k, m.sender.uuid);
    var s2 := DropPing(Send(s1, m.sender.addr, ack), m.sender.uuid);
    SameMembersHonest(env, s, s2);
    var e := ZERO_ENTRY.(uuid := m.sender.uuid);
    FindHonest(env, s2, k, e);
    var (s3, i) := Find(s2, e);
    HonestTrans(env, s, s2, s3);
    if i.Some? {
      MarkAliveHonest(env, s3, i.value);
      HonestTrans(env, s, s3, MarkAlive(env, s3, i.value));
    }
  }

  lemma PingReqHandleHonest(env: Env, s: State, k: Knowledge, m: Message)
    requires MonotoneClock(env) && Inv(s, k) && BookOk(k) && MessageOk(s, k, m) && Handled(m.kind)
    ensures Honest(env, s, PingReqHandle(env, s, m))
  {
    hide Core, Gossip, Find, Honest, PingReqAdd, MonotoneClock;
    var a := ZERO_ENTRY.(uuid := m.sender.uuid);
    var b := if m.updates == [] then ZERO_ENTRY else m.updates[0];
    FindKeeps(s, k, a);
    FindHonest(env, s, k, a);
    var (s1, source) := Find(s, a);
    FindHonest(env, s1, k, b);
    var (s2, target) := Find(s1, b);
    HonestTrans(env, s, s1, s2);
    SameMembersHonest(env, s2, PingReqHandle(env, s, m));
    HonestTrans(env, s, s2, PingReqHandle(env, s, m));
  }

  lemma AckHandleHonest(env: Env, s: State, m: Message)
    requires MonotoneClock(env)
    ensures Honest(env, s, AckHandle(env, s, m))
  {
    hide MarkAlive, Relay, Honest, MonotoneClock;
    var p := PingFind(s, m.sender.uuid);
    var t := AckHandle(env, s, m);
    if p.None? || Slot(s, s.pings[p.value].slot).entry.uuid == BLANK {
      SameMembersHonest(env, s, s);
    } else {
      var s1 := MarkAlive(env, s, s.pings[p.value].slot);
      MarkAliveHonest(env, s, s.pings[p.value].slot);
      SameMembersHonest(env, s1, t);
      HonestTrans(env, s, s1, t);
    }
  }

  lemma HandleHonest(env: Env, s: State, k: Knowledge, m: Message)
    requires MonotoneClock(env) && Inv(s, k) && BookOk(k) && RoomFor(env, k) && |s.members| == env.cfg.maxMembers
    requires Acceptable(s, k, m)
    ensures Honest(env, s, Handle(env, s, m))
  {
    hide Inv, CheckAll, PingHandle, PingReqHandle, AckHandle, Honest, MonotoneClock;
    if Handled(m.kind) {
      CheckAllHonest(env, s, k, [m.sender] + m.updates);
      ExtractKeeps(env, s, k, m);
      var s1 := Extract(env, s, m);
      match m.kind {
        case PingMessage => PingHandleHonest(env, s1, k, m);
        case PingReqMessage => PingReqHandleHonest(env, s1, k, m);
        case AckMessage => AckHandleHonest(env, s1, m);
        case _ =>
      }
      HonestTrans(env, s, s1, Handle(env, s, m));
    } else {
      SameMembersHonest(env, s, s);
    }
  }

  lemma PingTurnHonest(env: Env, s: State, now: nat, i: nat)
    requires i < |s.pings|
    ensures Honest(env, s, PingTurn(env, s, now, i))
  {
    hide MarkSuspect, AskHelpers;
    var p := s.pings[i];
    if p.suspectDeadline < now {
      MarkSuspectHonest(env, s, p.slot);
      assert PingTurn(env, s, now, i).members == MarkSuspect(env, s, p.slot).members;
    } else {
      SameMembersHonest(env, s, PingTurn(env, s, now, i));
    }
  }

  lemma {:induction false} PingsFromHonest(env: Env, s: State, now: nat, i: nat)
    requires MonotoneClock(env)
    ensures Honest(env, s, PingsFrom(env, s, now, i))
    decreases |s.pings| - i
  {
    hide PingTurn, Honest, MonotoneClock;
    if i < |s.pings| {
      var t := PingTurn(env, s, now, i);
      PingTurnHonest(env, s, now, i);
      PingsFromHonest(env, t, now, if s.pings[i].suspectDeadline < now then i else i + 1);
      HonestTrans(env, s, t, PingsFrom(env, s, now, i));
    } else {
      SameMembersHonest(env, s, s);
    }
  }

  lemma SuspectTurnHonest(env: Env, s: State, i: nat)
    requires MonotoneClock(env) && i < s.mc
    ensures Honest(env, s, SuspectTurn(env, s, i))
  {
    hide Confirm, Honest, MonotoneClock;
    var s1 := s.(ticks := s.ticks + 1);
    SameMembersHonest(env, s, s1);
    SameMembersHonest(env, s, s);
    ConfirmHonest(env, s1, i);
    HonestTrans(env, s, s1, Confirm(env, s1, i));
  }

  // ----- the sweep, turn by turn -----

  /** The node as the sweep over suspects, begun in s, reaches slot i. */
  function SweepTo(env: Env, s: State, i: nat): State {
    if i == 0 then s
    else
      var s1 := SweepTo(env, s, i - 1);
      if i - 1 < s1.mc then SuspectTurn(env, s1, i - 1) else s1
  }

  lemma {:induction false} SweepToHonest(env: Env, s: State, i: nat)
    requires MonotoneClock(env)
    ensures Honest(env, s, SweepTo(env, s, i))
  {
    hide SuspectTurn, Honest, MonotoneClock;
    if i == 0 {
      SameMembersHonest(env, s, s);
    } else {
      SweepToHonest(env, s, i - 1);
      var s1 := SweepTo(env, s, i - 1);
      if i - 1 < s1.mc {
        SuspectTurnHonest(env, s1, i - 1);
        HonestTrans(env, s, s1, SuspectTurn(env, s1, i - 1));
      }
    }
  }

  /** The sweep is its turns: after as many of them as there were slots, it is over. */
  lemma {:induction false} SweepIsTurns(env: Env, s: State, i: nat, n: nat)
    requires i <= n && SweepTo(env, s, i).mc <= n
    ensures SuspectsFrom(env, SweepTo(env, s, i), i) == SweepTo(env, s, n)
    decreases n - i
  {
    hide SuspectTurn;
    var s1 := SweepTo(env, s, i);
    if i >= n {
    } else {
      assert SweepTo(env, s, i + 1) == if i < s1.mc then SuspectTurn(env, s1, i) else s1;
      SweepIsTurns(env, s, i + 1, n);
    }
  }

  /** The node when the sweep over suspects begins in a step from s. */
  function SweepStart(env: Env, s: State): State {
    PingsCheck(env, PingReqsFrom(env, s, 0))
  }

  lemma SweepStartHonest(env: Env, s: State)
    requires MonotoneClock(env)
    ensures Honest(env, s, SweepStart(env, s))
  {
    hide PingsFrom, PingReqsFrom, Honest, MonotoneClock;
    var s1 := PingReqsFrom(env, s, 0);
    var s2 := s1.(ticks := s1.ticks + 1);
    SameMembersHonest(env, s, s2);
    PingsFromHonest(env, s2, Now(env, s1), 0);
    HonestTrans(env, s, s2, SweepStart(env, s));
  }

  lemma DetectOnlyProbes(env: Env, s: State, n: nat)
    ensures var t := Detect(env, s, n); t.members == s.members && t.mc == s.mc
  {
    hide Retrieve, Gossip, PingAdd;
    if n > 0 { DetectOnlyProbes(env, s, n - 1); }
  }

  lemma StepHonest(env: Env, s: State, k: Knowledge, e: Event)
    requires MonotoneClock(env) && Inv(s, k) && BookOk(k) && RoomFor(env, k) && |s.members| == env.cfg.maxMembers
    requires Admissible(s, k, e)
    ensures Honest(env, s, Step(env, s, e))
  {
    hide Inv, PingReqsFrom, PingsCheck, SuspectsFrom, Handle, Detect, Honest, MonotoneClock, SweepTo;
    match e
    case Detecting =>
      DetectOnlyProbes(env, s, env.cfg.fanout);
      SameMembersHonest(env, s, Detect(env, s, env.cfg.fanout));
    case Listening(m) =>
      var p := SweepStart(env, s);
      SweepStartHonest(env, s);
      SweepBegins(env, p);
      SweepIsTurns(env, p, 0, p.mc);
      SweepToHonest(env, p, p.mc);
      var s1 := SuspectsFrom(env, p, 0);
      HonestTrans(env, s, p, s1);
      if m.Some? {
        PingReqsKeep(env, s, k);
        PingsCheckKeeps(env, PingReqsFrom(env, s, 0), k);
        SuspectsFromKeeps(env, p, k, 0);
        HandleHonest(env, s1, k, m.value);
        HonestTrans(env, s, s1, Handle(env, s1, m.value));
      }
  }

  lemma SweepBegins(env: Env, s: State)
    ensures SweepTo(env, s, 0) == s
  {
  }

  // ----- whole runs -----

  lemma ClockGrows(env: Env, s: State, es: seq<Event>, j: nat)
    requires MonotoneClock(env) && j <= |es|
    ensures env.clock(Run(env, s, es[..j]).ticks) <= env.clock(Run(env, s, es).ticks)
  {
    hide Run;
    assert es[..j] + es[j..] == es;
    RunsCompose(env, s, es[..j], es[j..]);
  }

  lemma {:induction false} ListedBefore(env: Env, s: State, k: Knowledge, es: seq<Event>, j: nat, m: Member, t: nat)
    requires MonotoneClock(env) && Inv(s, k) && BookOk(k) && RoomFor(env, k) && |s.members| == env.cfg.maxMembers
    requires AdmissibleRun(env, s, k, es) && j <= |es|
    requires Listed(Run(env, s, es), m) && m.entry.status == Suspect && m.timeout < t
    requires t <= env.clock(Run(env, s, es[..j]).ticks) + env.cfg.suspectMs
    ensures Listed(Run(env, s, es[..j]), m)
    decreases |es|
  {
    hide Inv, Step, AdmissibleRun, Listed, MonotoneClock, Honest;
    var n := |es|;
    if j == n {
      assert es[..j] == es;
    } else {
      var s1 := Run(env, s, es[..n - 1]);
      assert es[..n - 1][..j] == es[..j];
      ClockGrows(env, s, es[..n - 1], j);
      PrefixAdmissible(env, s, k, es, n - 1);
      RunKeeps(env, s, k, es[..n - 1]);
      LastAdmissible(env, s, k, es);
      StepHonest(env, s1, k, es[n - 1]);
      HeldBack(env, s1, Run(env, s, es), m, t);
      ListedBefore(env, s, k, es[..n - 1], j, m, t);
    }
  }

  lemma HeldBack(env: Env, s: State, t: State, m: Member, time: nat)
    requires Honest(env, s, t) && Listed(t, m) && m.entry.status == Suspect
    requires m.timeout < time <= env.clock(s.ticks) + env.cfg.suspectMs
    ensures Listed(s, m)
  {
    var i :| 0 <= i < t.mc && t.members[i] == m;
  }

  /**
   * Suppose that, after any run, the sweep of the next listener turn confirms slot i at clock
   * reading t. Then the record of that member (suspect, same incarnation, same timer) stood
   * among the live members in every earlier state whose clock was within the last suspicion
   * timeout before t: nothing alive was accepted and the suspicion was not renewed meanwhile.
   */
  lemma NoPrematureConfirmation(env: Env, s: State, k: Knowledge, es: seq<Event>, i: nat, j: nat)
    requires MonotoneClock(env) && Inv(s, k) && BookOk(k) && RoomFor(env, k) && |s.members| == env.cfg.maxMembers
    requires AdmissibleRun(env, s, k, es) && j <= |es|
    requires var x := SweepTo(env, SweepStart(env, Run(env, s, es)), i);
      && i < x.mc && x.members[i].entry.status == Suspect
      && x.members[i].timeout < Now(env, x)
      && Now(env, x) <= env.clock(Run(env, s, es[..j]).ticks) + env.cfg.suspectMs
    ensures Listed(Run(env, s, es[..j]), SweepTo(env, SweepStart(env, Run(env, s, es)), i).members[i])
  {
    hide Inv, SweepTo, SweepStart, AdmissibleRun, Run;
    var last := Run(env, s, es);
    var p := SweepStart(env, last);
    var x := SweepTo(env, p, i);
    SweepStartHonest(env, last);
    SweepToHonest(env, p, i);
    HonestTrans(env, last, p, x);
    ClockGrows(env, s, es, j);
    assert x.members[i] == x.members[i];
    HeldBack(env, last, x, x.members[i], Now(env, x));
    ListedBefore(env, s, k, es, j, x.members[i], Now(env, x));
  }
}
