/**
 * Whole runs in which nothing is heard: in each phase of two passes of the ring and one late listener turn
 * somebody comes nearer to confirmation, so that all named peers are confirmed in the end, and nobody else.
 */
module Completeness {
  import opened Types
  import opened Tables
  import opened Protocol
  import opened Invariant
  import opened Preservation
  import opened RoundRobin
  import opened Runs
  import opened Views
  import opened Continuity
  import opened AddressBook
  import opened Detection

  // ----- runs in which nothing is heard -----

  /** A turn in which no message is received that is acted upon. */
  predicate Silent(e: Event) {
    e.Listening? && e.received.Some? ==> !Handled(e.received.value.kind)
  }

  predicate AllSilent(es: seq<Event>) {
    forall i :: 0 <= i < |es| ==> Silent(es[i])
  }

  function ProbesOf(e: Event): nat {
    if e.Detecting? then 1 else 0
  }

  /** How many turns of the failure detector there are among the events. */
  function Probes(es: seq<Event>): nat {
    if es == [] then 0 else Probes(es[..|es| - 1]) + ProbesOf(es[|es| - 1])
  }

  /** Nothing has changed but that somebody is waited for, or the cursor is n positions nearer to x. */
  predicate Nearer(s: State, t: State, x: nat, n: nat) {
    && Still(s, t) && s.rr <= s.mc && t.rr <= t.mc
    && (s.pings != [] ==> t.pings != [])
    && (t.pings != [] || Distance(t, x) + n <= Distance(s, x))
  }

  lemma NearerThen(s: State, t: State, r: State, x: nat, m: nat, n: nat)
    requires Nearer(s, t, x, m) && Nearer(t, r, x, n)
    ensures Nearer(s, r, x, m + n)
  {
    hide Distance, Strays;
  }

  lemma StillThen(s: State, t: State, r: State)
    requires Still(s, t)
    ensures Still(t, r) ==> Still(s, r)
    ensures Lighter(t, r) ==> Lighter(s, r)
  {
    StillNoHeavier(s, t);
  }

  lemma SilentListens(env: Env, s: State, e: Event)
    requires Silent(e) && e.Listening?
    ensures Step(env, s, e) == Listen(env, s, None)
  {
    hide PingsCheck, SuspectsFrom, PingReqsFrom;
  }

  lemma SilentStep(env: Env, s: State, k: Knowledge, e: Event)
    requires Inv(s, k) && Silent(e)
    ensures Lighter(s, Step(env, s, e)) || Still(s, Step(env, s, e))
  {
    hide Inv, Listen, Detect, Lighter, Strays;
    match e
    case Listening(_) => SilentListens(env, s, e); ListenWeighs(env, s, k);
    case Detecting => DetectStill(env, s, k, env.cfg.fanout);
  }

  lemma SilentStepNears(env: Env, s: State, k: Knowledge, e: Event, x: nat)
    requires Inv(s, k) && Silent(e) && IsPeer(s, x) && NoSuspect(s) && env.cfg.fanout >= 1
    ensures var t := Step(env, s, e); Lighter(s, t) || Nearer(s, t, x, ProbesOf(e))
  {
    hide Core, Listen, Detect, Lighter, Strays, IsPeer, NoSuspect, Distance;
    match e
    case Listening(_) =>
      SilentListens(env, s, e);
      ListenWeighs(env, s, k);
      var t := Listen(env, s, None);
      if !Lighter(s, t) { SameDistance(s, t, x); }
    case Detecting => DetectNears(env, s, k, x, env.cfg.fanout);
  }

  lemma SilentAdmissible(env: Env, s: State, k: Knowledge, es: seq<Event>)
    requires AllSilent(es)
    ensures AdmissibleRun(env, s, k, es)
  {
    hide Run;
  }

  /** As long as no message is taken in, no turn adds to what is left to do. */
  lemma {:induction false} SilentRun(env: Env, s: State, k: Knowledge, es: seq<Event>)
    requires Inv(s, k) && BookOk(k) && RoomFor(env, k) && |s.members| == env.cfg.maxMembers && AllSilent(es)
    ensures Inv(Run(env, s, es), k)
    ensures Lighter(s, Run(env, s, es)) || Still(s, Run(env, s, es))
  {
    hide Inv, Step, Lighter, Still;
    if es == [] {
      StillItself(s);
    } else {
      var n := |es| - 1;
      var t := Run(env, s, es[..n]);
      SilentRun(env, s, k, es[..n]);
      SilentStep(env, t, k, es[n]);
      SilentAdmissible(env, s, k, es);
      RunKeeps(env, s, k, es);
      WeightFalls(s, t, Run(env, s, es));
    }
  }

  lemma StillItself(s: State)
    ensures Still(s, s)
  {
  }

  lemma WeightFalls(s: State, t: State, r: State)
    requires Lighter(s, t) || Still(s, t)
    requires Lighter(t, r) || Still(t, r)
    ensures Lighter(s, r) || Still(s, r)
    ensures Lighter(s, t) || Lighter(t, r) ==> Lighter(s, r)
  {
    hide Still;
    if Still(s, t) { StillThen(s, t, r); }
    if Still(t, r) { StillNoHeavier(t, r); }
    if Lighter(s, t) {
      if !Still(t, r) { LighterNoHeavier(t, r); }
      LighterThen(s, t, r);
    }
  }

  /** As long as nobody is suspected, turns of the detector come nearer to any peer until somebody is waited for. */
  lemma {:induction false} SilentRunNears(env: Env, s: State, k: Knowledge, es: seq<Event>, x: nat)
    requires Inv(s, k) && BookOk(k) && RoomFor(env, k) && |s.members| == env.cfg.maxMembers && AllSilent(es)
    requires IsPeer(s, x) && NoSuspect(s) && env.cfg.fanout >= 1
    ensures Lighter(s, Run(env, s, es)) || Nearer(s, Run(env, s, es), x, Probes(es))
  {
    hide Core, Step, Lighter, Strays, IsPeer, NoSuspect, Nearer;
    if es == [] {
      NearerItself(s, x);
    } else {
      var n := |es| - 1;
      var t, r := Run(env, s, es[..n]), Run(env, s, es);
      SilentRun(env, s, k, es[..n]);
      SilentRunNears(env, s, k, es[..n], x);
      SilentStep(env, t, k, es[n]);
      if Lighter(s, t) {
        WeightFalls(s, t, r);
      } else {
        StillPeers(s, t, x);
        SilentStepNears(env, t, k, es[n], x);
        if Lighter(t, r) { StillThen(s, t, r); } else { NearerThen(s, t, r, x, Probes(es[..n]), ProbesOf(es[n])); }
      }
    }
  }

  lemma NearerItself(s: State, x: nat)
    requires s.rr <= s.mc
    ensures Nearer(s, s, x, 0)
  {
  }

  lemma StillPeers(s: State, t: State, x: nat)
    requires Still(s, t)
    ensures IsPeer(t, x) == IsPeer(s, x) && NoSuspect(t) == NoSuspect(s)
  {
  }

  // ----- phases -----

  /** Something is left to do only where there is a suspect or a named peer. */
  lemma SomethingLeft(s: State) returns (x: nat)
    requires s.mc <= |s.members| && Load(s) > 0 && NoSuspect(s)
    ensures IsPeer(s, x)
  {
    x := SumPositive(Lives(s), Due(s.self.uuid));
    assert Lives(s)[x] == s.members[x];
  }

  /**
   * Two passes of the ring and a listener turn behind all deadlines bring the node nearer to having confirmed
   * everybody, whatever other turns there are in between.
   */
  lemma PhaseLightens(env: Env, s: State, k: Knowledge, es: seq<Event>)
    requires Inv(s, k) && BookOk(k) && RoomFor(env, k) && |s.members| == env.cfg.maxMembers && AllSilent(es)
    requires MonotoneClock(env) && env.cfg.fanout >= 1
    requires Probes(es) >= 2 * |k.book| && Late(env, Run(env, s, es)) && Load(s) > 0
    ensures Lighter(s, Listen(env, Run(env, s, es), None))
  {
    hide Inv, Run, Listen, Lighter, Still, IsPeer, NoSuspect, Late, MonotoneClock, Load;
    var t := Run(env, s, es);
    SilentRun(env, s, k, es);
    SilentStep(env, t, k, Listening(None));
    if Lighter(s, t) {
      WeightFalls(s, t, Listen(env, t, None));
    } else {
      StillPeers(s, t, 0);
      if NoSuspect(s) {
        SlotsFit(s, k);
        var x := SomethingLeft(s);
        SilentRunNears(env, s, k, es, x);
        InReach(s, k, x);
        NearEnough(s, t, x, Probes(es));
      }
      LateListenLightens(env, t, k);
      StillThen(s, t, Listen(env, t, None));
    }
  }

  lemma SlotsFit(s: State, k: Knowledge)
    requires Inv(s, k)
    ensures s.mc <= |s.members|
  {
  }

  lemma InReach(s: State, k: Knowledge, x: nat)
    requires Inv(s, k) && BookOk(k) && IsPeer(s, x)
    ensures s.rr < s.mc && Distance(s, x) < 2 * |k.book|
  {
    hide Core, Ring, Distance;
    InvTurning(s, k);
    PlaceHolds(s, x);
    Capacity(s, k);
  }

  lemma NearEnough(s: State, t: State, x: nat, n: nat)
    requires Nearer(s, t, x, n) && Distance(s, x) < n
    ensures t.pings != []
  {
    hide Distance;
  }

  /** One number for both: n bounds the pings. */
  function Weight(s: State, n: nat): nat {
    Times(Load(s), n + 1) + Strays(s)
  }

  lemma {:induction false} TimesRises(a: nat, b: nat, m: nat)
    requires a <= b
    ensures Times(a, m) <= Times(b, m)
    decreases b
  {
    hide Times;
    if a >= b {
    } else {
      TimesRises(a, b - 1, m);
      TimesNext(b - 1, m);
    }
  }

  lemma TimesAtLeast(a: nat, m: nat)
    requires m > 0
    ensures a <= Times(a, m)
  {
    assert a * 1 <= a * m;
  }

  lemma StraysFit(s: State, k: Knowledge)
    requires Inv(s, k) && BookOk(k) && RoomToPing(s)
    ensures Strays(s) <= |k.book|
  {
    hide Core, StatusOk, Ring, Sum;
    Capacity(s, k);
    ProbedFits(s.pings, s.mc);
    StraysCounted(s);
  }

  lemma StraysCounted(s: State)
    ensures Strays(s) <= |s.pings|
  {
    hide Sum;
    SumBound(s.pings, Stray(s.mc), 1);
    assert Times(|s.pings|, 1) == |s.pings|;
  }

  lemma LoadFits(s: State, k: Knowledge)
    requires Inv(s, k) && BookOk(k)
    ensures Load(s) <= 2 * |k.book|
  {
    hide Core, StatusOk, Ring, Sum;
    SlotsFit(s, k);
    Capacity(s, k);
    SumBound(Lives(s), Due(s.self.uuid), 2);
    assert Times(s.mc, 2) == 2 * s.mc;
  }

  lemma LighterWeighs(s: State, t: State, n: nat)
    requires Lighter(s, t) && Strays(t) <= n
    ensures Weight(t, n) < Weight(s, n)
  {
    hide Times, Sum;
    if Load(t) < Load(s) {
      TimesNext(Load(t), n + 1);
      TimesRises(Load(t) + 1, Load(s), n + 1);
    }
  }

  /** One phase after the other, each followed by a turn of the listener. */
  function Joined(phases: seq<seq<Event>>): seq<Event> {
    if phases == [] then []
    else Joined(phases[..|phases| - 1]) + (phases[|phases| - 1] + [Listening(None)])
  }

  /** A phase has turns of the detector for two passes of the ring and lasts until every deadline has passed. */
  ghost predicate LongPhase(env: Env, s: State, n: nat, phase: seq<Event>) {
    AllSilent(phase) && Probes(phase) >= 2 * n && Late(env, Run(env, s, phase))
  }

  ghost predicate LongPhases(env: Env, s: State, n: nat, phases: seq<seq<Event>>) {
    forall i :: 0 <= i < |phases| ==> LongPhase(env, Run(env, s, Joined(phases[..i])), n, phases[i])
  }

  lemma FewerPhases(env: Env, s: State, n: nat, phases: seq<seq<Event>>)
    requires LongPhases(env, s, n, phases) && phases != []
    ensures var m := |phases| - 1;
      LongPhases(env, s, n, phases[..m]) && LongPhase(env, Run(env, s, Joined(phases[..m])), n, phases[m])
  {
    hide LongPhase, Run, Joined;
    var m := |phases| - 1;
    forall i | 0 <= i < m ensures LongPhase(env, Run(env, s, Joined(phases[..m][..i])), n, phases[..m][i]) {
      assert phases[..m][..i] == phases[..i];
      assert LongPhase(env, Run(env, s, Joined(phases[..i])), n, phases[i]);
    }
  }

  lemma LastPhase(env: Env, s: State, phases: seq<seq<Event>>)
    requires phases != []
    ensures var m := |phases| - 1;
      Run(env, s, Joined(phases)) == Listen(env, Run(env, Run(env, s, Joined(phases[..m])), phases[m]), None)
  {
    hide Listen;
    var m := |phases| - 1;
    var last := phases[m] + [Listening(None)];
    RunsCompose(env, s, Joined(phases[..m]), last);
    assert last[..|last| - 1] == phases[m];
  }

  lemma {:induction false} JoinedSilent(env: Env, s: State, n: nat, phases: seq<seq<Event>>)
    requires LongPhases(env, s, n, phases)
    ensures AllSilent(Joined(phases))
  {
    hide LongPhases, Late, Run;
    if phases == [] {
    } else {
      FewerPhases(env, s, n, phases);
      JoinedSilent(env, s, n, phases[..|phases| - 1]);
    }
  }

  /** A state from which the theorems hold: every reachable one. */
  ghost predicate Sound(env: Env, s: State, k: Knowledge) {
    Inv(s, k) && BookOk(k) && RoomFor(env, k) && |s.members| == env.cfg.maxMembers && RoomToPing(s)
  }

  lemma SilentSound(env: Env, s: State, k: Knowledge, es: seq<Event>)
    requires Sound(env, s, k) && AllSilent(es)
    ensures Sound(env, Run(env, s, es), k)
    ensures Remembers(s, Run(env, s, es))
    ensures Load(Run(env, s, es)) <= Load(s)
  {
    hide Inv, Run, RoomToPing, AdmissibleRun, Remembers, Tells, Load, Strays;
    SilentAdmissible(env, s, k, es);
    SilentRun(env, s, k, es);
    RunCarries(env, s, k, es);
    if Still(s, Run(env, s, es)) { StillNoHeavier(s, Run(env, s, es)); }
  }

  /** Each phase takes at least one off, until there is nothing left to do. */
  lemma {:induction false} PhasesWeigh(env: Env, s: State, k: Knowledge, phases: seq<seq<Event>>)
    requires Sound(env, s, k) && MonotoneClock(env) && env.cfg.fanout >= 1 && LongPhases(env, s, |k.book|, phases)
    ensures var t := Run(env, s, Joined(phases));
      Sound(env, t, k) && (Load(t) == 0 || Weight(t, |k.book|) + |phases| <= Weight(s, |k.book|))
  {
    hide Run, Listen, Load, Strays, Lighter, Late, Weight, Inv, RoomToPing, MonotoneClock, AllSilent;
    if phases == [] {
      assert Joined(phases) == [];
      NothingRun(env, s);
    } else {
      var m := |phases| - 1;
      var t := Run(env, s, Joined(phases[..m]));
      var r := Run(env, s, Joined(phases));
      hide LongPhases, Joined;
      FewerPhases(env, s, |k.book|, phases);
      PhasesWeigh(env, s, k, phases[..m]);
      LastPhase(env, s, phases);
      OnePhase(env, t, k, phases[m]);
    }
  }

  lemma NothingRun(env: Env, s: State)
    ensures Run(env, s, []) == s
  {
  }

  lemma OnePhase(env: Env, s: State, k: Knowledge, phase: seq<Event>)
    requires Sound(env, s, k) && MonotoneClock(env) && env.cfg.fanout >= 1 && LongPhase(env, s, |k.book|, phase)
    ensures var t := Listen(env, Run(env, s, phase), None);
      && Sound(env, t, k) && Load(t) <= Load(s)
      && (Load(s) == 0 || Weight(t, |k.book|) < Weight(s, |k.book|))
  {
    hide Run, Listen, Load, Strays, Lighter, Late, Weight, Inv, RoomToPing, MonotoneClock;
    var r := Run(env, s, phase);
    var t := Listen(env, r, None);
    SilentSound(env, s, k, phase);
    SilentSound(env, r, k, [Listening(None)]);
    OneListen(env, r);
    if Load(s) > 0 {
      PhaseLightens(env, s, k, phase);
      StraysFit(t, k);
      LighterWeighs(s, t, |k.book|);
    }
  }

  lemma OneListen(env: Env, s: State)
    ensures Run(env, s, [Listening(None)]) == Listen(env, s, None)
  {
    hide Listen;
    assert [Listening(None)][..0] == [];
    assert Run(env, s, [Listening(None)][..0]) == s;
  }

  // ----- who is spared -----

  /** Nobody but ourselves and the seed that never told its name. */
  predicate Spared(me: Uuid, e: Entry) {
    e.status == Alive && (e.uuid == BLANK || e.uuid == me)
  }

  predicate Lists(s: State, e: Entry) {
    exists i :: 0 <= i < s.mc && i < |s.members| && s.members[i].entry == e
  }

  ghost predicate SameSpared(s: State, t: State) {
    && t.self.uuid == s.self.uuid
    && forall e :: Spared(s.self.uuid, e) ==> (Lists(s, e) <==> Lists(t, e))
  }

  lemma SameSlotsSpared(s: State, t: State)
    requires t.members == s.members && t.mc == s.mc && t.self == s.self
    ensures SameSpared(s, t)
  {
  }

  lemma SparedThen(s: State, t: State, r: State)
    requires SameSpared(s, t) && SameSpared(t, r)
    ensures SameSpared(s, r)
  {
    hide Lists, Spared;
  }

  lemma SlotSpared(s: State, t: State, i: nat)
    requires i < |s.members| == |t.members| && t.mc == s.mc && t.self == s.self
    requires t.members == s.members[i := t.members[i]]
    requires i < s.mc ==> !Spared(s.self.uuid, s.members[i].entry) && !Spared(s.self.uuid, t.members[i].entry)
    ensures SameSpared(s, t)
  {
    forall e | Spared(s.self.uuid, e) ensures Lists(s, e) <==> Lists(t, e) {
      if Lists(s, e) {
        var j :| 0 <= j < s.mc && j < |s.members| && s.members[j].entry == e;
        assert t.members[j] == s.members[j];
      }
      if Lists(t, e) {
        var j :| 0 <= j < t.mc && j < |t.members| && t.members[j].entry == e;
        assert t.members[j] == s.members[j];
      }
    }
  }

  lemma PingTurnSpares(env: Env, s: State, k: Knowledge, now: nat, i: nat)
    requires Inv(s, k) && i < |s.pings|
    ensures SameSpared(s, PingTurn(env, s, now, i))
  {
    hide Core, MarkSuspect, AskHelpers, Ring, SameSpared;
    var slot, t := s.pings[i].slot, PingTurn(env, s, now, i);
    if s.pings[i].suspectDeadline < now {
      Parts(s, k);
      assert PingOk(s.self.uuid, s.members, s.mc, s.pings[i]);
      MarkSuspectShape(env, s, slot);
      if slot < s.mc { PingedIsPeer(s, k, i); }
      if s.members[slot].entry.status == Alive { SlotSpared(s, t, slot); } else { SameSlotsSpared(s, t); }
    } else {
      SameSlotsSpared(s, t);
    }
  }

  lemma {:induction false} PingsSpare(env: Env, s: State, k: Knowledge, now: nat, i: nat)
    requires Inv(s, k)
    ensures SameSpared(s, PingsFrom(env, s, now, i))
    decreases |s.pings| - i
  {
    hide Inv, PingTurn, SameSpared;
    if i >= |s.pings| {
      SameSlotsSpared(s, s);
    } else {
      var t := PingTurn(env, s, now, i);
      PingTurnKeeps(env, s, k, now, i);
      PingTurnSpares(env, s, k, now, i);
      PingsSpare(env, t, k, now, if s.pings[i].suspectDeadline < now then i else i + 1);
      SparedThen(s, t, PingsFrom(env, s, now, i));
    }
  }

  lemma SuspectTurnSpares(env: Env, s: State, k: Knowledge, i: nat)
    requires Inv(s, k) && i < s.mc
    ensures SameSpared(s, SuspectTurn(env, s, i))
  {
    hide Core, Confirm, Ring;
    var t := SuspectTurn(env, s, i);
    SlotsFit(s, k);
    if s.members[i].entry.status == Suspect && t.mc != s.mc {
      ConfirmShape(env, s.(ticks := s.ticks + 1), i);
      forall e | Spared(s.self.uuid, e) ensures Lists(s, e) <==> Lists(t, e) {
        if Lists(s, e) {
          var j :| 0 <= j < s.mc && j < |s.members| && s.members[j].entry == e;
          assert t.members[if j < i then j else j - 1] == s.members[j];
        }
        if Lists(t, e) {
          var j :| 0 <= j < t.mc && j < |t.members| && t.members[j].entry == e;
          assert t.members[j] == s.members[if j < i then j else j + 1];
        }
      }
    } else {
      SuspectTurnOrNot(env, s, i);
      SameSlotsSpared(s, t);
    }
  }

  lemma SuspectTurnOrNot(env: Env, s: State, i: nat)
    requires i < s.mc
    ensures var t := SuspectTurn(env, s, i); t.mc < s.mc || t == s.(ticks := t.ticks)
  {
    hide Confirm;
    ConfirmShape(env, s.(ticks := s.ticks + 1), i);
  }

  lemma {:induction false} SuspectsSpare(env: Env, s: State, k: Knowledge, i: nat)
    requires Inv(s, k)
    ensures SameSpared(s, SuspectsFrom(env, s, i))
    decreases s.mc - i
  {
    hide Inv, SuspectTurn, SameSpared;
    if i >= s.mc {
      SameSlotsSpared(s, s);
    } else {
      var t := SuspectTurn(env, s, i);
      SuspectTurnKeeps(env, s, k, i);
      SuspectTurnSpares(env, s, k, i);
      SuspectsSpare(env, t, k, i + 1);
      SparedThen(s, t, SuspectsFrom(env, s, i));
    }
  }

  lemma SilentStepSpares(env: Env, s: State, k: Knowledge, e: Event)
    requires Inv(s, k) && Silent(e)
    ensures SameSpared(s, Step(env, s, e))
  {
    hide Inv, PingReqsFrom, PingsFrom, SuspectsFrom, Listen, Detect, SameSpared, Strays;
    match e
    case Listening(_) =>
      SilentListens(env, s, e);
      ListenStages(env, s, k);
      var s1 := PingReqsFrom(env, s, 0);
      var s2 := s1.(ticks := s1.ticks + 1);
      var s3 := PingsFrom(env, s2, env.clock(s1.ticks), 0);
      SameSlotsSpared(s, s2);
      PingsSpare(env, s2, k, env.clock(s1.ticks), 0);
      SparedThen(s, s2, s3);
      SuspectsSpare(env, s3, k, 0);
      SparedThen(s, s3, SuspectsFrom(env, s3, 0));
    case Detecting =>
      DetectStill(env, s, k, env.cfg.fanout);
      SameSlotsSpared(s, Step(env, s, e));
  }

  /** Ourselves and the blank seed are never suspected for want of an answer, however long the silence. */
  lemma {:induction false} SilenceSpares(env: Env, s: State, k: Knowledge, es: seq<Event>)
    requires Inv(s, k) && BookOk(k) && RoomFor(env, k) && |s.members| == env.cfg.maxMembers && AllSilent(es)
    ensures SameSpared(s, Run(env, s, es))
  {
    hide Inv, Step, SameSpared, Lighter, Still;
    if es == [] {
      SameSlotsSpared(s, s);
    } else {
      var n := |es| - 1;
      var t := Run(env, s, es[..n]);
      SilentRun(env, s, k, es[..n]);
      SilenceSpares(env, s, k, es[..n]);
      SilentStepSpares(env, t, k, es[n]);
      SparedThen(s, t, Run(env, s, es));
    }
  }

  // ----- completeness -----

  /** So many phases are always enough in a book of n nodes. */
  function PhasesNeeded(n: nat): nat {
    Times(2 * n, n + 1) + n
  }

  /**
   * Completeness: once nothing more is heard, after finitely many phases, as many as the size of the book
   * determines, exactly those are still live who were alive and are ourselves or the seed without a name.
   */
  lemma EverybodyConfirmed(env: Env, s: State, k: Knowledge, phases: seq<seq<Event>>)
    requires Sound(env, s, k) && MonotoneClock(env) && env.cfg.fanout >= 1 && LongPhases(env, s, |k.book|, phases)
    requires |phases| >= PhasesNeeded(|k.book|)
    ensures var t := Run(env, s, Joined(phases));
      Sound(env, t, k) && forall e :: Lists(t, e) <==> Lists(s, e) && Spared(s.self.uuid, e)
  {
    hide Run, Joined, Times, Sum, Late, Inv, RoomToPing, MonotoneClock, LongPhases, Spared;
    var n, t := |k.book|, Run(env, s, Joined(phases));
    PhasesWeigh(env, s, k, phases);
    LoadFits(s, k);
    TimesRises(Load(s), 2 * n, n + 1);
    StraysFit(s, k);
    TimesAtLeast(Load(t), n + 1);
    NothingLeft(t, k);
    JoinedSilent(env, s, n, phases);
    SilenceSpares(env, s, k, Joined(phases));
  }

  lemma NothingLeft(s: State, k: Knowledge)
    requires Inv(s, k) && Load(s) == 0
    ensures forall i :: 0 <= i < s.mc ==> Spared(s.self.uuid, s.members[i].entry)
  {
    hide Core, Ring, Sum;
    SlotsFit(s, k);
    forall i | 0 <= i < s.mc
      ensures Due(s.self.uuid)(s.members[i]) == 0 && s.members[i].entry.status != Confirmed
    {
      SumZero(Lives(s), Due(s.self.uuid), i);
    }
  }

  /** In particular each named peer that was live is confirmed by then, and live no more. */
  lemma SilentPeerConfirmed(env: Env, s: State, k: Knowledge, phases: seq<seq<Event>>, x: nat) returns (j: nat)
    requires Sound(env, s, k) && MonotoneClock(env) && env.cfg.fanout >= 1 && LongPhases(env, s, |k.book|, phases)
    requires |phases| >= PhasesNeeded(|k.book|) && IsPeer(s, x)
    ensures var t := Run(env, s, Joined(phases));
      && j < |t.confirmed| && t.confirmed[j].entry.uuid == s.members[x].entry.uuid
      && t.confirmed[j].entry.status == Confirmed
      && forall i :: 0 <= i < t.mc ==> t.members[i].entry.uuid != s.members[x].entry.uuid
  {
    hide Run, Joined, Late, Inv, RoomToPing, MonotoneClock, LongPhases, Remembers, PhasesNeeded, Times;
    var t := Run(env, s, Joined(phases));
    EverybodyConfirmed(env, s, k, phases);
    JoinedSilent(env, s, |k.book|, phases);
    SilentSound(env, s, k, Joined(phases));
    SlotsFit(t, k);
    forall i | 0 <= i < t.mc ensures Spared(s.self.uuid, t.members[i].entry) { assert Lists(t, t.members[i].entry); }
    j := StillListed(s, t, k, x);
  }

  lemma StillListed(s: State, t: State, k: Knowledge, x: nat) returns (j: nat)
    requires Inv(s, k) && Inv(t, k) && Remembers(s, t) && IsPeer(s, x)
    requires t.mc <= |t.members| && forall i :: 0 <= i < t.mc ==> Spared(s.self.uuid, t.members[i].entry)
    ensures j < |t.confirmed| && t.confirmed[j].entry.uuid == s.members[x].entry.uuid
    ensures t.confirmed[j].entry.status == Confirmed
  {
    hide UniqueUuids, SlotsOk, SeedOk, SelfListed, PingsOk, OutboxOk, Ring;
    var u := s.members[x].entry.uuid;
    var y := Follower(s.updates, s.mc, |s.confirmed|, Live(x));
    assert Subject(s, y) == u;
    assert Told(t, u, s.updates[y].count);
    var z :| 0 <= z < |t.updates| && Subject(t, z) == u && t.updates[z].count >= s.updates[y].count;
    assert RefOk(t.updates[z].ref, t.mc, |t.confirmed|);
    j := t.updates[z].ref.slot;
  }

  /**
   * The same from start-up: whatever was heard before, as long as addresses are true, a named peer that is live
   * when everybody falls silent is confirmed after so many phases.
   */
  lemma ConfirmedInSilence(env: Env, book: map<Uuid, Addr>, uuid: Uuid, addr: Addr, seed: Addr,
                           before: seq<Event>, phases: seq<seq<Event>>, x: nat) returns (j: nat)
    requires StartsIn(env, book, uuid, addr, seed) && AllRespect(book, before)
    requires MonotoneClock(env) && env.cfg.fanout >= 1 && |phases| >= PhasesNeeded(|book|)
    requires var s := Run(env, Boot(env, uuid, addr, seed), before);
      IsPeer(s, x) && LongPhases(env, s, |book|, phases)
    ensures var s := Run(env, Boot(env, uuid, addr, seed), before);
      var t := Run(env, Boot(env, uuid, addr, seed), before + Joined(phases));
      && j < |t.confirmed| && t.confirmed[j].entry.uuid == s.members[x].entry.uuid
      && t.confirmed[j].entry.status == Confirmed
      && forall i :: 0 <= i < t.mc ==> t.members[i].entry.uuid != s.members[x].entry.uuid
  {
    hide Run, Boot, Joined, Inv, RoomToPing, MonotoneClock, LongPhases, PhasesNeeded, IsPeer, AllRespect;
    var s0 := Boot(env, uuid, addr, seed);
    ReachableByAddress(env, book, uuid, addr, seed, before);
    RunsCompose(env, s0, before, Joined(phases));
    j := SilentPeerConfirmed(env, Run(env, s0, before), Believing(book), phases, x);
  }
}
