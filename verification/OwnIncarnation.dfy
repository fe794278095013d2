/**
 * A node's own incarnation. Only hearing itself suspected changes it, every value it takes is recorded,
 * and a late suspicion can take it back down.
 */
module OwnIncarnation {
  import opened Types
  import opened Tables
  import opened Protocol
  import opened Invariant

  // ----- one entry -----

  /** Taking in this entry makes the node refute it. */
  predicate Refutes(s: State, e: Entry) {
    e.uuid == s.self.uuid && e.status == Suspect && Find(s, e).1.Some?
  }

  lemma ConfirmLeavesSelf(env: Env, s: State, i: nat)
    ensures Confirm(env, s, i).self == s.self && Confirm(env, s, i).incs == s.incs
  {
    hide Retrieve, RebaseAll, MaxPos, DropPing;
  }

  lemma UpdateTouchesSelf(env: Env, s: State, i: nat, e: Entry)
    ensures var t := MemberUpdate(env, s, i, e);
      if e.uuid == s.self.uuid && e.status == Suspect
      then t.self == s.self.(status := Alive, incarnation := Succ(e.incarnation))
        && t.incs == s.incs + {t.self.incarnation}
      else t.self == s.self && t.incs == s.incs
  {
    hide Confirm, Retrieve, DropPing;
    var x := Slot(s, i).entry;
    var s1 := SetSlot(s, i, Slot(s, i).(entry := x.(status := Confirmed, incarnation := e.incarnation)));
    ConfirmLeavesSelf(env, DropPing(s1, x.uuid), i);
  }

  /** What taking in an entry does to our own record and to the incarnations we ever had. */
  lemma CheckTouchesSelf(env: Env, s: State, e: Entry)
    ensures var t := Check(env, s, e);
      if Refutes(s, e)
      then t.self == s.self.(status := Alive, incarnation := Succ(e.incarnation))
        && t.incs == s.incs + {t.self.incarnation}
      else t.self == s.self && t.incs == s.incs
  {
    hide MemberUpdate, UpdateFind, IndexAdd;
    var (s1, i) := Find(s, e);
    if i.Some? {
      UpdateTouchesSelf(env, s1, i.value, e);
    }
  }

  /**
   * Our own incarnation does not only grow. It falls if and only if we refute a suspicion that names an
   * incarnation two or more below our own (or the highest there is, where the successor wraps to zero).
   */
  lemma FallsIff(env: Env, s: State, e: Entry)
    ensures Check(env, s, e).self.incarnation < s.self.incarnation <==>
      e.uuid == s.self.uuid && e.status == Suspect && Find(s, e).1.Some? && Succ(e.incarnation) < s.self.incarnation
  {
    hide Check, Find;
    CheckTouchesSelf(env, s, e);
  }

  // ----- whole steps -----

  /** A step's state after the sweeps. */
  function Swept(env: Env, s: State): State {
    SuspectsFrom(env, PingsCheck(env, PingReqsFrom(env, s, 0)), 0)
  }

  ghost predicate SameSelf(s: State, t: State) {
    t.self == s.self && t.incs == s.incs
  }

  lemma MarksLeaveSelf(env: Env, s: State, i: nat)
    ensures SameSelf(s, MarkAlive(env, s, i)) && SameSelf(s, MarkSuspect(env, s, i))
  {
    hide Retrieve;
  }

  lemma {:induction false} AskLeavesSelf(s: State, p: Ping, helpers: seq<nat>)
    ensures SameSelf(s, AskHelpers(s, p, helpers))
  {
    if helpers == [] {
    } else {
      AskLeavesSelf(s, p, helpers[..|helpers| - 1]);
    }
  }

  lemma {:induction false} PingsLeaveSelf(env: Env, s: State, now: nat, i: nat)
    ensures SameSelf(s, PingsFrom(env, s, now, i))
    decreases |s.pings| - i
  {
    hide MarkSuspect, AskHelpers;
    if i >= |s.pings| {
    } else {
      MarksLeaveSelf(env, s, s.pings[i].slot);
      AskLeavesSelf(s, s.pings[i], env.pick(s.draws, s.mc));
      PingsLeaveSelf(env, PingTurn(env, s, now, i), now, if s.pings[i].suspectDeadline < now then i else i + 1);
    }
  }

  lemma {:induction false} SuspectsLeaveSelf(env: Env, s: State, i: nat)
    ensures SameSelf(s, SuspectsFrom(env, s, i))
    decreases s.mc - i
  {
    hide Confirm;
    if i >= s.mc {
    } else {
      ConfirmLeavesSelf(env, s.(ticks := s.ticks + 1), i);
      SuspectsLeaveSelf(env, SuspectTurn(env, s, i), i + 1);
    }
  }

  lemma SweepsLeaveSelf(env: Env, s: State)
    ensures SameSelf(s, Swept(env, s))
  {
    hide PingReqsFrom, PingsFrom, SuspectsFrom;
    var s1 := PingReqsFrom(env, s, 0);
    PingsLeaveSelf(env, s1.(ticks := s1.ticks + 1), Now(env, s1), 0);
    SuspectsLeaveSelf(env, PingsCheck(env, s1), 0);
  }

  lemma HandlersLeaveSelf(env: Env, s: State, m: Message)
    ensures SameSelf(s, PingHandle(env, s, m)) && SameSelf(s, PingReqHandle(env, s, m))
    ensures SameSelf(s, AckHandle(env, s, m))
  {
    hide MarkAlive, Gossip, Relay, DropPing, PingReqAdd;
    var (s1, ack) := Gossip(env.cfg, s, AckMessage);
    var s2 := DropPing(Send(s1, m.sender.addr, ack), m.sender.uuid);
    var (s3, i) := Find(s2, ZERO_ENTRY.(uuid := m.sender.uuid));
    if i.Some? { MarksLeaveSelf(env, s3, i.value); }
    var p := PingFind(s, m.sender.uuid);
    if p.Some? { MarksLeaveSelf(env, s, s.pings[p.value].slot); }
  }

  lemma {:induction false} DetectLeavesSelf(env: Env, s: State, n: nat)
    ensures SameSelf(s, Detect(env, s, n))
  {
    hide Retrieve, Gossip, PingAdd;
    if n == 0 {
    } else {
      DetectLeavesSelf(env, s, n - 1);
    }
  }

  /** The entries that a step takes in. */
  function TakenIn(e: Event): seq<Entry> {
    match e
    case Listening(Some(m)) => if Handled(m.kind) then [m.sender] + m.updates else []
    case _ => []
  }

  /** In a step our own record changes while a message is taken in, and at no other time. */
  lemma StepTouchesSelf(env: Env, s: State, e: Event)
    ensures SameSelf(CheckAll(env, Swept(env, s), TakenIn(e)), Step(env, s, e))
    ensures SameSelf(s, Swept(env, s))
  {
    hide Swept, CheckAll, PingHandle, PingReqHandle, AckHandle, Detect;
    SweepsLeaveSelf(env, s);
    NothingHeard(env, Swept(env, s));
    match e
    case Detecting => DetectLeavesSelf(env, s, env.cfg.fanout);
    case Listening(m) =>
      ListenIs(env, s, m);
      if m.Some? { HandlersLeaveSelf(env, Extract(env, Swept(env, s), m.value), m.value); }
  }

  lemma ListenIs(env: Env, s: State, m: Option<Message>)
    ensures Listen(env, s, m) == if m.Some? then Handle(env, Swept(env, s), m.value) else Swept(env, s)
  {
    hide PingReqsFrom, PingsCheck, SuspectsFrom, Handle;
  }

  /** Hearing some entries one after the other, we had incarnation i at some moment. */
  ghost predicate Had(env: Env, s: State, es: seq<Entry>, i: nat) {
    exists j :: 0 <= j <= |es| && CheckAll(env, s, es[..j]).self.incarnation == i
  }

  /** The recorded incarnations are exactly the earlier ones and those had while the entries were heard. */
  lemma {:induction false} RecordIsExact(env: Env, s: State, es: seq<Entry>, i: nat)
    requires s.self.incarnation in s.incs
    ensures i in CheckAll(env, s, es).incs <==> i in s.incs || Had(env, s, es, i)
    ensures CheckAll(env, s, es).self.incarnation in CheckAll(env, s, es).incs
    decreases |es|
  {
    hide Check, Had;
    HadNow(env, s, es);
    if es == [] {
      NothingHeard(env, s);
      HadNothing(env, s, i);
    } else {
      var n := |es| - 1;
      var t := CheckAll(env, s, es[..n]);
      RecordIsExact(env, s, es[..n], i);
      CheckTouchesSelf(env, t, es[n]);
      if Had(env, s, es[..n], i) { HadBefore(env, s, es, i); }
      if Had(env, s, es, i) { HadWhen(env, s, es, i); }
    }
  }

  lemma HadNothing(env: Env, s: State, i: nat)
    ensures Had(env, s, [], i) <==> s.self.incarnation == i
  {
    hide CheckAll;
    NothingHeard(env, s);
    var none: seq<Entry> := [];
    assert none[..0] == none;
    if Had(env, s, none, i) {
      var j :| 0 <= j <= |none| && CheckAll(env, s, none[..j]).self.incarnation == i;
    }
  }

  lemma HadBefore(env: Env, s: State, es: seq<Entry>, i: nat)
    requires es != [] && Had(env, s, es[..|es| - 1], i)
    ensures Had(env, s, es, i)
  {
    hide CheckAll;
    var front := es[..|es| - 1];
    var j :| 0 <= j <= |front| && CheckAll(env, s, front[..j]).self.incarnation == i;
    assert front[..j] == es[..j];
  }

  lemma HadNow(env: Env, s: State, es: seq<Entry>)
    ensures Had(env, s, es, CheckAll(env, s, es).self.incarnation)
  {
    hide CheckAll;
    assert es[..|es|] == es;
  }

  lemma HadWhen(env: Env, s: State, es: seq<Entry>, i: nat)
    requires es != [] && Had(env, s, es, i)
    ensures Had(env, s, es[..|es| - 1], i) || CheckAll(env, s, es).self.incarnation == i
  {
    hide CheckAll;
    var front := es[..|es| - 1];
    var j :| 0 <= j <= |es| && CheckAll(env, s, es[..j]).self.incarnation == i;
    if j < |es| { assert front[..j] == es[..j]; } else { assert es[..j] == es; }
  }

  /** A step records exactly the incarnations that we have in the course of it. */
  lemma StepRecords(env: Env, s: State, e: Event, i: nat)
    requires s.self.incarnation in s.incs
    ensures i in Step(env, s, e).incs <==> i in s.incs || Had(env, Swept(env, s), TakenIn(e), i)
    ensures Step(env, s, e).self.incarnation in Step(env, s, e).incs
  {
    hide Swept, CheckAll, Step, Had;
    StepTouchesSelf(env, s, e);
    RecordIsExact(env, Swept(env, s), TakenIn(e), i);
  }
}
