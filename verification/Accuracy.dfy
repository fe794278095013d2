/**
 * Accuracy of the failure detector: nobody is suspected who answers in time, and of whom nobody else says that they
 * are suspect or dead.
 */
module Accuracy {
  import opened Types
  import opened Tables
  import opened Protocol
  import opened Invariant
  import opened Preservation
  import opened Runs
  import opened Views
  import opened Convergence
  import opened OwnIncarnation
  import opened Marks
  import opened Probing
  import opened Hearing
  import opened Outstanding
  import opened Detection

  /** Nothing is said of u but that it is alive. */
  predicate SaysAlive(es: seq<Entry>, u: Uuid) {
    forall i :: 0 <= i < |es| && es[i].uuid == u ==> es[i].status == Alive
  }

  predicate Mentions(es: seq<Entry>, u: Uuid) {
    exists i :: 0 <= i < |es| && es[i].uuid == u
  }

  lemma {:induction false} AliveWords(me: Uuid, v: View, es: seq<Entry>, u: Uuid)
    requires SaysAlive(es, u)
    ensures v.Living? ==> HeedAll(me, v, es, u).Living?
    ensures !Mentions(es, u) ==> HeedAll(me, v, es, u) == v
  {
    if es == [] {
    } else {
      var n := |es| - 1;
      assert forall i :: 0 <= i < n ==> es[..n][i] == es[i];
      AliveWords(me, v, es[..n], u);
      if !Mentions(es, u) { assert es[n].uuid != u; }
    }
  }

  lemma DetectorSees(env: Env, s: State, u: Uuid)
    ensures ViewOf(Step(env, s, Detecting), u) == ViewOf(s, u)
  {
    hide Detect, ViewOf;
    DetectSends(env, s, env.cfg.fanout);
    SameView(s, Step(env, s, Detecting), u);
  }

  /** In this turn the sweep does not find a ping to u expired. */
  predicate InTime(env: Env, s: State, e: Event, u: Uuid) {
    e.Listening? ==> !Expired(s, u, SweepTime(env, s))
  }

  lemma TakenInIs(e: Event)
    ensures TakenIn(e) ==
      if e.Listening? && e.received.Some? && Handled(e.received.value.kind)
      then [e.received.value.sender] + e.received.value.updates else []
  {
  }

  /** One turn: who lives goes on living if no ping to it is found expired and it is only said to be alive. */
  lemma StepSpares(env: Env, s: State, k: Knowledge, e: Event, u: Uuid)
    requires Inv(s, k) && BookOk(k) && RoomFor(env, k) && |s.members| == env.cfg.maxMembers
    requires Admissible(s, k, e) && u != BLANK && ViewOf(s, u).Living? && SaysAlive(TakenIn(e), u)
    ensures InTime(env, s, e, u) ==> ViewOf(Step(env, s, e), u).Living?
    ensures !Mentions(TakenIn(e), u) ==> (ViewOf(Step(env, s, e), u).Living? <==> InTime(env, s, e, u))
  {
    hide Inv, ViewOf, Expired, HeedAll, SaysAlive, Mentions, Step, Handled, Swept, Extract, ShowsAlive;
    match e
    case Detecting => DetectorSees(env, s, u);
    case Listening(m) =>
      ListenHears(env, s, k, m, u);
      StepListens(env, s, m);
      TakenInIs(e);
      if m.Some? && Handled(m.value.kind) {
        AliveWords(s.self.uuid, ViewOf(Swept(env, s), u), TakenIn(e), u);
        SenderMentioned(m.value, u);
      }
  }

  lemma StepListens(env: Env, s: State, m: Option<Message>)
    ensures Step(env, s, Listening(m)) == Listen(env, s, m)
  {
    hide Listen;
  }

  lemma SenderMentioned(m: Message, u: Uuid)
    ensures m.sender.uuid == u ==> Mentions([m.sender] + m.updates, u)
  {
    if m.sender.uuid == u { assert ([m.sender] + m.updates)[0].uuid == u; }
  }

  /** All along the run nothing is said of u but that it is alive, and no sweep finds a ping to it expired. */
  ghost predicate Answering(env: Env, s: State, es: seq<Event>, u: Uuid) {
    forall i :: 0 <= i < |es| ==> SaysAlive(TakenIn(es[i]), u) && InTime(env, Run(env, s, es[..i]), es[i], u)
  }

  /**
   * Accuracy: in every run in which each ping to a living member is gone before a sweep finds it expired, and nobody
   * says of the member that it is suspect or dead, the member lives on to the end, never suspected in between.
   */
  lemma {:induction false} NeverSuspected(env: Env, s: State, k: Knowledge, es: seq<Event>, u: Uuid)
    requires Inv(s, k) && BookOk(k) && RoomFor(env, k) && |s.members| == env.cfg.maxMembers
    requires AdmissibleRun(env, s, k, es) && u != BLANK && ViewOf(s, u).Living? && Answering(env, s, es, u)
    ensures ViewOf(Run(env, s, es), u).Living?
    ensures forall n :: 0 <= n <= |es| ==> ViewOf(Run(env, s, es[..n]), u).Living?
  {
    hide Inv, ViewOf, Step, AdmissibleRun, InTime, SaysAlive, TakenIn;
    if es == [] {
      assert es[..0] == es;
    } else {
      var n := |es| - 1;
      var front, t := es[..n], Run(env, s, es[..n]);
      PrefixAdmissible(env, s, k, es, n);
      PrefixAnswers(env, s, es, n, u);
      NeverSuspected(env, s, k, front, u);
      RunKeeps(env, s, k, front);
      LastAdmissible(env, s, k, es);
      StepSpares(env, t, k, es[n], u);
      forall x | 0 <= x <= |es| ensures ViewOf(Run(env, s, es[..x]), u).Living? {
        if x <= n { assert es[..x] == front[..x]; } else { assert es[..x] == es; }
      }
    }
  }

  lemma PrefixAnswers(env: Env, s: State, es: seq<Event>, n: nat, u: Uuid)
    requires Answering(env, s, es, u) && n <= |es|
    ensures Answering(env, s, es[..n], u)
    ensures n < |es| ==> SaysAlive(TakenIn(es[n]), u) && InTime(env, Run(env, s, es[..n]), es[n], u)
  {
    hide Run, InTime, SaysAlive, TakenIn;
    forall i | 0 <= i < n
      ensures SaysAlive(TakenIn(es[..n][i]), u) && InTime(env, Run(env, s, es[..n][..i]), es[..n][i], u)
    {
      assert es[..n][..i] == es[..i] && es[..n][i] == es[i];
    }
  }

  // ----- replies in time -----

  /** The ping runs out no earlier than a protocol period after tick a. */
  predicate Young(env: Env, p: Ping, a: nat) {
    p.suspectDeadline >= env.clock(a) + env.cfg.protocolMs
  }

  ghost predicate OldOrYoung(env: Env, ps: seq<Ping>, p: Ping, a: nat) {
    Among(ps, p) || Young(env, p, a)
  }

  /** Every ping is from before or young. */
  ghost predicate AllOldOrYoung(env: Env, ps: seq<Ping>, qs: seq<Ping>, a: nat) {
    forall y :: 0 <= y < |qs| ==> OldOrYoung(env, ps, qs[y], a)
  }

  /** One probe: at most one ping to u stays at most one, and what is new is young. */
  lemma ProbeCounts(env: Env, s: State, x: nat, u: Uuid, a: nat)
    requires MonotoneClock(env) && u != BLANK && a <= s.ticks
    ensures var t := Probe(env, s, x);
      (PingsTo(s, u) <= 1 ==> PingsTo(t, u) <= 1) && AllOldOrYoung(env, s.pings, t.pings, a)
  {
    hide Probe, Gossip, Sum, WithoutFirst;
    var v, t := Slot(s, x).entry.uuid, Probe(env, s, x);
    ProbeSends(env, s, x);
    var ps: seq<Ping> :| WithoutFirst(s.pings, ps, Targets(s, v)) && t.pings == WithPing(env, s, x, ps);
    var s1 := s.(pings := ps);
    FirstGone(s, s1, v, u);
    SumLess(ps, To(t, u), To(s1, u));
    if |t.pings| > |ps| {
      SumAppend(ps, To(t, u), t.pings[|ps|]);
      assert env.clock(a) <= env.clock(s.ticks + 1);
      assert Young(env, t.pings[|ps|], a);
    } else {
      assert t.pings == ps;
    }
    forall y | 0 <= y < |t.pings| ensures OldOrYoung(env, s.pings, t.pings[y], a) {
      if y < |ps| { assert Among(s.pings, ps[y]); }
    }
  }

  lemma RingOnlyCounts(env: Env, s: State, u: Uuid)
    ensures var t := Retrieve(env, s).0;
      PingsTo(t, u) == PingsTo(s, u) && t.pings == s.pings && t.ticks == s.ticks && t.members == s.members
  {
    hide Retrieve, Sum;
    var t := Retrieve(env, s).0;
    SumLess(s.pings, To(t, u), To(s, u));
    SumLess(s.pings, To(s, u), To(t, u));
  }

  lemma {:induction false} DetectCounts(env: Env, s: State, n: nat, u: Uuid)
    requires MonotoneClock(env) && u != BLANK
    ensures var t := Detect(env, s, n);
      (PingsTo(s, u) <= 1 ==> PingsTo(t, u) <= 1) && AllOldOrYoung(env, s.pings, t.pings, s.ticks)
    decreases n
  {
    hide Retrieve, Probe, PingsTo, MonotoneClock, AllOldOrYoung;
    if n == 0 {
      AllOld(env, s.pings, s.ticks);
    } else {
      var t0 := Detect(env, s, n - 1);
      DetectCounts(env, s, n - 1, u);
      RingOnlyCounts(env, t0, u);
      var (t1, x) := Retrieve(env, t0);
      if x.Some? {
        ProbeCounts(env, t1, x.value, u, s.ticks);
        OldYoungThen(env, s.pings, t1.pings, Probe(env, t1, x.value).pings, s.ticks);
      }
    }
  }

  lemma AllOld(env: Env, ps: seq<Ping>, a: nat)
    ensures AllOldOrYoung(env, ps, ps, a)
  {
    DescendSame(ps);
  }

  lemma OldYoungThen(env: Env, ps: seq<Ping>, qs: seq<Ping>, rs: seq<Ping>, a: nat)
    requires AllOldOrYoung(env, ps, qs, a) && AllOldOrYoung(env, qs, rs, a)
    ensures AllOldOrYoung(env, ps, rs, a)
  {
    forall y | 0 <= y < |rs| ensures OldOrYoung(env, ps, rs[y], a) {
      if Among(qs, rs[y]) {
        var x :| 0 <= x < |qs| && SamePing(qs[x], rs[y]);
        if Among(ps, qs[x]) {
          var z :| 0 <= z < |ps| && SamePing(ps[z], qs[x]);
          assert SamePing(ps[z], rs[y]);
        }
      }
    }
  }

  /** u shows in this turn that it is alive. */
  predicate ReplyFrom(e: Event, u: Uuid) {
    e.Listening? && e.received.Some? && Replying(e.received.value.kind) && e.received.value.sender.uuid == u
  }

  predicate Unanswered(es: seq<Event>, u: Uuid, d: nat, n: nat)
    requires n <= |es|
  {
    forall j :: d < j < n ==> !ReplyFrom(es[j], u)
  }

  /** Between turn d of the detector and any later sweep, u has replied or at most the protocol period has passed. */
  ghost predicate RepliesInTime(env: Env, s: State, es: seq<Event>, u: Uuid) {
    forall d, i :: 0 <= d < i < |es| && es[d].Detecting? && es[i].Listening? && Unanswered(es, u, d, i) ==>
      SweepTime(env, Run(env, s, es[..i])) <= env.clock(Run(env, s, es[..d]).ticks) + env.cfg.protocolMs
  }

  /** The ping stems from a turn of the detector to which u has not replied yet. */
  ghost predicate Stems(env: Env, s: State, es: seq<Event>, n: nat, u: Uuid, p: Ping)
    requires n <= |es|
  {
    exists d :: 0 <= d < n && es[d].Detecting? && Unanswered(es, u, d, n) && Young(env, p, Run(env, s, es[..d]).ticks)
  }

  /** After n turns: at most one ping to u, and it stems from an unanswered turn. */
  ghost predicate Tidy(env: Env, s: State, es: seq<Event>, n: nat, u: Uuid)
    requires n <= |es|
  {
    var t := Run(env, s, es[..n]);
    && PingsTo(t, u) <= 1
    && forall y :: 0 <= y < |t.pings| && Targets(t, u)(t.pings[y]) ==> Stems(env, s, es, n, u, t.pings[y])
  }

  lemma StemsOn(env: Env, s: State, es: seq<Event>, n: nat, u: Uuid, p: Ping, q: Ping)
    requires n < |es| && Stems(env, s, es, n, u, p) && SamePing(p, q) && !ReplyFrom(es[n], u)
    ensures Stems(env, s, es, n + 1, u, q)
  {
    hide Run;
    var d :| 0 <= d < n && es[d].Detecting? && Unanswered(es, u, d, n) && Young(env, p, Run(env, s, es[..d]).ticks);
    assert Unanswered(es, u, d, n + 1);
  }

  lemma StemsNow(env: Env, s: State, es: seq<Event>, n: nat, u: Uuid, p: Ping)
    requires n < |es| && es[n].Detecting? && Young(env, p, Run(env, s, es[..n]).ticks)
    ensures Stems(env, s, es, n + 1, u, p)
  {
    hide Run;
    assert Unanswered(es, u, n, n + 1);
  }

  lemma RunNext(env: Env, s: State, es: seq<Event>, n: nat)
    requires n < |es|
    ensures Run(env, s, es[..n + 1]) == Step(env, Run(env, s, es[..n]), es[n])
  {
    hide Step;
    assert es[..n + 1][..n] == es[..n];
  }

  /** A tidy state has no expired ping to u if u replies in time. */
  lemma TidyInTime(env: Env, s: State, es: seq<Event>, n: nat, u: Uuid)
    requires n < |es| && Tidy(env, s, es, n, u) && RepliesInTime(env, s, es, u)
    ensures InTime(env, Run(env, s, es[..n]), es[n], u)
  {
    hide Run, SweepTime, Tidy, RepliesInTime;
    var t := Run(env, s, es[..n]);
    if es[n].Listening? {
      forall y | 0 <= y < |t.pings| && Targets(t, u)(t.pings[y])
        ensures t.pings[y].suspectDeadline >= SweepTime(env, t)
      {
        TidyPing(env, s, es, n, u, y);
      }
    }
  }

  lemma TidyPing(env: Env, s: State, es: seq<Event>, n: nat, u: Uuid, y: nat)
    requires n < |es| && Tidy(env, s, es, n, u) && RepliesInTime(env, s, es, u) && es[n].Listening?
    requires var t := Run(env, s, es[..n]); y < |t.pings| && Targets(t, u)(t.pings[y])
    ensures var t := Run(env, s, es[..n]); t.pings[y].suspectDeadline >= SweepTime(env, t)
  {
    hide Run, SweepTime, Unanswered;
    var t := Run(env, s, es[..n]);
    assert Stems(env, s, es, n, u, t.pings[y]);
    var d :| 0 <= d < n && es[d].Detecting? && Unanswered(es, u, d, n)
      && Young(env, t.pings[y], Run(env, s, es[..d]).ticks);
  }

  lemma TidyDetects(env: Env, s: State, es: seq<Event>, n: nat, u: Uuid)
    requires n < |es| && Tidy(env, s, es, n, u) && es[n].Detecting? && MonotoneClock(env) && u != BLANK
    ensures Tidy(env, s, es, n + 1, u)
  {
    hide Run, PingsTo, Detect, MonotoneClock, Young, Stems;
    var t, r := Run(env, s, es[..n]), Run(env, s, es[..n + 1]);
    RunNext(env, s, es, n);
    DetectCounts(env, t, env.cfg.fanout, u);
    DetectSends(env, t, env.cfg.fanout);
    forall y | 0 <= y < |r.pings| && Targets(r, u)(r.pings[y]) ensures Stems(env, s, es, n + 1, u, r.pings[y]) {
      assert OldOrYoung(env, t.pings, r.pings[y], t.ticks);
      if Among(t.pings, r.pings[y]) {
        var x :| 0 <= x < |t.pings| && SamePing(t.pings[x], r.pings[y]);
        assert Targets(t, u)(t.pings[x]);
        StemsOn(env, s, es, n, u, t.pings[x], r.pings[y]);
      } else {
        StemsNow(env, s, es, n, u, r.pings[y]);
      }
    }
  }

  lemma TidyListens(env: Env, s: State, k: Knowledge, es: seq<Event>, n: nat, u: Uuid)
    requires n < |es| && Tidy(env, s, es, n, u) && es[n].Listening? && u != BLANK
    requires var t := Run(env, s, es[..n]);
      && Inv(t, k) && BookOk(k) && RoomFor(env, k) && |t.members| == env.cfg.maxMembers
      && Admissible(t, k, es[n]) && ViewOf(t, u).Living?
      && |Run(env, s, es[..n + 1]).confirmed| == |t.confirmed|
    ensures Tidy(env, s, es, n + 1, u)
  {
    hide Run, Inv, ViewOf, PingsTo, Listen, Stems;
    var t, r := Run(env, s, es[..n]), Run(env, s, es[..n + 1]);
    RunNext(env, s, es, n);
    ListenQuieter(env, t, k, es[n].received, u);
    forall y | 0 <= y < |r.pings| && Targets(r, u)(r.pings[y]) ensures Stems(env, s, es, n + 1, u, r.pings[y]) {
      assert Among(t.pings, r.pings[y]);
      var x :| 0 <= x < |t.pings| && SamePing(t.pings[x], r.pings[y]);
      SameTarget(t, r, u, t.pings[x], r.pings[y]);
      if ReplyFrom(es[n], u) {
        SomebodyWaits(r, u, y);
        assert false;
      } else {
        StemsOn(env, s, es, n, u, t.pings[x], r.pings[y]);
      }
    }
  }

  lemma SameTarget(s: State, t: State, u: Uuid, p: Ping, q: Ping)
    requires NoNewName(s, t, u) && SamePing(p, q) && Targets(t, u)(q) && u != BLANK
    ensures Targets(s, u)(p)
  {
  }

  lemma SomebodyWaits(s: State, u: Uuid, y: nat)
    requires y < |s.pings| && Targets(s, u)(s.pings[y])
    ensures PingsTo(s, u) > 0
  {
    hide Sum;
    SumPositiveIff(s.pings, To(s, u));
    assert To(s, u)(s.pings[y]) > 0;
  }

  lemma ConfirmedBetween(env: Env, s: State, es: seq<Event>, n: nat)
    requires n <= |es| && |Run(env, s, es).confirmed| == |s.confirmed|
    ensures |Run(env, s, es[..n]).confirmed| == |s.confirmed|
    ensures |Run(env, s, es[..n]).members| == |s.members|
  {
    hide Run;
    assert es == es[..n] + es[n..];
    RunsCompose(env, s, es[..n], es[n..]);
  }

  lemma {:induction false} StaysTidy(env: Env, s: State, k: Knowledge, es: seq<Event>, u: Uuid, n: nat)
    requires Inv(s, k) && BookOk(k) && RoomFor(env, k) && |s.members| == env.cfg.maxMembers && MonotoneClock(env)
    requires AdmissibleRun(env, s, k, es) && u != BLANK && ViewOf(s, u).Living? && PingFind(s, u).None? && n <= |es|
    requires |Run(env, s, es).confirmed| == |s.confirmed| && RepliesInTime(env, s, es, u)
    requires forall i :: 0 <= i < |es| ==> SaysAlive(TakenIn(es[i]), u)
    ensures Tidy(env, s, es, n, u) && ViewOf(Run(env, s, es[..n]), u).Living?
    decreases n
  {
    hide Run, Inv, ViewOf, Step, InTime, SaysAlive, TakenIn, Tidy, RepliesInTime, MonotoneClock, Admissible;
    if n == 0 {
      TidyBegins(env, s, es, u);
    } else {
      var m := n - 1;
      var t := Run(env, s, es[..m]);
      StaysTidy(env, s, k, es, u, m);
      ConfirmedBetween(env, s, es, m);
      ConfirmedBetween(env, s, es, n);
      PrefixAdmissible(env, s, k, es, m);
      RunKeeps(env, s, k, es[..m]);
      RunNext(env, s, es, m);
      assert Admissible(t, k, es[m]);
      TidyInTime(env, s, es, m, u);
      StepSpares(env, t, k, es[m], u);
      if es[m].Detecting? { TidyDetects(env, s, es, m, u); } else { TidyListens(env, s, k, es, m, u); }
    }
  }

  lemma TidyBegins(env: Env, s: State, es: seq<Event>, u: Uuid)
    requires PingFind(s, u).None?
    ensures Tidy(env, s, es, 0, u) && Run(env, s, es[..0]) == s
  {
    hide PingsTo;
    assert es[..0] == [];
    FoundIff(s, u);
    assert forall y :: 0 <= y < |s.pings| ==> !Targets(s, u)(s.pings[y]);
  }

  /**
   * Accuracy, in terms of replies: a living member for whom nobody waits yet, and who from then on replies to each turn
   * of the detector within the protocol period, is never suspected, as long as nobody says that it is suspect or dead
   * and nobody is confirmed, which would redirect pings.
   */
  lemma WhoRepliesIsSpared(env: Env, s: State, k: Knowledge, es: seq<Event>, u: Uuid)
    requires Inv(s, k) && BookOk(k) && RoomFor(env, k) && |s.members| == env.cfg.maxMembers && MonotoneClock(env)
    requires AdmissibleRun(env, s, k, es) && u != BLANK && ViewOf(s, u).Living? && PingFind(s, u).None?
    requires |Run(env, s, es).confirmed| == |s.confirmed| && RepliesInTime(env, s, es, u)
    requires forall i :: 0 <= i < |es| ==> SaysAlive(TakenIn(es[i]), u)
    ensures forall n :: 0 <= n <= |es| ==> ViewOf(Run(env, s, es[..n]), u).Living?
  {
    hide Run, Inv, ViewOf, SaysAlive, TakenIn, Tidy, RepliesInTime, MonotoneClock, Admissible;
    forall n | 0 <= n <= |es| ensures ViewOf(Run(env, s, es[..n]), u).Living? { StaysTidy(env, s, k, es, u, n); }
  }
}
