/** How many pings to a member are outstanding: hearing does not add any, unless somebody is confirmed. */
module Outstanding {
  import opened Types
  import opened Seqs
  import opened Tables
  import opened Protocol
  import opened Invariant
  import opened Preservation
  import opened Views
  import opened Convergence
  import opened OwnIncarnation
  import opened Sweeps
  import opened Marks
  import opened Replies
  import opened Hearing
  import opened Detection

  function To(s: State, u: Uuid): Ping -> nat {
    (p: Ping) => if Slot(s, p.slot).entry.uuid == u then 1 else 0
  }

  /** How many pings point at slots, live or stale, that carry u. */
  function PingsTo(s: State, u: Uuid): nat {
    Sum(s.pings, To(s, u))
  }

  /** Every slot that carries u did so before. */
  ghost predicate NoNewName(s: State, t: State, u: Uuid) {
    |t.members| == |s.members| && forall y :: 0 <= y < |s.members| && t.members[y].entry.uuid == u ==>
      s.members[y].entry.uuid == u
  }

  /** Every ping is one from before, with the same target slot and the same final deadline. */
  ghost predicate Descend(ps: seq<Ping>, qs: seq<Ping>) {
    forall y :: 0 <= y < |qs| ==> Among(ps, qs[y])
  }

  ghost predicate Among(ps: seq<Ping>, q: Ping) {
    exists x :: 0 <= x < |ps| && SamePing(ps[x], q)
  }

  predicate SamePing(p: Ping, q: Ping) {
    p.slot == q.slot && p.suspectDeadline == q.suspectDeadline
  }

  /** No more pings to u than before, and none that is new. */
  ghost predicate Quieter(s: State, t: State, u: Uuid) {
    NoNewName(s, t, u) && PingsTo(t, u) <= PingsTo(s, u) && Descend(s.pings, t.pings)
  }

  lemma QuieterThen(s: State, t: State, r: State, u: Uuid)
    requires Quieter(s, t, u) && Quieter(t, r, u)
    ensures Quieter(s, r, u)
  {
    hide PingsTo, SamePing;
    forall y | 0 <= y < |r.pings| ensures Among(s.pings, r.pings[y]) {
      assert Among(t.pings, r.pings[y]);
      var x :| 0 <= x < |t.pings| && SamePing(t.pings[x], r.pings[y]);
      assert Among(s.pings, t.pings[x]);
      var z :| 0 <= z < |s.pings| && SamePing(s.pings[z], t.pings[x]);
      SamePings3(s.pings[z], t.pings[x], r.pings[y]);
    }
  }

  lemma SamePings3(p: Ping, q: Ping, r: Ping)
    requires SamePing(p, q) && SamePing(q, r)
    ensures SamePing(p, r)
  {
  }

  lemma {:induction false} SumLess<T>(xs: seq<T>, f: T -> nat, g: T -> nat)
    requires forall x :: 0 <= x < |xs| ==> f(xs[x]) <= g(xs[x])
    ensures Sum(xs, f) <= Sum(xs, g)
    decreases |xs|
  {
    if xs == [] {
    } else {
      SumLess(xs[..|xs| - 1], f, g);
    }
  }

  /** The slots have no new name, and the pings are the same. */
  lemma NamesQuieter(s: State, t: State, u: Uuid)
    requires NoNewName(s, t, u) && t.pings == s.pings && u != BLANK
    ensures Quieter(s, t, u)
  {
    SumLess(s.pings, To(t, u), To(s, u));
    DescendSame(s.pings);
  }

  lemma DescendSame(ps: seq<Ping>)
    ensures Descend(ps, ps)
  {
    forall y | 0 <= y < |ps| ensures Among(ps, ps[y]) {
      assert SamePing(ps[y], ps[y]);
    }
  }

  /** One ping is gone. */
  lemma RemovedQuieter(s: State, t: State, u: Uuid, p: nat)
    requires p < |s.pings| && t.members == s.members && t.pings == RemoveAt(s.pings, p)
    ensures Quieter(s, t, u)
    ensures PingsTo(t, u) == PingsTo(s, u) - To(s, u)(s.pings[p])
  {
    hide Sum;
    SumRemove(s.pings, To(s, u), p);
    forall x | 0 <= x < |t.pings| ensures To(t, u)(t.pings[x]) == To(s, u)(t.pings[x]) {}
    SumLess(t.pings, To(t, u), To(s, u));
    SumLess(t.pings, To(s, u), To(t, u));
    forall y | 0 <= y < |t.pings| ensures Among(s.pings, t.pings[y]) {
      assert SamePing(s.pings[if y < p then y else y + 1], t.pings[y]);
    }
  }

  lemma DropQuieter(s: State, v: Uuid, u: Uuid)
    ensures Quieter(s, DropPing(s, v), u)
    ensures v == u ==> PingsTo(DropPing(s, v), u) == if PingsTo(s, u) == 0 then 0 else PingsTo(s, u) - 1
  {
    hide Sum, Quieter;
    var p := PingFind(s, v);
    FoundIff(s, v);
    if p.Some? {
      RemovedQuieter(s, DropPing(s, v), u, p.value);
      assert Targets(s, v)(s.pings[p.value]);
    } else {
      StaysQuiet(s, u);
    }
  }

  lemma {:induction false} SumPositiveIff<T>(xs: seq<T>, weight: T -> nat)
    ensures Sum(xs, weight) > 0 <==> exists x :: 0 <= x < |xs| && weight(xs[x]) > 0
    decreases |xs|
  {
    if xs == [] {
    } else {
      var n := |xs| - 1;
      SumPositiveIff(xs[..n], weight);
      assert forall x :: 0 <= x < n ==> xs[..n][x] == xs[x];
      if x :| 0 <= x < n && weight(xs[x]) > 0 { assert weight(xs[..n][x]) > 0; }
    }
  }

  lemma StaysQuiet(s: State, u: Uuid)
    ensures Quieter(s, s, u)
  {
    DescendSame(s.pings);
  }

  /** Somebody waits for u if and only if the search finds a ping. */
  lemma FoundIff(s: State, u: Uuid)
    ensures PingFind(s, u).Some? <==> PingsTo(s, u) > 0
  {
    hide Sum;
    SumPositiveIff(s.pings, To(s, u));
    if PingFind(s, u).Some? {
      var x := PingFind(s, u).value;
      assert Targets(s, u)(s.pings[x]) && To(s, u)(s.pings[x]) > 0;
    } else {
      forall x | 0 <= x < |s.pings| ensures To(s, u)(s.pings[x]) == 0 { assert !Targets(s, u)(s.pings[x]); }
    }
  }

  // ----- hearing -----

  /** Hearing an entry, unless it confirms somebody. */
  lemma CheckQuieter(env: Env, s: State, k: Knowledge, e: Entry, u: Uuid)
    requires Inv(s, k) && BookOk(k) && RoomFor(env, k) && |s.members| == env.cfg.maxMembers
    requires Named(s, k, e) && u != BLANK && ViewOf(s, u) != Unknown
    requires |Check(env, s, e).confirmed| == |s.confirmed|
    ensures Quieter(s, Check(env, s, e), u)
  {
    hide Core, ViewOf, MemberUpdate, AddLive, AddConfirmed, Find, Quieter, UpdateFind;
    FindKeeps(s, k, e);
    FindKeepsNames(s, k, e, u);
    var (s1, i) := Find(s, e);
    NamesQuieter(s, s1, u);
    if i.None? {
      StaysQuiet(s, u);
      if ConfirmedFind(s1, e.uuid).None? { AddQuieter(env, s, k, e, u); }
    } else {
      var s2 := MemberUpdate(env, s1, i.value, e);
      MemberUpdateKeeps(env, s1, k, i.value, e);
      UpdateQuieter(env, s1, i.value, e, u);
      QuieterThen(s, s1, s2, u);
      if e.status != Confirmed { FollowerFound(s2, k, Live(i.value)); }
    }
  }

  lemma FindKeepsNames(s: State, k: Knowledge, e: Entry, u: Uuid)
    requires Inv(s, k) && BookOk(k) && Named(s, k, e) && u != BLANK && ViewOf(s, u) != Unknown
    ensures NoNewName(s, Find(s, e).0, u) && Find(s, e).0.pings == s.pings
  {
    hide Inv, ViewOf;
    if e.uuid == u { FindKnown(s, k, e); }
  }

  lemma AddQuieter(env: Env, s: State, k: Knowledge, e: Entry, u: Uuid)
    requires Inv(s, k) && BookOk(k) && RoomFor(env, k) && |s.members| == env.cfg.maxMembers
    requires Newcomer(s, k, e) && u != BLANK && ViewOf(s, u) != Unknown
    requires var t := if e.status == Confirmed then AddConfirmed(env, s, e) else AddLive(env, s, e);
      |t.confirmed| == |s.confirmed|
    ensures Quieter(s, if e.status == Confirmed then AddConfirmed(env, s, e) else AddLive(env, s, e), u)
  {
    hide Core, Quieter, IndexAdd;
    RoomForNewcomer(s, k, e);
    NewcomerIsOther(s, k, e, u);
    LiveGrows(env, s, e);
    NamesQuieter(s, AddLive(env, s, e), u);
  }

  lemma NewcomerIsOther(s: State, k: Knowledge, e: Entry, u: Uuid)
    requires s.mc <= |s.members| && Newcomer(s, k, e) && ViewOf(s, u) != Unknown
    ensures e.uuid != u
  {
    if e.uuid == u { SeenNowhere(s, u); }
  }

  lemma UpdateQuieter(env: Env, s: State, i: nat, e: Entry, u: Uuid)
    requires i < s.mc && s.members[i].entry.uuid == e.uuid && u != BLANK
    requires |MemberUpdate(env, s, i, e).confirmed| == |s.confirmed|
    ensures Quieter(s, MemberUpdate(env, s, i, e), u)
  {
    hide Retrieve, Quieter, DropPing, Confirm, Notifies;
    var t := MemberUpdate(env, s, i, e);
    StaysQuiet(s, u);
    if e.status == Confirmed {
      if Overrides(e.status, e.incarnation, s.members[i].entry) { ConfirmedGrow(env, s, i, e); }
    } else {
      UpdateDoes(env, s, i, e);
      if e.uuid == s.self.uuid && e.status == Suspect {
        NamesQuieter(s, t, u);
      } else if Overrides(e.status, e.incarnation, s.members[i].entry) {
        var s1 := Restamp(env, s, i, e.status, e.incarnation);
        NamesQuieter(s, s1, u);
        DropQuieter(s1, e.uuid, u);
        QuieterThen(s, s1, t, u);
      }
    }
  }

  lemma ConfirmedGrow(env: Env, s: State, i: nat, e: Entry)
    requires i < s.mc && e.status == Confirmed && Overrides(e.status, e.incarnation, s.members[i].entry)
    requires !(e.uuid == s.self.uuid && e.status == Suspect)
    ensures |MemberUpdate(env, s, i, e).confirmed| == |s.confirmed| + 1
  {
    hide Confirm, DropPing;
    var x := s.members[i].entry;
    var s1 := SetSlot(s, i, s.members[i].(entry := x.(status := Confirmed, incarnation := e.incarnation)));
    ConfirmShape(env, DropPing(s1, x.uuid), i);
  }

  lemma {:induction false} CheckAllQuieter(env: Env, s: State, k: Knowledge, es: seq<Entry>, u: Uuid)
    requires Inv(s, k) && BookOk(k) && RoomFor(env, k) && |s.members| == env.cfg.maxMembers
    requires (forall i :: 0 <= i < |es| ==> Named(s, k, es[i])) && u != BLANK && ViewOf(s, u) != Unknown
    requires |CheckAll(env, s, es).confirmed| == |s.confirmed|
    ensures Quieter(s, CheckAll(env, s, es), u)
  {
    hide Inv, ViewOf, Check, Quieter, HeedAll;
    if es == [] {
      StaysQuiet(s, u);
    } else {
      var n := |es| - 1;
      var t := CheckAll(env, s, es[..n]);
      CheckAllQuieter(env, s, k, es[..n], u);
      CheckAllKeeps(env, s, k, es[..n]);
      CheckAllHeeds(env, s, k, es[..n], u);
      HeardIsKnown(s.self.uuid, ViewOf(s, u), es[..n], u, 0);
      CheckQuieter(env, t, k, es[n], u);
      QuieterThen(s, t, CheckAll(env, s, es), u);
    }
  }

  // ----- answering -----

  /** The slots carry the same names, and the first ping to v is gone, if there was one. */
  lemma FirstGone(s: State, t: State, v: Uuid, u: Uuid)
    requires |t.members| == |s.members|
    requires forall y :: 0 <= y < |s.members| ==> t.members[y].entry.uuid == s.members[y].entry.uuid
    requires WithoutFirst(s.pings, t.pings, Targets(s, v)) && u != BLANK
    ensures Quieter(s, t, u)
    ensures v == u ==> PingsTo(t, u) == if PingsTo(s, u) == 0 then 0 else PingsTo(s, u) - 1
  {
    hide Sum, Quieter, RemoveAt, PingsTo, WithoutFirst;
    FoundIff(s, v);
    if PingFind(s, v).Some? {
      var p := FirstHit(s.pings, t.pings, Targets(s, v));
      var s1 := s.(pings := t.pings);
      RemovedQuieter(s, s1, u, p);
      NamesAlike(s1, t, u);
      QuieterThen(s, s1, t, u);
    } else {
      NothingHit(s.pings, t.pings, Targets(s, v));
      NamesAlike(s, t, u);
    }
  }

  lemma FirstHit(ps: seq<Ping>, qs: seq<Ping>, hit: Ping -> bool) returns (p: nat)
    requires WithoutFirst(ps, qs, hit) && First(ps, hit).Some?
    ensures p < |ps| && hit(ps[p]) && qs == RemoveAt(ps, p)
  {
    p :| 0 <= p < |ps| && hit(ps[p]) && qs == ps[..p] + ps[p + 1..];
    RemoveAtIs(ps, p);
  }

  lemma NothingHit(ps: seq<Ping>, qs: seq<Ping>, hit: Ping -> bool)
    requires WithoutFirst(ps, qs, hit) && First(ps, hit).None?
    ensures qs == ps
  {
  }

  lemma RemoveAtIs<T>(xs: seq<T>, p: nat)
    requires p < |xs|
    ensures RemoveAt(xs, p) == xs[..p] + xs[p + 1..]
  {
  }

  lemma NamesAlike(s: State, t: State, u: Uuid)
    requires |t.members| == |s.members| && t.pings == s.pings && u != BLANK
    requires forall y :: 0 <= y < |s.members| ==> t.members[y].entry.uuid == s.members[y].entry.uuid
    ensures Quieter(s, t, u) && PingsTo(t, u) == PingsTo(s, u)
  {
    hide Sum;
    NamesQuieter(s, t, u);
    NamesQuieter(t, s, u);
  }

  /** The messages by which a sender has its first ping forgotten. */
  predicate Replying(kind: Kind) {
    kind == PingMessage || kind == AckMessage
  }

  /** No handler adds a ping, and a reply from u takes one off. */
  lemma HandlersQuieter(env: Env, s: State, k: Knowledge, m: Message, u: Uuid)
    requires Inv(s, k) && BookOk(k) && MessageOk(s, k, m) && Handled(m.kind) && u != BLANK
    requires m.updates != [] ==> ViewOf(s, m.updates[0].uuid) != Unknown
    ensures var t := if m.kind == PingMessage then PingHandle(env, s, m)
                     else if m.kind == PingReqMessage then PingReqHandle(env, s, m)
                     else AckHandle(env, s, m);
      && Quieter(s, t, u)
      && (Replying(m.kind) && m.sender.uuid == u ==>
            PingsTo(t, u) == if PingsTo(s, u) == 0 then 0 else PingsTo(s, u) - 1)
  {
    hide Inv, ViewOf, PingHandle, PingReqHandle, AckHandle, SlotOf, WithoutFirst, Gossip, SkipSweep, Taken, Notifies;
    hide Quieter, PingsTo;
    AllNamed(s, k, m);
    if m.kind == PingMessage {
      PingAnswered(env, s, k, m);
      SlotNames(s, m.sender.uuid);
      FirstGone(s, PingHandle(env, s, m), m.sender.uuid, u);
    } else if m.kind == PingReqMessage {
      PingReqServed(env, s, k, m);
      NamesAlike(s, PingReqHandle(env, s, m), u);
    } else {
      var t := AckHandle(env, s, m);
      AckTaken(env, s, k, m);
      StaysQuiet(s, u);
      FoundIff(s, u);
      if PingFind(s, m.sender.uuid).Some? {
        AckIsFirst(s, m.sender.uuid, t.pings);
        FirstGone(s, t, m.sender.uuid, u);
      }
    }
  }

  lemma SlotNames(s: State, u: Uuid)
    ensures SlotOf(s, u).Some? ==> SlotOf(s, u).value < s.mc
  {
  }

  lemma AckIsFirst(s: State, u: Uuid, qs: seq<Ping>)
    requires PingFind(s, u).Some?
    requires var p := PingFind(s, u).value; p < |s.pings| && qs == s.pings[..p] + s.pings[p + 1..]
    ensures WithoutFirst(s.pings, qs, Targets(s, u))
  {
  }

  // ----- sweeping -----

  lemma PingTurnQuieter(env: Env, s: State, now: nat, i: nat, u: Uuid)
    requires i < |s.pings| && u != BLANK
    ensures Quieter(s, PingTurn(env, s, now, i), u)
  {
    hide MarkSuspect, AskHelpers, Sum;
    var p, t := s.pings[i], PingTurn(env, s, now, i);
    PingTurnPings(env, s, now, i);
    PingTurnSlots(env, s, now, i);
    hide Quieter, PingTurn;
    var s1 := s.(pings := t.pings);
    if p.suspectDeadline < now { ReplacedQuieter(s, s1, u, i); } else { FlaggedQuieter(s, s1, u, i); }
    NamesAlike(s1, t, u);
    QuieterThen(s, s1, t, u);
  }

  lemma ReplacedQuieter(s: State, t: State, u: Uuid, i: nat)
    requires i < |s.pings| && t.members == s.members
    requires t.pings == s.pings[i := s.pings[|s.pings| - 1]][..|s.pings| - 1]
    ensures Quieter(s, t, u)
  {
    hide Sum;
    SumReplace(s.pings, To(s, u), i);
    forall y | 0 <= y < |t.pings| ensures Among(s.pings, t.pings[y]) {
      assert SamePing(s.pings[if y == i then |s.pings| - 1 else y], t.pings[y]);
    }
    SumLess(t.pings, To(t, u), To(s, u));
  }

  lemma FlaggedQuieter(s: State, t: State, u: Uuid, i: nat)
    requires i < |s.pings| && t.members == s.members
    requires t.pings == s.pings || t.pings == s.pings[i := s.pings[i].(pingReq := true)]
    ensures Quieter(s, t, u)
  {
    hide Sum;
    SumUpdate(s.pings, To(s, u), i, t.pings[i]);
    assert t.pings == s.pings[i := t.pings[i]];
    forall y | 0 <= y < |t.pings| ensures Among(s.pings, t.pings[y]) { assert SamePing(s.pings[y], t.pings[y]); }
    SumLess(t.pings, To(t, u), To(s, u));
  }

  lemma {:induction false} PingsQuieter(env: Env, s: State, now: nat, i: nat, u: Uuid)
    requires u != BLANK
    ensures Quieter(s, PingsFrom(env, s, now, i), u)
    decreases |s.pings| - i
  {
    hide PingTurn, Quieter;
    if i >= |s.pings| {
      StaysQuiet(s, u);
    } else {
      var t := PingTurn(env, s, now, i);
      PingTurnQuieter(env, s, now, i, u);
      PingsQuieter(env, t, now, if s.pings[i].suspectDeadline < now then i else i + 1, u);
      QuieterThen(s, t, PingsFrom(env, s, now, i), u);
    }
  }

  /** The sweep over suspects changes nothing but the clock, unless it confirms somebody. */
  lemma {:induction false} NobodyConfirmed(env: Env, s: State, i: nat)
    requires |SuspectsFrom(env, s, i).confirmed| == |s.confirmed|
    ensures var t := SuspectsFrom(env, s, i); t == s.(ticks := t.ticks)
    decreases s.mc - i
  {
    hide Confirm;
    if i >= s.mc {
    } else {
      ConfirmShape(env, s.(ticks := s.ticks + 1), i);
      NobodyConfirmed(env, SuspectTurn(env, s, i), i + 1);
    }
  }

  lemma SweepsQuieter(env: Env, s: State, u: Uuid)
    requires |Swept(env, s).confirmed| == |s.confirmed| && u != BLANK
    ensures Quieter(s, Swept(env, s), u)
  {
    hide PingReqsFrom, PingsFrom, SuspectsFrom, Quieter;
    var s1 := PingReqsFrom(env, s, 0);
    var s2 := s1.(ticks := s1.ticks + 1);
    var s3 := PingsCheck(env, s1);
    NamesAlike(s, s2, u);
    PingsQuieter(env, s2, env.clock(s1.ticks), 0, u);
    PingsFromTables(env, s2, env.clock(s1.ticks), 0);
    NobodyConfirmed(env, s3, 0);
    NamesAlike(s3, Swept(env, s), u);
    QuieterThen(s, s2, s3, u);
    QuieterThen(s, s3, Swept(env, s), u);
  }

  /**
   * A whole turn of the listener in which nobody is confirmed: no ping to a known u is added, and a reply from u takes
   * one off.
   */
  lemma ListenQuieter(env: Env, s: State, k: Knowledge, m: Option<Message>, u: Uuid)
    requires Inv(s, k) && BookOk(k) && RoomFor(env, k) && |s.members| == env.cfg.maxMembers
    requires (m.Some? ==> Acceptable(s, k, m.value)) && u != BLANK && ViewOf(s, u) != Unknown
    requires |Listen(env, s, m).confirmed| == |s.confirmed|
    ensures var t := Listen(env, s, m);
      && Quieter(s, t, u)
      && (m.Some? && Replying(m.value.kind) && m.value.sender.uuid == u && PingsTo(s, u) <= 1 ==> PingsTo(t, u) == 0)
  {
    hide Inv, ViewOf, Swept, Handle, Quieter, PingsTo, MessageTo, Expired;
    var s1, t := Swept(env, s), Listen(env, s, m);
    ListenIs(env, s, m);
    assert |s1.confirmed| == |s.confirmed| by { SweptGrows(env, s); }
    SweepsQuieter(env, s, u);
    SweepsDoubt(env, s, k, u);
    if m.Some? {
      SweptAcceptable(env, s, k, m.value);
      HandleQuieter(env, s1, k, m.value, u);
      QuieterThen(s, s1, t, u);
      QuieterCounts(s, s1, u);
    }
  }

  lemma QuieterCounts(s: State, t: State, u: Uuid)
    requires Quieter(s, t, u)
    ensures PingsTo(t, u) <= PingsTo(s, u)
  {
  }

  lemma SweptGrows(env: Env, s: State)
    ensures Grows(s, Swept(env, s))
  {
    hide PingReqsFrom, PingsCheck, SuspectsFrom;
  }

  lemma HandleQuieter(env: Env, s: State, k: Knowledge, m: Message, u: Uuid)
    requires Inv(s, k) && BookOk(k) && RoomFor(env, k) && |s.members| == env.cfg.maxMembers
    requires Acceptable(s, k, m) && u != BLANK && ViewOf(s, u) != Unknown
    requires |Handle(env, s, m).confirmed| == |s.confirmed|
    ensures var t := Handle(env, s, m);
      && Quieter(s, t, u)
      && (Replying(m.kind) && m.sender.uuid == u && PingsTo(s, u) <= 1 ==> PingsTo(t, u) == 0)
  {
    hide Inv, ViewOf, CheckAll, PingHandle, PingReqHandle, AckHandle, HeedAll, MessageTo, Quieter, PingsTo;
    StaysQuiet(s, u);
    if Handled(m.kind) {
      var es, s1 := [m.sender] + m.updates, Extract(env, s, m);
      AllNamed(s, k, m);
      ExtractKeeps(env, s, k, m);
      CheckAllQuieter(env, s, k, es, u);
      if m.updates != [] {
        AllNamed(s1, k, m);
        CheckAllHeeds(env, s, k, es, m.updates[0].uuid);
        assert es[1] == m.updates[0];
        HeardIsKnown(s.self.uuid, ViewOf(s, m.updates[0].uuid), es, m.updates[0].uuid, 1);
      }
      HandlersQuieter(env, s1, k, m, u);
      QuieterThen(s, s1, Handle(env, s, m), u);
      QuieterCounts(s, s1, u);
    }
  }
}
