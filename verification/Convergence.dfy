/**
 * What a node believes about another one is the strongest word it has heard. Order and repetition of
 * the news do not matter, although slots, ring and updates do depend on them. Of itself a node believes
 * the same, except that it answers a suspicion instead of believing it.
 */
module Convergence {
  import opened Types
  import opened Seqs
  import opened Tables
  import opened Protocol
  import opened Invariant
  import opened Preservation
  import opened Views

  /** What the node `me` believes after hearing e of somebody it viewed as v: of its own death, too. */
  function Heeded(me: Uuid, v: View, e: Entry): View {
    if e.uuid == me && e.status == Suspect && v != Dead then Living(Succ(e.incarnation)) else Join(v, Word(e))
  }

  /** Updating a listed member: the entry is heeded, and the views of others stay. */
  lemma UpdateJoins(env: Env, s: State, k: Knowledge, i: nat, e: Entry, u: Uuid)
    requires Inv(s, k) && Named(s, k, e) && i < s.mc && s.members[i].entry.uuid == e.uuid
    ensures ViewOf(MemberUpdate(env, s, i, e), u) ==
      if e.uuid == u then Heeded(s.self.uuid, ViewOf(s, u), e) else ViewOf(s, u)
  {
    hide ViewOf, Followed, SlotsOk, SeedOk, SelfListed, PingsOk, OutboxOk, Ring, Confirm, Announce, DropPing;
    MemberUpdateKeeps(env, s, k, i, e);
    SeenLive(s, i);
    var t := MemberUpdate(env, s, i, e);
    var x := s.members[i].entry;
    if e.uuid == s.self.uuid && e.status == Suspect {
      if e.uuid == u { SeenLive(t, i); } else { OtherSlot(s, t, i, u); }
    } else if Overrides(e.status, e.incarnation, x) {
      if e.status == Confirmed {
        var m := s.members[i].(entry := x.(status := Confirmed, incarnation := e.incarnation));
        var s1 := DropPing(SetSlot(s, i, m), x.uuid);
        assert UniqueUuids(s1.members, s1.mc, s1.confirmed);
        AfterConfirm(env, s1, i, u);
        if e.uuid != u { OtherSlot(s, s1, i, u); }
      } else {
        if e.uuid == u { SeenLive(t, i); } else { OtherSlot(s, t, i, u); }
      }
    }
  }

  /** Naming the seed makes a newly known node of it, at life zero. */
  lemma FindJoins(s: State, k: Knowledge, e: Entry, u: Uuid)
    requires Inv(s, k) && BookOk(k) && Named(s, k, e) && u != BLANK
    ensures var (t, i) := Find(s, e);
      && (e.uuid != u ==> ViewOf(t, u) == ViewOf(s, u))
      && (e.uuid == u && i.Some? ==> ViewOf(t, u) == Join(ViewOf(s, u), Living(0)))
      && (e.uuid == u && i.None? ==> t == s && ViewOf(s, u) == if ConfirmedFind(s, u).Some? then Dead else Unknown)
  {
    hide ViewOf, Followed, SlotsOk, SelfListed, PingsOk, OutboxOk, Ring;
    FindKeeps(s, k, e);
    var (t, i) := Find(s, e);
    if i.Some? {
      var m := s.members[i.value].entry;
      SeenLive(t, i.value);
      if m.uuid == e.uuid {
        assert t.members[i.value] == s.members[i.value];
        assert t.members == s.members;
        SeenLive(s, i.value);
      } else {
        assert SeedAt(s.self.uuid, k, s.members, s.mc, s.confirmed, i.value);
        if e.uuid == u { NamelessUnseen(s, k, i.value, e, t); } else { OtherSlot(s, t, i.value, u); }
      }
    } else if e.uuid == u {
      forall j | 0 <= j < s.mc ensures !HasUuid(u)(Lives(s)[j]) { assert !Fits(e)(Lives(s)[j]); }
      FirstNone(Lives(s), HasUuid(u));
      ViewFromParts(s, u);
    }
  }

  lemma ViewFromParts(s: State, u: Uuid)
    requires First(Lives(s), HasUuid(u)).None?
    ensures ViewOf(s, u) == if ConfirmedFind(s, u).Some? then Dead else Unknown
  {
  }

  lemma NamelessUnseen(s: State, k: Knowledge, i: nat, e: Entry, t: State)
    requires UniqueUuids(t.members, t.mc, t.confirmed) && i < s.mc == t.mc && e.uuid != BLANK
    requires t == s.(members := t.members) && |t.members| == |s.members|
    requires t.members[i].entry.uuid == e.uuid && s.members[i].entry.uuid == BLANK
    requires forall j :: 0 <= j < s.mc && j != i ==> t.members[j] == s.members[j]
    ensures ViewOf(s, e.uuid) == Unknown
  {
    SeenNowhere(s, e.uuid);
  }

  lemma AddJoins(env: Env, s: State, k: Knowledge, e: Entry, u: Uuid)
    requires Inv(s, k) && BookOk(k) && RoomFor(env, k) && |s.members| == env.cfg.maxMembers
    requires Newcomer(s, k, e)
    ensures var t := if e.status == Confirmed then AddConfirmed(env, s, e) else AddLive(env, s, e);
      ViewOf(t, u) == if e.uuid == u then Word(e) else ViewOf(s, u)
  {
    hide ViewOf, Followed, SlotsOk, SeedOk, SelfListed, PingsOk, OutboxOk, Ring, IndexAdd;
    RoomForNewcomer(s, k, e);
    if e.status == Confirmed {
      AddConfirmedKeeps(env, s, k, e);
      var t := AddConfirmed(env, s, e);
      assert t.confirmed[|s.confirmed|].entry == e;
      if e.uuid == u { SeenConfirmed(t, |s.confirmed|); } else {
        assert forall j :: 0 <= j < |s.confirmed| ==> t.confirmed[j] == s.confirmed[j];
        ListedAlikeViewedAlike(s, t, u);
      }
    } else {
      AddLiveKeeps(env, s, k, e);
      var t := AddLive(env, s, e);
      LiveGrows(env, s, e);
      if e.uuid == u { SeenLive(t, s.mc); } else {
        assert forall j :: 0 <= j < s.mc ==> t.members[j] == s.members[j];
        ListedAlikeViewedAlike(s, t, u);
      }
    }
  }

  /** A node always has a view of itself. */
  lemma SelfViewed(s: State, k: Knowledge)
    requires Inv(s, k)
    ensures ViewOf(s, s.self.uuid) != Unknown
  {
    hide Followed, SlotsOk, SeedOk, PingsOk, OutboxOk, Ring, ViewOf;
    if s.mc > 0 && s.members[0].entry.uuid == s.self.uuid {
      SeenLive(s, 0);
    } else {
      var j :| 0 <= j < |s.confirmed| && s.confirmed[j].entry.uuid == s.self.uuid;
      SeenConfirmed(s, j);
    }
  }

  /** Refinement: taking in an entry, the node heeds it in the view of its subject and leaves all others. */
  lemma CheckJoins(env: Env, s: State, k: Knowledge, e: Entry, u: Uuid)
    requires Inv(s, k) && BookOk(k) && RoomFor(env, k) && |s.members| == env.cfg.maxMembers
    requires Named(s, k, e) && u != BLANK
    ensures ViewOf(Check(env, s, e), u) ==
      if e.uuid == u then Heeded(s.self.uuid, ViewOf(s, u), e) else ViewOf(s, u)
  {
    hide Core, ViewOf, MemberUpdate, AddLive, AddConfirmed, Find;
    FindKeeps(s, k, e);
    FindJoins(s, k, e, u);
    SelfViewed(s, k);
    var (s1, i) := Find(s, e);
    if i.None? {
      if ConfirmedFind(s1, e.uuid).None? { AddJoins(env, s1, k, e, u); }
    } else {
      UpdateJoins(env, s1, k, i.value, e, u);
      MemberUpdateKeeps(env, s1, k, i.value, e);
      if e.status != Confirmed { FollowerFound(MemberUpdate(env, s1, i.value, e), k, Live(i.value)); }
    }
  }

  // ----- sequences of entries -----

  /** The join of v with every word about u. */
  function JoinAll(v: View, es: seq<Entry>, u: Uuid): View {
    if es == [] then v
    else
      var w := JoinAll(v, es[..|es| - 1], u);
      var e := es[|es| - 1];
      if e.uuid == u then Join(w, Word(e)) else w
  }

  /** The same for the node `me`: every word about u is heeded in turn. */
  function HeedAll(me: Uuid, v: View, es: seq<Entry>, u: Uuid): View {
    if es == [] then v
    else
      var w := HeedAll(me, v, es[..|es| - 1], u);
      var e := es[|es| - 1];
      if e.uuid == u then Heeded(me, w, e) else w
  }

  /** Of anybody else, to heed is to join. */
  lemma {:induction false} OthersAreJoined(me: Uuid, v: View, es: seq<Entry>, u: Uuid)
    requires u != me
    ensures HeedAll(me, v, es, u) == JoinAll(v, es, u)
  {
    if es == [] {
    } else {
      OthersAreJoined(me, v, es[..|es| - 1], u);
    }
  }

  /** We are told of our death. */
  predicate SaysDead(es: seq<Entry>, u: Uuid) {
    exists i :: 0 <= i < |es| && es[i].uuid == u && es[i].status == Confirmed
  }

  lemma SaysDeadNext(es: seq<Entry>, u: Uuid)
    requires es != []
    ensures var n := |es| - 1;
      SaysDead(es, u) <==> SaysDead(es[..n], u) || (es[n].uuid == u && es[n].status == Confirmed)
  {
    var n := |es| - 1;
    if SaysDead(es, u) {
      var i :| 0 <= i < |es| && es[i].uuid == u && es[i].status == Confirmed;
      if i < n { assert es[..n][i] == es[i]; }
    }
    if SaysDead(es[..n], u) {
      var i :| 0 <= i < n && es[..n][i].uuid == u && es[..n][i].status == Confirmed;
      assert es[i] == es[..n][i];
    }
  }

  /** A node is dead to itself if and only if it was or somebody told it so, and it never doubts itself. */
  lemma {:induction false} OwnViewIs(me: Uuid, v: View, es: seq<Entry>)
    ensures HeedAll(me, v, es, me) == Dead <==> v == Dead || SaysDead(es, me)
    ensures !v.Doubted? ==> !HeedAll(me, v, es, me).Doubted?
  {
    hide SaysDead;
    if es == [] {
      NobodySaysDead(me);
    } else {
      SaysDeadNext(es, me);
      OwnViewIs(me, v, es[..|es| - 1]);
    }
  }

  lemma NobodySaysDead(u: Uuid)
    ensures !SaysDead([], u)
  {
  }

  lemma {:induction false} CheckAllHeeds(env: Env, s: State, k: Knowledge, es: seq<Entry>, u: Uuid)
    requires Inv(s, k) && BookOk(k) && RoomFor(env, k) && |s.members| == env.cfg.maxMembers
    requires forall i :: 0 <= i < |es| ==> Named(s, k, es[i])
    requires u != BLANK
    ensures ViewOf(CheckAll(env, s, es), u) == HeedAll(s.self.uuid, ViewOf(s, u), es, u)
  {
    hide Inv, ViewOf, Check;
    if es == [] {
    } else {
      var n := |es| - 1;
      CheckAllHeeds(env, s, k, es[..n], u);
      CheckAllKeeps(env, s, k, es[..n]);
      CheckJoins(env, CheckAll(env, s, es[..n]), k, es[n], u);
    }
  }

  /** The join is an upper bound of everything heard, and itself something heard. */
  lemma {:induction false} JoinAllIsBest(v: View, es: seq<Entry>, u: Uuid)
    ensures Below(v, JoinAll(v, es, u))
    ensures forall i :: 0 <= i < |es| && es[i].uuid == u ==> Below(Word(es[i]), JoinAll(v, es, u))
    ensures JoinAll(v, es, u) == v || exists i :: 0 <= i < |es| && es[i].uuid == u && Word(es[i]) == JoinAll(v, es, u)
  {
    if es == [] {
    } else {
      var n := |es| - 1;
      JoinAllIsBest(v, es[..n], u);
      var w := JoinAll(v, es[..n], u);
      if w != v {
        var i :| 0 <= i < n && es[..n][i].uuid == u && Word(es[..n][i]) == w;
        assert es[i] == es[..n][i];
      }
      forall i | 0 <= i < |es| && es[i].uuid == u ensures Below(Word(es[i]), JoinAll(v, es, u)) {
        if i < n { assert es[i] == es[..n][i]; }
        BelowIsTotalOrder(Word(es[i]), w, JoinAll(v, es, u));
      }
    }
  }

  // ----- sequences of messages -----

  function ExtractAll(env: Env, s: State, ms: seq<Message>): State {
    if ms == [] then s else Extract(env, ExtractAll(env, s, ms[..|ms| - 1]), ms[|ms| - 1])
  }

  /** Every entry of the messages, in the order in which it is taken in. */
  function Heard(ms: seq<Message>): seq<Entry> {
    if ms == [] then []
    else Heard(ms[..|ms| - 1]) + [ms[|ms| - 1].sender] + ms[|ms| - 1].updates
  }

  lemma {:induction false} CheckAllAddsUp(env: Env, s: State, a: seq<Entry>, b: seq<Entry>)
    ensures CheckAll(env, s, a + b) == CheckAll(env, CheckAll(env, s, a), b)
  {
    hide Check;
    if b == [] {
      assert a + b == a;
    } else {
      var n := |b| - 1;
      assert (a + b)[..|a + b| - 1] == a + b[..n];
      CheckAllAddsUp(env, s, a, b[..n]);
    }
  }

  lemma {:induction false} ExtractsAreChecks(env: Env, s: State, ms: seq<Message>)
    ensures ExtractAll(env, s, ms) == CheckAll(env, s, Heard(ms))
  {
    hide Check, CheckAll;
    if ms != [] {
      var n := |ms| - 1;
      ExtractsAreChecks(env, s, ms[..n]);
      var last := [ms[n].sender] + ms[n].updates;
      CheckAllAddsUp(env, s, Heard(ms[..n]), last);
      assert Heard(ms) == Heard(ms[..n]) + last;
    } else {
      NothingHeard(env, s);
    }
  }

  ghost predicate GoodNews(s: State, k: Knowledge, ms: seq<Message>) {
    forall i :: 0 <= i < |ms| ==> Handled(ms[i].kind) && MessageOk(s, k, ms[i])
  }

  lemma {:induction false} HeardNamed(s: State, k: Knowledge, ms: seq<Message>)
    requires GoodNews(s, k, ms)
    ensures forall i :: 0 <= i < |Heard(ms)| ==> Named(s, k, Heard(ms)[i])
  {
    if ms == [] {
    } else {
      var n := |ms| - 1;
      HeardNamed(s, k, ms[..n]);
      assert MessageOk(s, k, ms[n]);
    }
  }

  /** After any messages, the view of u is the join of the old view and of every word heard about u. */
  lemma ExtractionJoins(env: Env, s: State, k: Knowledge, ms: seq<Message>, u: Uuid)
    requires Inv(s, k) && BookOk(k) && RoomFor(env, k) && |s.members| == env.cfg.maxMembers
    requires GoodNews(s, k, ms) && u != BLANK && u != s.self.uuid
    ensures ViewOf(ExtractAll(env, s, ms), u) == JoinAll(ViewOf(s, u), Heard(ms), u)
  {
    hide Inv, ViewOf, CheckAll, Heard, JoinAll, HeedAll;
    ExtractsAreChecks(env, s, ms);
    HeardNamed(s, k, ms);
    CheckAllHeeds(env, s, k, Heard(ms), u);
    OthersAreJoined(s.self.uuid, ViewOf(s, u), Heard(ms), u);
  }

  /**
   * After any messages, what a node believes of itself: each word about it is heeded in turn, so that it
   * counts itself among the dead if and only if it did before or was told so, and never doubts itself.
   */
  lemma ExtractionOfSelf(env: Env, s: State, k: Knowledge, ms: seq<Message>)
    requires Inv(s, k) && BookOk(k) && RoomFor(env, k) && |s.members| == env.cfg.maxMembers
    requires GoodNews(s, k, ms)
    ensures var me, t := s.self.uuid, ExtractAll(env, s, ms);
      && ViewOf(t, me) == HeedAll(me, ViewOf(s, me), Heard(ms), me)
      && (ViewOf(t, me) == Dead <==> ViewOf(s, me) == Dead || SaysDead(Heard(ms), me))
      && (!ViewOf(s, me).Doubted? ==> !ViewOf(t, me).Doubted?)
  {
    hide Core, StatusOk, Ring, ViewOf, CheckAll, Heard, HeedAll, SaysDead;
    ExtractsAreChecks(env, s, ms);
    HeardNamed(s, k, ms);
    Parts(s, k);
    CheckAllHeeds(env, s, k, Heard(ms), s.self.uuid);
    OwnViewIs(s.self.uuid, ViewOf(s, s.self.uuid), Heard(ms));
  }

  /** Every word in es about u is also said in fs. */
  ghost predicate Repeated(es: seq<Entry>, fs: seq<Entry>, u: Uuid) {
    forall i :: 0 <= i < |es| && es[i].uuid == u ==>
      exists j :: 0 <= j < |fs| && fs[j].uuid == u && Word(fs[j]) == Word(es[i])
  }

  /** Both say the same set of words about u. */
  ghost predicate SameWords(es: seq<Entry>, fs: seq<Entry>, u: Uuid) {
    Repeated(es, fs, u) && Repeated(fs, es, u)
  }

  lemma RepeatedJoinsLower(v: View, es: seq<Entry>, fs: seq<Entry>, u: Uuid)
    requires Repeated(es, fs, u)
    ensures Below(JoinAll(v, es, u), JoinAll(v, fs, u))
  {
    hide JoinAll, Below;
    JoinAllIsBest(v, es, u);
    JoinAllIsBest(v, fs, u);
    var a := JoinAll(v, es, u);
    if a != v {
      var i :| 0 <= i < |es| && es[i].uuid == u && Word(es[i]) == a;
      var j :| 0 <= j < |fs| && fs[j].uuid == u && Word(fs[j]) == Word(es[i]);
    }
  }

  lemma SameWordsSameJoin(v: View, es: seq<Entry>, fs: seq<Entry>, u: Uuid)
    requires SameWords(es, fs, u)
    ensures JoinAll(v, es, u) == JoinAll(v, fs, u)
  {
    hide JoinAll, Repeated;
    RepeatedJoinsLower(v, es, fs, u);
    RepeatedJoinsLower(v, fs, es, u);
    BelowIsTotalOrder(JoinAll(v, es, u), JoinAll(v, fs, u), v);
  }

  /**
   * Convergence: two nodes that agree on u and then hear the same set of words about u, in
   * whatever order, grouping and multiplicity, agree on u again.
   */
  lemma Converge(env: Env, s: State, k: Knowledge, ms: seq<Message>,
                 envT: Env, t: State, kT: Knowledge, ns: seq<Message>, u: Uuid)
    requires Inv(s, k) && BookOk(k) && RoomFor(env, k) && |s.members| == env.cfg.maxMembers
    requires Inv(t, kT) && BookOk(kT) && RoomFor(envT, kT) && |t.members| == envT.cfg.maxMembers
    requires GoodNews(s, k, ms) && GoodNews(t, kT, ns)
    requires u != BLANK && u != s.self.uuid && u != t.self.uuid
    requires ViewOf(s, u) == ViewOf(t, u) && SameWords(Heard(ms), Heard(ns), u)
    ensures ViewOf(ExtractAll(env, s, ms), u) == ViewOf(ExtractAll(envT, t, ns), u)
  {
    hide Inv, ViewOf, ExtractAll, Heard, JoinAll;
    ExtractionJoins(env, s, k, ms, u);
    ExtractionJoins(envT, t, kT, ns, u);
    SameWordsSameJoin(ViewOf(s, u), Heard(ms), Heard(ns), u);
  }
}
