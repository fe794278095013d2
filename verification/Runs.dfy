/** What holds in every state a node can reach from start-up, whatever it receives from the book. */
module Runs {
  import opened Types
  import opened Seqs
  import opened Tables
  import opened Protocol
  import opened Invariant
  import opened Preservation

  /** The node after a sequence of atomic steps. */
  function Run(env: Env, s: State, es: seq<Event>): (r: State)
    ensures Grows(s, r)
  {
    if es == [] then s else Step(env, Run(env, s, es[..|es| - 1]), es[|es| - 1])
  }

  /** Every message received along the way respects the book. */
  ghost predicate AdmissibleRun(env: Env, s: State, k: Knowledge, es: seq<Event>) {
    forall i :: 0 <= i < |es| ==> Admissible(Run(env, s, es[..i]), k, es[i])
  }

  /** Start-up data: we are in the book, and the seed is somebody else in it. */
  ghost predicate GoodStart(env: Env, k: Knowledge, uuid: Uuid, addr: Addr, seed: Addr) {
    && BookOk(k) && RoomFor(env, k)
    && env.cfg.maxMembers >= 2 && env.cfg.maxUpdates >= 2
    && uuid in k.book && k.book[uuid] == addr
    && seed in k.book.Values && seed != addr
  }

  lemma BootShape(env: Env, uuid: Uuid, addr: Addr, seed: Addr)
    requires env.cfg.maxMembers >= 2 && env.cfg.maxUpdates >= 2
    ensures var s := Boot(env, uuid, addr, seed);
      && s.mc == 2 && |s.members| == env.cfg.maxMembers
      && s.members[0].entry == Entry(uuid, addr, Alive, 0)
      && s.members[1].entry == Entry(BLANK, seed, Alive, 0)
      && (forall i :: 2 <= i < |s.members| ==> s.members[i] == ZERO_MEMBER)
      && s.updates == [Update(Live(0), 0), Update(Live(1), 0)]
      && s.self == Entry(uuid, addr, Alive, 0) && s.incs == {0}
      && s.confirmed == [] && s.pings == [] && s.pingReqs == [] && s.outbox == []
      && Ring(s.indices, s.rr, 2)
  {
    hide IndexAdd, Ring;
    var s0 := Blanked(env, uuid, addr);
    var m0 := MemberAdd(env, s0, s0.self);
    EmptyRing(s0.indices);
    IndexAddKeepsRing(env, m0);
    var s1 := AddLive(env, s0, s0.self);
    var m1 := MemberAdd(env, s1, Entry(BLANK, seed, Alive, 0));
    IndexAddKeepsRing(env, m1);
  }

  lemma EmptyRing(xs: seq<nat>)
    ensures Ring(xs, 0, 0)
  {
  }

  lemma BootKeeps(env: Env, k: Knowledge, uuid: Uuid, addr: Addr, seed: Addr)
    requires GoodStart(env, k, uuid, addr, seed)
    ensures Inv(Boot(env, uuid, addr, seed), k)
  {
    hide Boot, Ring;
    BootShape(env, uuid, addr, seed);
  }

  /** The invariant holds along every run. */
  lemma {:induction false} RunKeeps(env: Env, s: State, k: Knowledge, es: seq<Event>)
    requires Inv(s, k) && BookOk(k) && RoomFor(env, k) && |s.members| == env.cfg.maxMembers
    requires AdmissibleRun(env, s, k, es)
    ensures Inv(Run(env, s, es), k)
  {
    hide Inv, Step;
    if es == [] {
    } else {
      var n := |es| - 1;
      PrefixAdmissible(env, s, k, es, n);
      RunKeeps(env, s, k, es[..n]);
      StepKeeps(env, Run(env, s, es[..n]), k, es[n]);
    }
  }

  lemma PrefixAdmissible(env: Env, s: State, k: Knowledge, es: seq<Event>, n: nat)
    requires AdmissibleRun(env, s, k, es) && n <= |es|
    ensures AdmissibleRun(env, s, k, es[..n])
  {
    hide Run, Admissible;
    forall i | 0 <= i < n ensures Admissible(Run(env, s, es[..n][..i]), k, es[..n][i]) {
      assert es[..n][..i] == es[..i];
    }
  }

  lemma LastAdmissible(env: Env, s: State, k: Knowledge, es: seq<Event>)
    requires AdmissibleRun(env, s, k, es) && es != []
    ensures Admissible(Run(env, s, es[..|es| - 1]), k, es[|es| - 1])
  {
  }

  /** Every state reachable from start-up satisfies the invariant. */
  lemma Reachable(env: Env, k: Knowledge, uuid: Uuid, addr: Addr, seed: Addr, es: seq<Event>)
    requires GoodStart(env, k, uuid, addr, seed)
    requires AdmissibleRun(env, Boot(env, uuid, addr, seed), k, es)
    ensures Inv(Run(env, Boot(env, uuid, addr, seed), es), k)
  {
    hide Inv, Boot;
    BootKeeps(env, k, uuid, addr, seed);
    BootShape(env, uuid, addr, seed);
    RunKeeps(env, Boot(env, uuid, addr, seed), k, es);
  }

  /** No table outgrows its array: what the run has listed fits the arrays with room for the whole book. */
  lemma NeverOverflows(env: Env, k: Knowledge, uuid: Uuid, addr: Addr, seed: Addr, es: seq<Event>)
    requires GoodStart(env, k, uuid, addr, seed)
    requires AdmissibleRun(env, Boot(env, uuid, addr, seed), k, es)
    ensures var s := Run(env, Boot(env, uuid, addr, seed), es);
      && s.mc + |s.confirmed| == |s.updates| <= |k.book|
      && s.mc <= env.cfg.maxMembers && |s.confirmed| <= env.cfg.maxMembers && |s.updates| <= env.cfg.maxUpdates
  {
    hide Core, Boot, Run, StatusOk, Ring;
    Reachable(env, k, uuid, addr, seed, es);
    Capacity(Run(env, Boot(env, uuid, addr, seed), es), k);
  }

  lemma {:induction false} RunsCompose(env: Env, s: State, a: seq<Event>, b: seq<Event>)
    ensures Run(env, s, a + b) == Run(env, Run(env, s, a), b)
  {
    hide Step;
    if b == [] {
      assert a + b == a;
    } else {
      var n := |b| - 1;
      assert (a + b)[..|a + b| - 1] == a + b[..n];
      RunsCompose(env, s, a, b[..n]);
    }
  }

  /**
   * Confirmation is final: once confirmed, an entry keeps its place, its status and its
   * incarnation for ever, and its uuid never comes back among the live members.
   */
  lemma ConfirmedForever(env: Env, s: State, k: Knowledge, es: seq<Event>, j: nat)
    requires Inv(s, k) && BookOk(k) && RoomFor(env, k) && |s.members| == env.cfg.maxMembers
    requires AdmissibleRun(env, s, k, es) && j < |s.confirmed|
    ensures var t := Run(env, s, es);
      && j < |t.confirmed| && t.confirmed[j] == s.confirmed[j] && t.confirmed[j].entry.status == Confirmed
      && forall i :: 0 <= i < t.mc ==> t.members[i].entry.uuid != s.confirmed[j].entry.uuid
  {
    hide Run, Ring, Followed, SlotsOk, SeedOk, SelfListed, PingsOk, OutboxOk;
    RunKeeps(env, s, k, es);
  }

  // ----- updates follow their nodes -----

  function Subject(s: State, x: nat): Uuid
    requires x < |s.updates|
  {
    Deref(s, s.updates[x].ref).entry.uuid
  }

  lemma MoveKeepsSubjects(s: State, i: nat)
    requires i < s.mc && Followed(s.updates, s.mc, |s.confirmed|)
    ensures |Move(s, i).updates| == |s.updates|
    ensures forall x :: 0 <= x < |s.updates| ==>
      Move(s, i).updates[x].count == s.updates[x].count && Subject(Move(s, i), x) == Subject(s, x)
  {
    hide RebaseAll, DropPing;
    forall x | 0 <= x < |s.updates| ensures Subject(Move(s, i), x) == Subject(s, x) {
      assert RefOk(s.updates[x].ref, s.mc, |s.confirmed|);
    }
  }

  /** A confirmation changes no update's subject and no use count, although the pointers move. */
  lemma ConfirmKeepsSubjects(env: Env, s: State, k: Knowledge, i: nat)
    requires Core(s, k) && i < s.mc
    ensures |Confirm(env, s, i).updates| == |s.updates|
    ensures forall x :: 0 <= x < |s.updates| ==>
      Confirm(env, s, i).updates[x].count == s.updates[x].count && Subject(Confirm(env, s, i), x) == Subject(s, x)
  {
    hide Move, Announce, DropPing, IndexRemove, UniqueUuids, SlotsOk, SeedOk, SelfListed, PingsOk, OutboxOk;
    var s1 := DropPing(SetStatus(s, i, Confirmed), s.members[i].entry.uuid);
    assert forall x :: 0 <= x < |s.updates| ==> Subject(s1, x) == Subject(s, x);
    MoveKeepsSubjects(s1, i);
    RingAndPostOnly(env, Move(s1, i), Slot(Move(s1, i), i).entry);
  }

  lemma RingAndPostOnly(env: Env, s: State, e: Entry)
    ensures var t := IndexRemove(Announce(env, s, ConfirmMessage, e));
      t == s.(indices := t.indices, rr := t.rr, draws := t.draws, outbox := t.outbox)
  {
  }

  /**
   * The announcement of a confirmation, if one is sent at all, is about whatever stands in the slot after
   * the shift. It names the confirmed member if and only if that member was the last in the array.
   */
  lemma AnnouncedIsConfirmedIff(env: Env, s: State, k: Knowledge, i: nat)
    requires Core(s, k) && i < s.mc
    ensures var t := MarkConfirmed(env, s, i);
      t.outbox == s.outbox ||
      (&& |t.outbox| == |s.outbox| + 1
       && var m := t.outbox[|s.outbox|].message;
       && m.kind == ConfirmMessage && |m.updates| == 1
       && (m.updates[0].uuid == s.members[i].entry.uuid <==> i == s.mc - 1))
  {
    hide Retrieve, RebaseAll, Followed, SlotsOk, SeedOk, SelfListed, PingsOk, OutboxOk;
    var s1 := DropPing(SetStatus(s, i, Confirmed), s.members[i].entry.uuid);
    var s2 := Move(s1, i);
    assert Slot(s2, i).entry.uuid == s.members[if i < s.mc - 1 then i + 1 else i].entry.uuid;
  }

  /** Filling in the seed's name renames the subject of the update that follows its slot, and touches nothing else. */
  lemma FindKeepsSubjects(s: State, k: Knowledge, e: Entry)
    requires Core(s, k)
    ensures Find(s, e).0.updates == s.updates
    ensures var (t, i) := Find(s, e);
      forall x :: 0 <= x < |s.updates| ==>
        Subject(t, x) == if i.Some? && s.updates[x].ref == Live(i.value) then e.uuid else Subject(s, x)
    ensures var (t, i) := Find(s, e);
      i.Some? && t != s ==> s.members[i.value].entry.uuid == BLANK && s.members[i.value].entry.addr == e.addr
  {
    hide Followed, SlotsOk, SeedOk, SelfListed, PingsOk, OutboxOk;
    var i := First(Lives(s), Fits(e));
    if i.Some? {
      var m := s.members[i.value];
      assert m == Lives(s)[i.value];
      if m.entry.uuid == e.uuid { assert m == m.(entry := m.entry.(uuid := e.uuid)); }
    }
  }
}
