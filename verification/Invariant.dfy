/**
 * What every reachable state of a node satisfies, given an address book: every uuid has one
 * address, no two uuids share one, and the messages received respect the book.
 */
module Invariant {
  import opened Types
  import opened Seqs
  import opened Tables
  import opened Protocol

  /** The address book, and which (uuid, incarnation) pairs other nodes may have issued. */
  datatype Knowledge = Knowledge(book: map<Uuid, Addr>, facts: iset<(Uuid, nat)>)

  ghost predicate BookOk(k: Knowledge) {
    && BLANK !in k.book
    && (forall u, v :: u in k.book && v in k.book && u != v ==> k.book[u] != k.book[v])
    && (forall u :: u in k.book ==> k.book[u] != NO_ADDR && (u, 0) in k.facts)
  }

  /** Every node of the book fits into the member arrays and into the update array. */
  ghost predicate RoomFor(env: Env, k: Knowledge) {
    |k.book| <= env.cfg.maxMembers && |k.book| <= env.cfg.maxUpdates
  }

  /** u is known to have had incarnation i: we had it ourselves, or others may say so. */
  ghost predicate FactOf(me: Uuid, incs: set<nat>, k: Knowledge, u: Uuid, i: nat) {
    (u == me && i in incs) || (u, i) in k.facts
  }

  /** A named entry carries its owner's address and an incarnation its owner issued. */
  ghost predicate KnownTo(me: Uuid, incs: set<nat>, k: Knowledge, e: Entry) {
    e.uuid != BLANK ==> e.uuid in k.book && e.addr == k.book[e.uuid] && FactOf(me, incs, k, e.uuid, e.incarnation)
  }

  ghost predicate NamedTo(me: Uuid, incs: set<nat>, k: Knowledge, e: Entry) {
    e.uuid != BLANK && KnownTo(me, incs, k, e)
  }

  predicate Handled(kind: Kind) {
    kind == PingMessage || kind == PingReqMessage || kind == AckMessage
  }

  /** All entries of a message are known; in the kinds that are acted upon, none is blank. */
  ghost predicate MessageTo(me: Uuid, incs: set<nat>, k: Knowledge, m: Message) {
    && NamedTo(me, incs, k, m.sender)
    && (forall i :: 0 <= i < |m.updates| ==> KnownTo(me, incs, k, m.updates[i]))
    && (Handled(m.kind) ==> forall i :: 0 <= i < |m.updates| ==> m.updates[i].uuid != BLANK)
  }

  ghost predicate Fact(s: State, k: Knowledge, u: Uuid, i: nat) {
    FactOf(s.self.uuid, s.incs, k, u, i)
  }

  ghost predicate Known(s: State, k: Knowledge, e: Entry) {
    KnownTo(s.self.uuid, s.incs, k, e)
  }

  ghost predicate Named(s: State, k: Knowledge, e: Entry) {
    NamedTo(s.self.uuid, s.incs, k, e)
  }

  ghost predicate MessageOk(s: State, k: Knowledge, m: Message) {
    MessageTo(s.self.uuid, s.incs, k, m)
  }

  /** A message that respects the book, or of a kind that is ignored. */
  ghost predicate Acceptable(s: State, k: Knowledge, m: Message) {
    Handled(m.kind) ==> MessageOk(s, k, m)
  }

  // ----- the parts of the invariant, each about the fields it needs -----

  /** No uuid occurs twice among the live and the confirmed members. */
  ghost predicate UniqueUuids(members: seq<Member>, mc: nat, confirmed: seq<Member>) {
    && mc <= |members|
    && (forall i, j :: 0 <= i < j < mc ==> members[i].entry.uuid != members[j].entry.uuid)
    && (forall i, j :: 0 <= i < j < |confirmed| ==> confirmed[i].entry.uuid != confirmed[j].entry.uuid)
    && (forall i, j :: 0 <= i < mc && 0 <= j < |confirmed| ==> members[i].entry.uuid != confirmed[j].entry.uuid)
  }

  predicate RefOk(r: Ref, mc: nat, cc: nat) {
    match r
    case Live(i) => i < mc
    case Conf(j) => j < cc
  }

  /** The updates point one-to-one at mc live and cc confirmed members. */
  ghost predicate Followed(us: seq<Update>, mc: nat, cc: nat) {
    && |us| == mc + cc
    && (forall x :: 0 <= x < |us| ==> RefOk(us[x].ref, mc, cc))
    && (forall x, y :: 0 <= x < y < |us| ==> us[x].ref != us[y].ref)
  }

  /** Every slot ever written, live or stale, holds a known entry. */
  ghost predicate SlotsOk(me: Uuid, incs: set<nat>, k: Knowledge, members: seq<Member>, confirmed: seq<Member>) {
    && (forall i :: 0 <= i < |members| ==> KnownTo(me, incs, k, members[i].entry))
    && (forall j :: 0 <= j < |confirmed| ==> NamedTo(me, incs, k, confirmed[j].entry))
  }

  /** The blank seed in slot i is untouched, sits right behind us, and nobody known owns its address. */
  ghost predicate SeedAt(me: Uuid, k: Knowledge, members: seq<Member>, mc: nat, confirmed: seq<Member>, i: nat)
    requires i < mc <= |members|
  {
    && members[i].entry.status == Alive
    && members[i].entry.incarnation == 0
    && members[i].entry.addr in k.book.Values
    && (i == 0 || (i == 1 && members[0].entry.uuid == me))
    && (forall j :: 0 <= j < mc && j != i ==> members[j].entry.addr != members[i].entry.addr)
    && (forall j :: 0 <= j < |confirmed| ==> confirmed[j].entry.addr != members[i].entry.addr)
  }

  ghost predicate SeedOk(me: Uuid, k: Knowledge, members: seq<Member>, mc: nat, confirmed: seq<Member>)
    requires mc <= |members|
  {
    forall i :: 0 <= i < mc && members[i].entry.uuid == BLANK ==> SeedAt(me, k, members, mc, confirmed, i)
  }

  /** We are known to ourselves, in the first slot or among the confirmed, and nowhere else. */
  ghost predicate SelfListed(me: Uuid, members: seq<Member>, mc: nat, confirmed: seq<Member>)
    requires mc <= |members|
  {
    && (forall i :: 0 < i < mc ==> members[i].entry.uuid != me)
    && ((mc > 0 && members[0].entry.uuid == me) || exists j :: 0 <= j < |confirmed| && confirmed[j].entry.uuid == me)
  }

  ghost predicate SelfOk(self: Entry, incs: set<nat>, k: Knowledge) {
    NamedTo(self.uuid, incs, k, self) && self.incarnation in incs
  }

  ghost predicate PingOk(me: Uuid, members: seq<Member>, mc: nat, p: Ping) {
    && p.slot < |members|
    && members[p.slot].entry.uuid != BLANK
    && (0 < mc <= |members| && members[0].entry.uuid == me ==> p.slot != 0)
  }

  /** Pings point at named slots, never at ourselves while we are live. */
  ghost predicate PingsOk(me: Uuid, members: seq<Member>, mc: nat, pings: seq<Ping>) {
    forall x :: 0 <= x < |pings| ==> PingOk(me, members, mc, pings[x])
  }

  ghost predicate PingReqsOk(n: nat, pingReqs: seq<PingReq>) {
    forall x :: 0 <= x < |pingReqs| ==> pingReqs[x].target < n && pingReqs[x].source < n
  }

  ghost predicate OutboxOk(me: Uuid, incs: set<nat>, k: Knowledge, outbox: seq<Packet>) {
    forall x :: 0 <= x < |outbox| ==> MessageTo(me, incs, k, outbox[x].message)
  }

  ghost predicate Core(s: State, k: Knowledge) {
    && UniqueUuids(s.members, s.mc, s.confirmed)
    && Followed(s.updates, s.mc, |s.confirmed|)
    && SlotsOk(s.self.uuid, s.incs, k, s.members, s.confirmed)
    && SeedOk(s.self.uuid, k, s.members, s.mc, s.confirmed)
    && SelfListed(s.self.uuid, s.members, s.mc, s.confirmed)
    && SelfOk(s.self, s.incs, k)
    && PingsOk(s.self.uuid, s.members, s.mc, s.pings)
    && PingReqsOk(|s.members|, s.pingReqs)
    && OutboxOk(s.self.uuid, s.incs, k, s.outbox)
  }

  /** Apart from slot `but` no live member is confirmed; all members of the other array are. */
  ghost predicate StatusOkBut(members: seq<Member>, mc: nat, confirmed: seq<Member>, but: nat)
    requires mc <= |members|
  {
    && (forall i :: 0 <= i < mc && i != but ==> members[i].entry.status != Confirmed)
    && (forall j :: 0 <= j < |confirmed| ==> confirmed[j].entry.status == Confirmed)
  }

  ghost predicate StatusOk(s: State) {
    StatusOkBut(s.members, s.mc, s.confirmed, s.mc)
  }

  /** The first n ring entries permute 0..n and the cursor is on one of them. */
  ghost predicate Ring(indices: seq<nat>, rr: nat, n: nat) {
    Perm(indices, n) && (rr < n || rr == n == 0)
  }

  ghost predicate Inv(s: State, k: Knowledge) {
    Core(s, k) && StatusOk(s) && Ring(s.indices, s.rr, s.mc)
  }

  // ----- the ring -----

  lemma {:induction false} ShuffleKeepsPerm(rand: nat -> nat, xs: seq<nat>, i: nat, draws: nat, m: nat, n: nat)
    requires i < m <= n && Perm(xs, n)
    ensures Perm(Shuffle(rand, xs, i, draws).0, n)
    ensures forall p :: m <= p < |xs| ==> Shuffle(rand, xs, i, draws).0[p] == xs[p]
    decreases i
  {
    if i == 0 {
    } else {
      var j := rand(draws) % (i + 1);
      ShuffleKeepsPerm(rand, xs[i := xs[j]][j := xs[i]], i - 1, draws + 1, m, n);
    }
  }

  lemma AdvanceKeepsPerm(env: Env, s: State, n: nat)
    requires 0 < s.mc <= n && Perm(s.indices, n)
    ensures Perm(Advance(env, s).0.indices, n)
  {
    ShuffleKeepsPerm(env.rand, s.indices, s.mc - 1, s.draws, s.mc, n);
  }

  lemma {:induction false} RetrieveKeepsPerm(env: Env, s: State, origin: nat, fuel: nat, n: nat)
    requires 0 < s.mc <= n && Ring(s.indices, s.rr, n)
    ensures Perm(RetrieveFrom(env, s, origin, fuel).0.indices, n)
    ensures RetrieveFrom(env, s, origin, fuel).1.Some? ==> RetrieveFrom(env, s, origin, fuel).1.value < n
    decreases fuel
  {
    if fuel == 0 {
    } else {
      AdvanceKeepsPerm(env, s, n);
      RetrieveKeepsPerm(env, Advance(env, s).0, origin, fuel - 1, n);
    }
  }

  /** Retrieving, also in the middle of a confirmation (n == mc + 1), keeps the permutation. */
  lemma RetrieveKeepsRing(env: Env, s: State, n: nat)
    requires s.mc <= n <= s.mc + 1 && Ring(s.indices, s.rr, n)
    ensures Perm(Retrieve(env, s).0.indices, n)
    ensures Retrieve(env, s).0.rr < s.mc || Retrieve(env, s).0.rr == s.mc == 0
    ensures Retrieve(env, s).1.Some? ==> Retrieve(env, s).1.value < n
  {
    if s.mc > 0 { RetrieveKeepsPerm(env, s, s.rr, 3, n); }
  }

  lemma IndexAddKeepsRing(env: Env, s: State)
    requires s.mc > 0 && Ring(s.indices, s.rr, s.mc - 1)
    ensures Ring(IndexAdd(env, s).indices, s.rr, s.mc)
    ensures IndexAdd(env, s) == s.(indices := IndexAdd(env, s).indices, draws := IndexAdd(env, s).draws)
  {
    hide Perm;
    InsertKeepsPerm(s.indices, s.mc - 1, env.rand(s.draws) % s.mc);
  }

  lemma InsertKeepsPerm(xs: seq<nat>, n: nat, p: nat)
    requires p <= n < |xs| && Perm(xs, n)
    ensures Perm(xs[..p] + [n] + xs[p..n] + xs[n + 1..], n + 1)
  {
    var ys := xs[..p] + [n] + xs[p..n] + xs[n + 1..];
    assert forall i :: 0 <= i <= n ==> ys[i] == if i < p then xs[i] else if i == p then n else xs[i - 1];
  }

  /** Dropping the highest of a permutation of 0..m+1 leaves one of 0..m. */
  lemma IndexRemoveRestoresPerm(s: State)
    requires Perm(s.indices, s.mc + 1)
    ensures Perm(IndexRemove(s).indices, s.mc)
  {
    var m := s.mc;
    var p := MaxPos(s.indices, m + 1);
    var q := PermHits(s.indices, m + 1, m);
    assert s.indices[p] == m;
  }

  // ----- operations that leave the slots alone -----

  lemma DropPingKeeps(s: State, k: Knowledge, u: Uuid)
    requires Core(s, k)
    ensures Core(DropPing(s, u), k)
  {
  }

  lemma SendKeeps(s: State, k: Knowledge, to: Addr, m: Message)
    requires Core(s, k) && MessageOk(s, k, m)
    ensures Core(Send(s, to, m), k)
  {
  }

  lemma AnnounceKeeps(env: Env, s: State, k: Knowledge, kind: Kind, e: Entry, n: nat)
    requires Core(s, k) && s.mc <= n <= s.mc + 1 && Ring(s.indices, s.rr, n)
    requires Known(s, k, e) && !Handled(kind)
    ensures Core(Announce(env, s, kind, e), k)
    ensures Perm(Announce(env, s, kind, e).indices, n)
    ensures Announce(env, s, kind, e).rr < s.mc || Announce(env, s, kind, e).rr == s.mc == 0
  {
    RetrieveKeepsRing(env, s, n);
    var (s1, to) := Retrieve(env, s);
    if to.Some? {
      SendKeeps(s1, k, Slot(s1, to.value).entry.addr, Message(kind, s.self, [e]));
    }
  }

  lemma StatusNoticeKeeps(env: Env, s: State, k: Knowledge, kind: Kind, e: Entry)
    requires Inv(s, k) && Known(s, k, e) && !Handled(kind)
    ensures Inv(Announce(env, s, kind, e), k)
  {
    AnnounceKeeps(env, s, k, kind, e, s.mc);
  }

  // ----- operations on one slot -----

  /** New status, incarnation and timer in a named slot. */
  lemma RetouchKeeps(s: State, k: Knowledge, i: nat, m: Member)
    requires Core(s, k) && i < |s.members|
    requires m.entry.uuid == s.members[i].entry.uuid != BLANK && m.entry.addr == s.members[i].entry.addr
    requires Fact(s, k, m.entry.uuid, m.entry.incarnation)
    ensures Core(SetSlot(s, i, m), k)
  {
    var me, ms := s.self.uuid, s.members[i := m];
    assert UniqueUuids(ms, s.mc, s.confirmed);
    assert SlotsOk(me, s.incs, k, ms, s.confirmed);
    forall j | 0 <= j < s.mc && ms[j].entry.uuid == BLANK ensures SeedAt(me, k, ms, s.mc, s.confirmed, j) {
      assert SeedAt(me, k, s.members, s.mc, s.confirmed, j);
    }
    assert SelfListed(me, ms, s.mc, s.confirmed);
    forall x | 0 <= x < |s.pings| ensures PingOk(me, ms, s.mc, s.pings[x]) {
      assert PingOk(me, s.members, s.mc, s.pings[x]);
    }
  }

  lemma RestampKeeps(env: Env, s: State, k: Knowledge, i: nat, status: Status, incarnation: nat)
    requires Inv(s, k) && i < |s.members| && s.members[i].entry.uuid != BLANK && status != Confirmed
    requires Fact(s, k, s.members[i].entry.uuid, incarnation)
    ensures Inv(Restamp(env, s, i, status, incarnation), k)
    ensures Known(s, k, Restamp(env, s, i, status, incarnation).members[i].entry)
  {
    var e := s.members[i].entry.(status := status, incarnation := incarnation);
    RetouchKeeps(s, k, i, Member(e, Deadline(env, s)));
    Parts(s, k);
  }

  /** The invariant's consequences that the lemmas about whole operations use. */
  lemma Parts(s: State, k: Knowledge)
    requires Core(s, k)
    ensures Followed(s.updates, s.mc, |s.confirmed|)
    ensures SlotsOk(s.self.uuid, s.incs, k, s.members, s.confirmed)
    ensures Named(s, k, s.self)
    ensures PingsOk(s.self.uuid, s.members, s.mc, s.pings) && PingReqsOk(|s.members|, s.pingReqs)
    ensures forall i :: 0 <= i < |s.members| ==> Known(s, k, s.members[i].entry)
    ensures forall i :: 0 <= i < s.mc && s.members[i].entry.status != Alive ==> s.members[i].entry.uuid != BLANK
  {
  }

  lemma MarkAliveKeeps(env: Env, s: State, k: Knowledge, i: nat)
    requires Inv(s, k) && i < |s.members| && s.members[i].entry.uuid != BLANK
    ensures Inv(MarkAlive(env, s, i), k)
  {
    hide Core;
    Parts(s, k);
    var e := s.members[i].entry;
    RestampKeeps(env, s, k, i, Alive, e.incarnation);
    var s1 := Restamp(env, s, i, Alive, e.incarnation);
    if e.status == Suspect { StatusNoticeKeeps(env, s1, k, AliveMessage, s1.members[i].entry); }
  }

  lemma MarkSuspectKeeps(env: Env, s: State, k: Knowledge, i: nat)
    requires Inv(s, k) && i < |s.members| && s.members[i].entry.uuid != BLANK
    ensures Inv(MarkSuspect(env, s, i), k)
  {
    hide Core;
    Parts(s, k);
    var e := s.members[i].entry;
    if e.status == Alive {
      RestampKeeps(env, s, k, i, Suspect, e.incarnation);
      var s1 := Restamp(env, s, i, Suspect, e.incarnation);
      StatusNoticeKeeps(env, s1, k, SuspectMessage, s1.members[i].entry);
    }
  }
}
