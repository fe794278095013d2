/**
 * N nodes and everything they ever sent. A message may be lost, delayed, duplicated, reordered or
 * delivered to anybody: a node may at any time receive any message in any outbox, any number of times.
 */
module Network {
  import opened Types
  import opened Protocol
  import opened Invariant
  import opened Preservation
  import opened Runs

  type Net = map<Uuid, State>

  datatype Setup = Setup(book: map<Uuid, Addr>, envs: map<Uuid, Env>, seeds: map<Uuid, Addr>)

  /** One node's turn. */
  datatype Turn = Turn(node: Uuid, event: Event)

  /** Node u has room for everybody and starts from somebody else's address. */
  ghost predicate ReadyNode(c: Setup, u: Uuid)
    requires u in c.book && u in c.envs && u in c.seeds
  {
    && c.book[u] != NO_ADDR
    && c.seeds[u] in c.book.Values && c.seeds[u] != c.book[u]
    && c.envs[u].cfg.maxMembers >= 2 && c.envs[u].cfg.maxUpdates >= 2
    && |c.book| <= c.envs[u].cfg.maxMembers && |c.book| <= c.envs[u].cfg.maxUpdates
  }

  ghost predicate SetupOk(c: Setup) {
    && c.envs.Keys == c.seeds.Keys == c.book.Keys
    && BLANK !in c.book
    && (forall u, v :: u in c.book && v in c.book && u != v ==> c.book[u] != c.book[v])
    && (forall u {:trigger ReadyNode(c, u)} :: u in c.book ==> ReadyNode(c, u))
  }

  /** What has been issued so far: u has used incarnation i. */
  ghost function Issued(c: Setup, g: Net): Knowledge {
    Knowledge(c.book, iset p: (Uuid, nat) | p.0 in g && p.1 in g[p.0].incs)
  }

  function Begin(c: Setup): Net
    requires c.envs.Keys == c.seeds.Keys == c.book.Keys
  {
    map u | u in c.book :: Boot(c.envs[u], u, c.book[u], c.seeds[u])
  }

  /** m has been sent by some node. */
  ghost predicate InFlight(g: Net, m: Message) {
    exists v, x :: v in g && 0 <= x < |g[v].outbox| && g[v].outbox[x].message == m
  }

  ghost predicate Possible(c: Setup, g: Net, t: Turn) {
    && t.node in g && t.node in c.envs
    && (t.event.Listening? && t.event.received.Some? ==> InFlight(g, t.event.received.value))
  }

  function Next(c: Setup, g: Net, t: Turn): Net
    requires t.node in g && t.node in c.envs
  {
    g[t.node := Step(c.envs[t.node], g[t.node], t.event)]
  }

  /** h can be reached from g by a sequence of turns. */
  ghost predicate Leads(c: Setup, g: Net, ts: seq<Turn>, h: Net)
    decreases |ts|
  {
    if ts == [] then g == h
    else Possible(c, g, ts[0]) && Leads(c, Next(c, g, ts[0]), ts[1..], h)
  }

  ghost predicate NodeOk(c: Setup, g: Net, u: Uuid)
    requires u in g
  {
    && u in c.book && u in c.envs
    && g[u].self.uuid == u
    && |g[u].members| == c.envs[u].cfg.maxMembers
    && Inv(g[u], Issued(c, g))
  }

  ghost predicate NetInv(c: Setup, g: Net)
    requires SetupOk(c)
  {
    && g.Keys == c.book.Keys
    && (forall u :: u in g ==> 0 in g[u].incs)
    && (forall u :: u in g ==> NodeOk(c, g, u))
  }

  lemma IssuedBook(c: Setup, g: Net)
    requires SetupOk(c) && NetInv(c, g)
    ensures BookOk(Issued(c, g))
  {
    hide NodeOk;
    forall u | u in c.book ensures c.book[u] != NO_ADDR { assert ReadyNode(c, u); }
  }

  lemma NodeParts(c: Setup, g: Net, u: Uuid)
    requires SetupOk(c) && NetInv(c, g) && u in g
    ensures u in c.book && u in c.envs && g[u].self.uuid == u && |g[u].members| == c.envs[u].cfg.maxMembers
    ensures Inv(g[u], Issued(c, g)) && RoomFor(c.envs[u], Issued(c, g))
  {
    hide Inv;
    assert NodeOk(c, g, u);
    assert ReadyNode(c, u);
  }

  // ----- knowledge only grows -----

  ghost predicate Wider(k: Knowledge, wide: Knowledge) {
    k.book == wide.book && k.facts <= wide.facts
  }

  lemma WiderKeeps(s: State, k: Knowledge, wide: Knowledge)
    requires Inv(s, k) && Wider(k, wide)
    ensures Inv(s, wide)
  {
    hide UniqueUuids, Followed, SelfListed, PingsOk, PingReqsOk, StatusOk, Ring;
    var me, incs := s.self.uuid, s.incs;
    assert SlotsOk(me, incs, wide, s.members, s.confirmed);
    forall i | 0 <= i < s.mc && s.members[i].entry.uuid == BLANK
      ensures SeedAt(me, wide, s.members, s.mc, s.confirmed, i)
    {
      assert SeedAt(me, k, s.members, s.mc, s.confirmed, i);
    }
    forall x | 0 <= x < |s.outbox| ensures MessageTo(me, incs, wide, s.outbox[x].message) {
      assert MessageTo(me, incs, k, s.outbox[x].message);
    }
  }

  /** What one node may say, another may hear: both check it against the same issued incarnations. */
  lemma SaidIsHeard(c: Setup, g: Net, v: Uuid, u: Uuid, m: Message)
    requires u in g && v in g
    requires MessageTo(v, g[v].incs, Issued(c, g), m)
    ensures MessageTo(u, g[u].incs, Issued(c, g), m)
  {
    var k := Issued(c, g);
    forall e: Entry | KnownTo(v, g[v].incs, k, e) ensures KnownTo(u, g[u].incs, k, e) {
      if e.uuid != BLANK {
        assert (e.uuid, e.incarnation) in k.facts;
      }
    }
  }

  lemma InFlightOk(c: Setup, g: Net, u: Uuid, m: Message)
    requires SetupOk(c) && NetInv(c, g) && u in g && InFlight(g, m)
    ensures MessageOk(g[u], Issued(c, g), m)
  {
    hide Inv, NetInv, SetupOk, MessageTo, Issued;
    var v, x :| v in g && 0 <= x < |g[v].outbox| && g[v].outbox[x].message == m;
    NodeParts(c, g, v);
    NodeParts(c, g, u);
    Sent(g[v], Issued(c, g), x);
    SaidIsHeard(c, g, v, u, m);
  }

  lemma Sent(s: State, k: Knowledge, x: nat)
    requires Inv(s, k) && x < |s.outbox|
    ensures MessageOk(s, k, s.outbox[x].message)
  {
  }

  // ----- runs -----

  lemma NodeBegins(c: Setup, u: Uuid)
    requires SetupOk(c) && u in c.book
    ensures var s := Begin(c)[u];
      0 in s.incs && s.self.uuid == u && |s.members| == c.envs[u].cfg.maxMembers
  {
    hide Boot;
    assert ReadyNode(c, u);
    BootShape(c.envs[u], u, c.book[u], c.seeds[u]);
  }

  lemma BeginBook(c: Setup)
    requires SetupOk(c)
    ensures BookOk(Issued(c, Begin(c)))
  {
    hide Boot;
    forall u | u in c.book ensures 0 in Begin(c)[u].incs && c.book[u] != NO_ADDR {
      NodeBegins(c, u);
      assert ReadyNode(c, u);
    }
  }

  lemma BeginOk(c: Setup)
    requires SetupOk(c)
    ensures NetInv(c, Begin(c))
  {
    hide Inv, Boot, BookOk, Issued;
    var g := Begin(c);
    BeginBook(c);
    IssuedIsBook(c, g);
    forall u | u in g ensures 0 in g[u].incs && NodeOk(c, g, u) {
      NodeBegins(c, u);
      assert ReadyNode(c, u);
      BootKeeps(c.envs[u], Issued(c, g), u, c.book[u], c.seeds[u]);
    }
  }

  lemma IssuedGrows(c: Setup, g: Net, t: Turn)
    requires Possible(c, g, t)
    ensures Wider(Issued(c, g), Issued(c, Next(c, g, t)))
  {
    hide Step;
  }

  lemma ActorKeeps(c: Setup, g: Net, t: Turn)
    requires SetupOk(c) && NetInv(c, g) && Possible(c, g, t)
    ensures 0 in Next(c, g, t)[t.node].incs && NodeOk(c, Next(c, g, t), t.node)
  {
    hide Inv, Step, Issued, NetInv, SetupOk, BookOk, RoomFor;
    var u, k, h := t.node, Issued(c, g), Next(c, g, t);
    NodeParts(c, g, u);
    ZeroIssued(c, g, u);
    IssuedBook(c, g);
    if t.event.Listening? && t.event.received.Some? { InFlightOk(c, g, u, t.event.received.value); }
    StepKeeps(c.envs[u], g[u], k, t.event);
    IssuedGrows(c, g, t);
    WiderKeeps(h[u], k, Issued(c, h));
    StillItself(c.envs[u], g[u], t.event);
  }

  lemma StillItself(env: Env, s: State, e: Event)
    ensures var t := Step(env, s, e); t.self.uuid == s.self.uuid && |t.members| == |s.members| && s.incs <= t.incs
  {
    hide Step;
  }

  lemma ZeroIssued(c: Setup, g: Net, u: Uuid)
    requires SetupOk(c) && NetInv(c, g) && u in g
    ensures 0 in g[u].incs
  {
    hide NodeOk;
  }

  lemma BystanderKeeps(c: Setup, g: Net, t: Turn, u: Uuid)
    requires SetupOk(c) && NetInv(c, g) && Possible(c, g, t) && u in g && u != t.node
    ensures 0 in Next(c, g, t)[u].incs && NodeOk(c, Next(c, g, t), u)
  {
    hide Inv, Step, Issued, NetInv, SetupOk, RoomFor;
    NodeParts(c, g, u);
    ZeroIssued(c, g, u);
    IssuedGrows(c, g, t);
    WiderKeeps(g[u], Issued(c, g), Issued(c, Next(c, g, t)));
  }

  lemma NextKeeps(c: Setup, g: Net, t: Turn)
    requires SetupOk(c) && NetInv(c, g) && Possible(c, g, t)
    ensures NetInv(c, Next(c, g, t))
  {
    hide NodeOk, Step, SetupOk, Possible;
    PossibleNode(c, g, t);
    var h := Next(c, g, t);
    forall u | u in h ensures 0 in h[u].incs && NodeOk(c, h, u) {
      if u == t.node { ActorKeeps(c, g, t); } else { BystanderKeeps(c, g, t, u); }
    }
  }

  lemma PossibleNode(c: Setup, g: Net, t: Turn)
    requires Possible(c, g, t)
    ensures t.node in g && t.node in c.envs
  {
  }

  lemma IssuedIsBook(c: Setup, g: Net)
    ensures Issued(c, g).book == c.book
  {
  }

  lemma {:induction false} LeadsKeeps(c: Setup, g: Net, ts: seq<Turn>, h: Net)
    requires SetupOk(c) && NetInv(c, g) && Leads(c, g, ts, h)
    ensures NetInv(c, h)
    decreases |ts|
  {
    hide NetInv, Next, SetupOk;
    if ts == [] {
    } else {
      NextKeeps(c, g, ts[0]);
      LeadsKeeps(c, Next(c, g, ts[0]), ts[1..], h);
    }
  }

  /** Entry e says of its node an incarnation that this node has issued. */
  ghost predicate Genuine(g: Net, e: Entry) {
    e.uuid != BLANK ==> e.uuid in g && e.incarnation in g[e.uuid].incs
  }

  lemma KnownIsGenuine(c: Setup, g: Net, u: Uuid, e: Entry)
    requires u in g && KnownTo(u, g[u].incs, Issued(c, g), e)
    ensures Genuine(g, e)
  {
  }

  /**
   * No invented incarnations: in every run, every incarnation held anywhere (live, stale or
   * confirmed slot of any node) or in flight (senders, relayed acknowledgements and updates
   * alike) is one that its node has really had.
   */
  lemma NoInventedIncarnations(c: Setup, ts: seq<Turn>, g: Net, u: Uuid)
    requires SetupOk(c) && Leads(c, Begin(c), ts, g) && u in g
    ensures forall i :: 0 <= i < |g[u].members| ==> Genuine(g, g[u].members[i].entry)
    ensures forall j :: 0 <= j < |g[u].confirmed| ==> Genuine(g, g[u].confirmed[j].entry)
    ensures forall x :: 0 <= x < |g[u].outbox| ==>
      && Genuine(g, g[u].outbox[x].message.sender)
      && forall y :: 0 <= y < |g[u].outbox[x].message.updates| ==> Genuine(g, g[u].outbox[x].message.updates[y])
  {
    hide Core, Inv, NetInv, ReadyNode, Begin, Leads, Genuine, Issued;
    BeginOk(c);
    LeadsKeeps(c, Begin(c), ts, g);
    NodeParts(c, g, u);
    AllKnown(g[u], Issued(c, g));
    forall e: Entry | KnownTo(u, g[u].incs, Issued(c, g), e) ensures Genuine(g, e) { KnownIsGenuine(c, g, u, e); }
  }

  lemma AllKnown(s: State, k: Knowledge)
    requires Inv(s, k)
    ensures forall i :: 0 <= i < |s.members| ==> Known(s, k, s.members[i].entry)
    ensures forall j :: 0 <= j < |s.confirmed| ==> Known(s, k, s.confirmed[j].entry)
    ensures forall x :: 0 <= x < |s.outbox| ==>
      && Known(s, k, s.outbox[x].message.sender)
      && forall y :: 0 <= y < |s.outbox[x].message.updates| ==> Known(s, k, s.outbox[x].message.updates[y])
  {
    forall x | 0 <= x < |s.outbox| ensures MessageOk(s, k, s.outbox[x].message) {}
  }

  /**
   * Safety of the whole network, from start-up data alone: in every run every node keeps its
   * invariant, and every message of a kind that is acted upon names only nodes of the book, each
   * with its own address.
   */
  lemma NetworkSafe(c: Setup, ts: seq<Turn>, g: Net, u: Uuid)
    requires SetupOk(c) && Leads(c, Begin(c), ts, g) && u in g
    ensures Inv(g[u], Issued(c, g)) && BookOk(Issued(c, g))
    ensures forall m :: InFlight(g, m) && Handled(m.kind) ==>
      forall i :: 0 <= i < |m.updates| ==>
        m.updates[i].uuid in c.book && m.updates[i].addr == c.book[m.updates[i].uuid]
  {
    hide Inv, NetInv, ReadyNode, Begin, Leads, InFlight, Issued, BookOk;
    BeginOk(c);
    LeadsKeeps(c, Begin(c), ts, g);
    IssuedBook(c, g);
    NodeParts(c, g, u);
    IssuedIsBook(c, g);
    forall m | InFlight(g, m) && Handled(m.kind)
      ensures forall i :: 0 <= i < |m.updates| ==>
        m.updates[i].uuid in c.book && m.updates[i].addr == c.book[m.updates[i].uuid]
    {
      InFlightOk(c, g, u, m);
    }
  }
}
